/**
 Reading back what the writer makes of characters, attribute values, names and tags.
 */
module AtomText {
  import opened Common
  import opened Naming
  import opened AtomXml

  // ------------------------------------------------------------- characters

  predicate Legal(s: string) {
    forall i :: 0 <= i < |s| ==> LegalChar(s[i])
  }

  /** What a reader makes of the line ends in `s`. */
  function LineEnds(s: string): string
    decreases |s|
  {
    if s == "" then ""
    else if s[0] == '\r' then "\n" + LineEnds(if |s| > 1 && s[1] == '\n' then s[2..] else s[1..])
    else [s[0]] + LineEnds(s[1..])
  }

  lemma Cat3(a: string, b: string, c: string)
    ensures a + b + c == a + (b + c)
  {
  }

  lemma Cat4(a: string, b: string, c: string, d: string)
    ensures a + b + c + d == a + (b + (c + d))
  {
  }

  lemma {:induction false} SplitAtMark(name: string, mark: char, rest: string)
    requires mark !in name
    ensures SplitAt(name + [mark] + rest, mark) == Some((name, rest))
  {
    var s := name + [mark] + rest;
    if name == "" {
      assert s[0] == mark && s[1..] == rest;
    } else {
      assert s[0] == name[0] && s[1..] == name[1..] + [mark] + rest;
      assert name[0] in name && [name[0]] + name[1..] == name;
      SplitAtMark(name[1..], mark, rest);
    }
  }

  /** The name of the reference that stands for `c` in text, if one does. */
  function TextReference(c: char): Option<string> {
    if c == '&' then Some("amp") else if c == '<' then Some("lt") else if c == '>' then Some("gt") else None
  }

  function AttributeReference(c: char, quoted: bool): Option<string> {
    if c == '\n' then Some("#10") else if c == '\r' then Some("#13") else if c == '\t' then Some("#9")
    else if quoted && c == '"' then Some("quot") else TextReference(c)
  }

  lemma CharacterReferences()
    ensures Reference("#9") == Some('\t') && Reference("#10") == Some('\n') && Reference("#13") == Some('\r')
  {
    assert DecimalValue("1") == Some(1) by { assert "1"[..0] == ""; }
    assert DecimalValue("9") == Some(9) by { assert "9"[..0] == ""; }
    assert DecimalValue("10") == Some(10) by { assert "10"[..1] == "1"; }
    assert DecimalValue("13") == Some(13) by { assert "13"[..1] == "1"; }
    assert "#10"[1..] == "10" && "#13"[1..] == "13" && "#9"[1..] == "9";
  }

  lemma ReferenceRead(c: char, quoted: bool)
    ensures match AttributeReference(c, quoted)
      case Some(name) =>
        AttributeChar(c, quoted) == "&" + name + ";" && ';' !in name && Reference(name) == Some(c)
      case None =>
        AttributeChar(c, quoted) == [c]
    ensures match TextReference(c)
      case Some(name) => EscapeChar(c) == "&" + name + ";" && ';' !in name && Reference(name) == Some(c)
      case None => EscapeChar(c) == [c]
  {
    CharacterReferences();
    NamedReferences();
    hide Reference, DecimalValue;
  }

  lemma NamedReferences()
    ensures Reference("amp") == Some('&') && Reference("lt") == Some('<') && Reference("gt") == Some('>')
    ensures Reference("quot") == Some('"')
  {
    hide DecimalValue;
  }

  lemma ReferenceInText(name: string, c: char, left: string)
    requires ';' !in name && Reference(name) == Some(c)
    ensures ReadText("&" + name + ";" + left, '<') == Before(c, ReadText(left, '<'))
    ensures ReadValue("&" + name + ";" + left, '"') == Before(c, ReadValue(left, '"'))
    ensures ReadValue("&" + name + ";" + left, '\'') == Before(c, ReadValue(left, '\''))
  {
    var s := "&" + name + ";" + left;
    assert s[0] == '&' && s[1..] == name + [';'] + left;
    hide Reference;
    SplitAtMark(name, ';', left);
  }

  /** Text comes back as it was, but for its line ends. */
  lemma {:induction false} TextRead(text: string, rest: string)
    requires Legal(text)
    ensures ReadText(EscapeText(text) + "<" + rest, '<') == Some((LineEnds(text), "<" + rest))
    decreases |text|
  {
    hide Reference, SplitAt;
    var s := EscapeText(text) + "<" + rest;
    if text == "" {
      assert s == "<" + rest;
    } else {
      var c, more := text[0], text[1..];
      var left := EscapeText(more) + "<" + rest;
      assert s == EscapeChar(c) + left;
      ReferenceRead(c, false);
      if TextReference(c).Some? {
        ReferenceInText(TextReference(c).value, c, left);
        TextRead(more, rest);
      } else if c == '\r' {
        ReturnRead(text, rest);
        TextRead(if more != "" && more[0] == '\n' then text[2..] else more, rest);
      } else {
        assert s[0] == c && s[1..] == left;
        TextRead(more, rest);
      }
    }
  }

  lemma ReturnStep(s: string, left: string)
    requires s == ['\r'] + left
    ensures ReadText(s, '<')
         == Before('\n', ReadText(if left != "" && left[0] == '\n' then left[1..] else left, '<'))
  {
    hide Reference, SplitAt, LegalChar, Before;
    assert s[0] == '\r' && s[1..] == left;
    if left != "" {
      assert s[1] == left[0] && s[2..] == left[1..];
    }
  }

  lemma EscapeSplits(text: string, rest: string)
    requires text != ""
    ensures EscapeText(text) + rest == EscapeChar(text[0]) + (EscapeText(text[1..]) + rest)
    ensures EscapeChar(text[0]) != "" && (EscapeChar(text[0])[0] == '\n' <==> text[0] == '\n')
  {
  }

  lemma ReturnRead(text: string, rest: string)
    requires text != "" && text[0] == '\r'
    ensures ReadText(EscapeText(text) + "<" + rest, '<')
         == Before('\n', ReadText(EscapeText(if |text| > 1 && text[1] == '\n' then text[2..] else text[1..])
                                  + "<" + rest, '<'))
  {
    hide ReadText, Before, EscapeText;
    var more := text[1..];
    var left := EscapeText(more) + ("<" + rest);
    EscapeSplits(text, "<" + rest);
    Cat3(EscapeText(text), "<", rest);
    Cat3(EscapeText(more), "<", rest);
    ReturnStep(EscapeText(text) + "<" + rest, left);
    if more == "" {
      assert EscapeText(more) == "" by { NothingEscaped(); }
      assert left[0] == '<';
    } else {
      EscapeSplits(more, "<" + rest);
      assert left[0] == EscapeChar(more[0])[0];
      if more[0] == '\n' {
        assert more[1..] == text[2..];
        Cat3(EscapeText(text[2..]), "<", rest);
        assert left[1..] == EscapeText(text[2..]) + ("<" + rest);
      }
    }
  }

  lemma NothingEscaped()
    ensures EscapeText("") == ""
  {
  }

  /** An attribute value comes back exactly, whatever white space and quotes it holds. */
  lemma {:induction false} ValueRead(value: string, quoted: bool, quote: char, rest: string)
    requires Legal(value) && (quote == '"' || quote == '\'')
    requires quote in value ==> quoted && quote == '"'
    ensures ReadValue(AttributeText(value, quoted) + [quote] + rest, quote) == Some((value, rest))
  {
    hide Reference, SplitAt;
    var s := AttributeText(value, quoted) + [quote] + rest;
    if value == "" {
      assert s[0] == quote && s[1..] == rest;
    } else {
      var c, more := value[0], value[1..];
      var left := AttributeText(more, quoted) + [quote] + rest;
      assert s == AttributeChar(c, quoted) + left;
      assert value == [c] + more;
      ReferenceRead(c, quoted);
      ValueRead(more, quoted, quote, rest);
      if AttributeReference(c, quoted).Some? {
        ReferenceInText(AttributeReference(c, quoted).value, c, left);
      } else {
        assert s[0] == c && s[1..] == left;
        assert c in value && (c == ' ' || !Space(c));
      }
    }
  }

  // --------------------------------------------------------- names and tags

  predicate ValidName(name: string) {
    name != "" && NameStart(name[0]) && forall i :: 0 <= i < |name| ==> NameChar(name[i])
  }

  lemma {:induction false} NamePartRead(name: string, rest: string)
    requires forall i :: 0 <= i < |name| ==> NameChar(name[i])
    requires rest != "" && !NameChar(rest[0])
    ensures NamePart(name + rest) == (name, rest)
  {
    if name == "" {
      assert name + rest == rest;
    } else {
      assert (name + rest)[1..] == name[1..] + rest && [name[0]] + name[1..] == name;
      NamePartRead(name[1..], rest);
    }
  }

  lemma NameRead(name: string, rest: string)
    requires ValidName(name) && rest != "" && !NameChar(rest[0])
    ensures ReadName(name + rest) == Some((name, rest))
  {
    NamePartRead(name, rest);
    assert (name + rest)[0] == name[0];
  }

  lemma QuotedRead(value: string, rest: string)
    requires Legal(value)
    ensures var s := QuoteAttribute(value) + rest;
            s != "" && (s[0] == '"' || s[0] == '\'') && ReadValue(s[1..], s[0]) == Some((value, rest))
  {
    hide ReadValue, AttributeText;
    var s := QuoteAttribute(value) + rest;
    var quote := if '"' in value && '\'' !in value then '\'' else '"';
    var quoted := '"' in value && '\'' in value;
    assert QuoteAttribute(value) == [quote] + AttributeText(value, quoted) + [quote];
    assert s[1..] == AttributeText(value, quoted) + [quote] + rest;
    ValueRead(value, quoted, quote, rest);
  }

  lemma AttributeRead(attribute: Attribute, rest: string)
    requires ValidName(attribute.0) && Legal(attribute.1)
    ensures ReadAttribute(attribute.0 + "=" + QuoteAttribute(attribute.1) + rest) == Some((attribute, rest))
  {
    hide QuoteAttribute, ReadValue;
    var quoted := QuoteAttribute(attribute.1) + rest;
    var s := attribute.0 + "=" + QuoteAttribute(attribute.1) + rest;
    assert s == attribute.0 + ("=" + quoted) && ("=" + quoted)[1..] == quoted;
    NameRead(attribute.0, "=" + quoted);
    QuotedRead(attribute.1, rest);
  }

  function NamesOf(attributes: seq<Attribute>): set<string> {
    set a | a in attributes :: a.0
  }

  predicate DistinctNames(attributes: seq<Attribute>) {
    forall i, j :: 0 <= i < j < |attributes| ==> attributes[i].0 != attributes[j].0
  }

  predicate ValidAttributes(attributes: seq<Attribute>) {
    && DistinctNames(attributes)
    && forall i :: 0 <= i < |attributes| ==> ValidName(attributes[i].0) && Legal(attributes[i].1)
  }

  lemma AttributesStep(s: string, inner: string, names: set<string>, attribute: Attribute, after: string)
    requires s == " " + inner && inner != "" && NameStart(inner[0])
    requires ReadAttribute(inner) == Some((attribute, after)) && attribute.0 !in names
    ensures ReadAttributes(s, names) == match ReadAttributes(after, names + {attribute.0})
      case None => None
      case Some((more, end)) => Some(([attribute] + more, end))
  {
    hide ReadAttribute;
    assert s[0] == ' ' && s[1..] == inner;
    assert SkipSpace(inner) == inner;
    assert SkipSpace(s) == inner;
  }

  lemma {:induction false} AttributesRead(attributes: seq<Attribute>, names: set<string>, rest: string)
    requires ValidAttributes(attributes) && NamesOf(attributes) !! names
    requires rest != "" && (rest[0] == '/' || rest[0] == '>')
    ensures ReadAttributes(RenderAttributes(attributes) + rest, names) == Some((attributes, rest))
  {
    hide ReadAttribute, QuoteAttribute, ValidName, Legal, NamesOf, DistinctNames;
    if attributes == [] {
      assert RenderAttributes(attributes) + rest == rest;
    } else {
      hide ReadAttributes, NameStart;
      var first, more := attributes[0], attributes[1..];
      var left := RenderAttributes(more) + rest;
      var inner := first.0 + "=" + QuoteAttribute(first.1) + left;
      assert RenderAttributes(attributes) + rest == " " + inner;
      assert ValidName(first.0) && NameStart(inner[0]) by { NameFirst(first.0, inner); }
      AttributeRead(first, left);
      MoreNames(attributes, names);
      AttributesStep(" " + inner, inner, names, first, left);
      AttributesRead(more, names + {first.0}, rest);
      assert [first] + more == attributes;
    }
  }

  lemma NameFirst(name: string, s: string)
    requires ValidName(name) && name <= s
    ensures s != "" && NameStart(s[0])
  {
  }

  lemma MoreNames(attributes: seq<Attribute>, names: set<string>)
    requires attributes != [] && ValidAttributes(attributes) && NamesOf(attributes) !! names
    ensures attributes[0].0 !in names && ValidAttributes(attributes[1..])
    ensures NamesOf(attributes[1..]) !! names + {attributes[0].0}
  {
  }

  lemma EndRead(name: string, rest: string)
    requires ValidName(name)
    ensures ReadEnd("</" + name + ">" + rest, name) == Some(rest)
  {
    var s := "</" + name + ">" + rest;
    assert s[2..] == name + (">" + rest);
    NameRead(name, ">" + rest);
    assert (">" + rest)[1..] == rest;
  }

  lemma {:induction false} PadSkipped(depth: nat, s: string)
    requires s == "" || !Space(s[0])
    ensures SkipSpace(Pad(depth) + s) == s
  {
    if depth == 0 {
      assert Pad(depth) + s == s;
    } else {
      var t := Pad(depth) + s;
      assert t[0] == ' ' && t[1] == ' ' && t[1..][1..] == Pad(depth - 1) + s;
      PadSkipped(depth - 1, s);
    }
  }
}
