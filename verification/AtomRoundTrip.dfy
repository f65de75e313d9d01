/**
 Reading back what the writer makes of an element, at any depth, and of a document.
 */
module AtomRoundTrip {
  import opened Common
  import opened AtomXml
  import opened AtomText

  // --------------------------------------------------------------- elements

  /** Element trees the writer can put into a document. */
  predicate WellFormed(e: Element)
    decreases e
  {
    && ValidName(e.name) && ValidAttributes(e.attributes)
    && (e.text.Some? ==> Legal(e.text.value) && e.children == [])
    && forall c :: c in e.children ==> WellFormed(c)
  }

  /** The tree with every text as a reader's line ends leave it. */
  function WithLineEnds(e: Element): Element
    decreases e, 1
  {
    Element(e.name, e.attributes,
            match e.text case None => None case Some(text) => Some(LineEnds(text)),
            AllWithLineEnds(e.children))
  }

  function AllWithLineEnds(elements: seq<Element>): seq<Element>
    decreases elements, 0
  {
    if elements == [] then [] else [WithLineEnds(elements[0])] + AllWithLineEnds(elements[1..])
  }

  /** The part of a rendering after the indentation. */
  function Body(e: Element, depth: nat): string {
    "<" + e.name + RenderAttributes(e.attributes) +
    if e.children != [] then ">\n" + RenderAll(e.children, depth + 1) + "\n" + Pad(depth) + "</" + e.name + ">"
    else match e.text
      case None => "/>"
      case Some(text) => ">" + EscapeText(text) + "</" + e.name + ">"
  }

  lemma RenderIsPadded(e: Element, depth: nat)
    ensures Render(e, depth) == Pad(depth) + Body(e, depth)
  {
    hide Pad, RenderAttributes, RenderAll, EscapeText;
  }

  lemma BodyStarts(e: Element, depth: nat, rest: string)
    requires ValidName(e.name)
    ensures var s := Body(e, depth) + rest; |s| > 1 && s[0] == '<' && s[1] == e.name[0] && NameStart(s[1])
  {
  }

  /** A line break and indentation, skipped. */
  lemma BreakSkipped(depth: nat, s: string)
    requires s != "" && !Space(s[0])
    ensures SkipSpace("\n" + Pad(depth) + s) == s
  {
    var t := "\n" + Pad(depth) + s;
    assert t[0] == '\n' && t[1..] == Pad(depth) + s;
    hide Pad;
    PadSkipped(depth, s);
  }

  /** What follows one of several rendered elements: the others, then `end`. */
  function Following(elements: seq<Element>, depth: nat, end: string): string {
    if elements == [] then end else "\n" + RenderAll(elements, depth) + end
  }

  lemma RenderAllSplits(elements: seq<Element>, depth: nat, end: string)
    requires elements != []
    ensures RenderAll(elements, depth) + end
         == Pad(depth) + (Body(elements[0], depth) + Following(elements[1..], depth, end))
  {
    hide Pad, Body, Render;
    RenderIsPadded(elements[0], depth);
    var p, b := Pad(depth), Body(elements[0], depth);
    if |elements| > 1 {
      var more := RenderAll(elements[1..], depth);
      assert RenderAll(elements, depth) == p + b + "\n" + more;
      hide RenderAll;
      Cat4(p, b, "\n", more);
      Cat3(p, b + ("\n" + more), end);
      Cat3(b, "\n" + more, end);
    } else {
      assert elements[1..] == [];
      assert RenderAll(elements, depth) == p + b;
      Cat3(p, b, end);
    }
  }

  /** Past the tag: attributes read, and what remains starts with `close`. */
  lemma TagRead(e: Element, close: string)
    requires ValidName(e.name) && ValidAttributes(e.attributes)
    requires close != "" && (close[0] == '/' || close[0] == '>')
    ensures var s := e.name + RenderAttributes(e.attributes) + close;
            ReadName(s) == Some((e.name, RenderAttributes(e.attributes) + close))
    ensures ReadAttributes(RenderAttributes(e.attributes) + close, {}) == Some((e.attributes, close))
  {
    hide ReadAttributes;
    var rest := RenderAttributes(e.attributes) + close;
    assert e.name + RenderAttributes(e.attributes) + close == e.name + rest;
    assert rest != "" && !NameChar(rest[0]) by { AttributesStart(e.attributes, close); }
    NameRead(e.name, rest);
    AttributesRead(e.attributes, {}, close);
  }

  lemma AttributesStart(attributes: seq<Attribute>, close: string)
    requires close != "" && (close[0] == '/' || close[0] == '>')
    ensures var s := RenderAttributes(attributes) + close; s != "" && !NameChar(s[0])
  {
  }

  lemma EmptyRead(e: Element, depth: nat, rest: string)
    requires WellFormed(e) && e.children == [] && e.text == None
    ensures ReadElement(Body(e, depth) + rest) == Some((e, rest))
  {
    hide RenderAttributes, ReadAttributes, ReadName, ValidAttributes;
    var s := Body(e, depth) + rest;
    assert s[1..] == e.name + RenderAttributes(e.attributes) + ("/>" + rest);
    TagRead(e, "/>" + rest);
    assert ("/>" + rest)[2..] == rest;
  }

  lemma TextElementRead(e: Element, depth: nat, rest: string)
    requires WellFormed(e) && e.children == [] && e.text.Some?
    ensures ReadElement(Body(e, depth) + rest)
         == Some((Element(e.name, e.attributes, Some(LineEnds(e.text.value)), []), rest))
  {
    hide RenderAttributes, ReadAttributes, ReadName, ValidAttributes, ReadContent, EscapeText;
    var text := e.text.value;
    var s, content := Body(e, depth) + rest, EscapeText(text) + "</" + e.name + ">" + rest;
    assert s[1..] == e.name + RenderAttributes(e.attributes) + (">" + content);
    TagRead(e, ">" + content);
    assert (">" + content)[1..] == content;
    TextContentRead(e.name, e.attributes, text, rest);
  }

  lemma TextContentRead(name: string, attributes: seq<Attribute>, text: string, rest: string)
    requires ValidName(name) && Legal(text)
    ensures ReadContent(name, attributes, EscapeText(text) + "</" + name + ">" + rest)
         == Some((Element(name, attributes, Some(LineEnds(text)), []), rest))
  {
    hide EscapeText, ReadText, ReadEnd, ValidName, Legal, ReadChildren;
    var s, end := EscapeText(text) + "</" + name + ">" + rest, "/" + name + ">" + rest;
    assert s == EscapeText(text) + "<" + end;
    NotChildren(text, end);
    TextRead(text, end);
    assert "<" + end == "</" + name + ">" + rest;
    EndRead(name, rest);
  }

  /** Text never looks like the start of a child element. */
  lemma {:induction false} NotChildren(text: string, end: string)
    requires end != "" && end[0] == '/'
    ensures var inner := SkipSpace(EscapeText(text) + "<" + end);
            !(|inner| > 1 && inner[0] == '<' && inner[1] != '/')
  {
    var s := EscapeText(text) + "<" + end;
    if text == "" {
      assert s == "<" + end;
    } else {
      var left := EscapeText(text[1..]) + "<" + end;
      assert s == EscapeChar(text[0]) + left;
      if Space(text[0]) {
        assert s[0] == text[0] && s[1..] == left;
        NotChildren(text[1..], end);
      } else {
        assert s[0] == EscapeChar(text[0])[0];
      }
    }
  }

  /** The children of an element, read up to its end tag. */
  lemma {:induction false} ChildrenRead(elements: seq<Element>, depth: nat, outer: nat, end: string)
    requires elements != [] && forall c :: c in elements ==> WellFormed(c)
    requires |end| > 1 && end[0] == '<' && end[1] == '/'
    ensures ReadChildren(Body(elements[0], depth) + Following(elements[1..], depth, "\n" + Pad(outer) + end))
         == Some((AllWithLineEnds(elements), end))
    decreases elements, 0
  {
    hide Pad, Body, ReadElement, RenderAll, WithLineEnds, WellFormed;
    var after := "\n" + Pad(outer) + end;
    var rest := Following(elements[1..], depth, after);
    ElementRead(elements[0], depth, rest);
    if |elements| == 1 {
      BreakSkipped(outer, end);
      assert elements[1..] == [];
      assert AllWithLineEnds(elements) == [WithLineEnds(elements[0])];
    } else {
      var more := elements[1..];
      var next := Body(more[0], depth) + Following(more[1..], depth, after);
      RenderAllSplits(more, depth, after);
      Cat3("\n", RenderAll(more, depth), after);
      Cat3("\n", Pad(depth), next);
      assert ValidName(more[0].name) by { assert more[0] in elements; NamedWell(more[0]); }
      BodyStarts(more[0], depth, Following(more[1..], depth, after));
      BreakSkipped(depth, next);
      ChildrenRead(more, depth, outer, end);
    }
  }

  lemma NamedWell(e: Element)
    requires WellFormed(e)
    ensures ValidName(e.name)
  {
  }

  lemma ParentRead(e: Element, depth: nat, rest: string, inner: string)
    requires WellFormed(e) && e.children != []
    requires inner == Body(e.children[0], depth + 1)
      + Following(e.children[1..], depth + 1, "\n" + Pad(depth) + ("</" + e.name + ">" + rest))
    requires ReadChildren(inner) == Some((AllWithLineEnds(e.children), "</" + e.name + ">" + rest))
    ensures ReadElement(Body(e, depth) + rest) == Some((WithLineEnds(e), rest))
  {
    hide Pad, RenderAttributes, ReadAttributes, ReadName, ReadContent, RenderAll, ValidAttributes, ValidName;
    var end := "\n" + Pad(depth) + ("</" + e.name + ">" + rest);
    var content := "\n" + RenderAll(e.children, depth + 1) + end;
    var s := Body(e, depth) + rest;
    ParentBody(e, depth, rest);
    assert s[0] == '<' && s[1..] == e.name + RenderAttributes(e.attributes) + (">" + content);
    TagRead(e, ">" + content);
    assert (">" + content)[1..] == content;
    ParentContent(e, depth, rest, inner, end);
  }

  lemma ParentContent(e: Element, depth: nat, rest: string, inner: string, end: string)
    requires WellFormed(e) && e.children != []
    requires end == "\n" + Pad(depth) + ("</" + e.name + ">" + rest)
    requires inner == Body(e.children[0], depth + 1) + Following(e.children[1..], depth + 1, end)
    requires ReadChildren(inner) == Some((AllWithLineEnds(e.children), "</" + e.name + ">" + rest))
    ensures ReadContent(e.name, e.attributes, "\n" + RenderAll(e.children, depth + 1) + end)
         == Some((WithLineEnds(e), rest))
  {
    hide Pad, Body, RenderAll, Following, ReadChildren, ReadEnd, ReadText, ValidAttributes, ValidName;
    RenderAllSplits(e.children, depth + 1, end);
    Cat3("\n", RenderAll(e.children, depth + 1), end);
    Cat3("\n", Pad(depth + 1), inner);
    var first := e.children[0];
    NamedWell(first);
    BodyStarts(first, depth + 1, Following(e.children[1..], depth + 1, end));
    BreakSkipped(depth + 1, inner);
    EndRead(e.name, rest);
  }

  lemma ParentBody(e: Element, depth: nat, rest: string)
    requires e.children != []
    ensures var s := Body(e, depth) + rest;
            && s != "" && s[0] == '<'
            && s[1..] == e.name + RenderAttributes(e.attributes)
               + (">" + ("\n" + RenderAll(e.children, depth + 1) + ("\n" + Pad(depth) + ("</" + e.name + ">" + rest))))
  {
    hide Pad, RenderAttributes, RenderAll;
  }

  lemma {:induction false} ElementRead(e: Element, depth: nat, rest: string)
    requires WellFormed(e)
    ensures ReadElement(Body(e, depth) + rest) == Some((WithLineEnds(e), rest))
    decreases e, 1
  {
    hide Pad, Body, ReadElement, ReadChildren, RenderAll, ValidName, ValidAttributes;
    if e.children != [] {
      var end := "</" + e.name + ">" + rest;
      var inner := Body(e.children[0], depth + 1)
        + Following(e.children[1..], depth + 1, "\n" + Pad(depth) + end);
      ChildrenRead(e.children, depth + 1, depth, end);
      ParentRead(e, depth, rest, inner);
    } else if e.text.None? {
      EmptyRead(e, depth, rest);
      assert AllWithLineEnds([]) == [];
    } else {
      TextElementRead(e, depth, rest);
      assert AllWithLineEnds([]) == [];
    }
  }

  // --------------------------------------------------------------- theorems

  /** No text holds a carriage return, the one character the writer leaves to be normalized. */
  predicate NoReturns(e: Element)
    decreases e
  {
    && (e.text.Some? ==> '\r' !in e.text.value)
    && forall c :: c in e.children ==> NoReturns(c)
  }

  lemma {:induction false} LineEndsKept(s: string)
    ensures LineEnds(s) == s <==> '\r' !in s
    ensures '\r' !in LineEnds(s)
    decreases |s|
  {
    if s != "" {
      if s[0] == '\r' {
        LineEndsKept(if |s| > 1 && s[1] == '\n' then s[2..] else s[1..]);
      } else {
        LineEndsKept(s[1..]);
        assert s == [s[0]] + s[1..];
      }
    }
  }

  lemma {:induction false} WithLineEndsKept(e: Element)
    ensures WithLineEnds(e) == e <==> NoReturns(e)
    decreases e, 1
  {
    if e.text.Some? {
      LineEndsKept(e.text.value);
    }
    AllWithLineEndsKept(e.children);
  }

  lemma {:induction false} AllWithLineEndsKept(elements: seq<Element>)
    ensures AllWithLineEnds(elements) == elements <==> forall c :: c in elements ==> NoReturns(c)
    decreases elements, 0
  {
    hide NoReturns, WithLineEnds;
    if elements != [] {
      WithLineEndsKept(elements[0]);
      AllWithLineEndsKept(elements[1..]);
      assert elements == [elements[0]] + elements[1..];
      assert forall c :: c in elements <==> c == elements[0] || c in elements[1..];
      assert AllWithLineEnds(elements) == elements ==>
        AllWithLineEnds(elements)[0] == elements[0] && AllWithLineEnds(elements)[1..] == elements[1..];
    }
  }

  /**
   Reading what was written, at any depth and whatever follows, gives back the tree with
   its line ends normalized; so it is the tree itself exactly when no text holds a return.
   */
  lemma RenderReadsBack(e: Element, depth: nat, rest: string)
    requires WellFormed(e)
    ensures ReadElement(SkipSpace(Render(e, depth) + rest)) == Some((WithLineEnds(e), rest))
    ensures ReadElement(SkipSpace(Render(e, depth) + rest)) == Some((e, rest)) <==> NoReturns(e)
  {
    hide Body, Pad, ReadElement, RenderAll;
    RenderIsPadded(e, depth);
    assert Render(e, depth) + rest == Pad(depth) + (Body(e, depth) + rest);
    NamedWell(e);
    BodyStarts(e, depth, rest);
    PadSkipped(depth, Body(e, depth) + rest);
    ElementRead(e, depth, rest);
    WithLineEndsKept(e);
  }

  /** The same for a whole document. */
  lemma DocumentReadsBack(root: Element)
    requires WellFormed(root)
    ensures ReadDocument(RenderDocument(root)) == Some(WithLineEnds(root))
    ensures ReadDocument(RenderDocument(root)) == Some(root) <==> NoReturns(root)
  {
    hide Body, Pad, ReadElement, RenderAll, Render;
    var s := RenderDocument(root);
    var after := Render(root, 0) + "\n";
    assert s == PROLOG + ("\n" + after);
    assert s[|PROLOG|..] == "\n" + after;
    assert ("\n" + after)[0] == '\n' && ("\n" + after)[1..] == after;
    RenderReadsBack(root, 0, "\n");
    assert SkipSpace("\n") == "" by { assert "\n"[1..] == ""; }
    WithLineEndsKept(root);
  }

  /** A return in a text is not read back: the document written for it reads as another. */
  lemma ReturnIsLost()
    ensures var e := Element("a", [], Some("\r"), []);
            && WellFormed(e)
            && ReadDocument(RenderDocument(e)) == Some(Element("a", [], Some("\n"), [])) != Some(e)
  {
    var e := Element("a", [], Some("\r"), []);
    assert NameStart('a') && Legal("\r");
    assert LineEnds("\r") == "\n" by { assert "\r"[1..] == ""; }
    DocumentReadsBack(e);
  }
}
