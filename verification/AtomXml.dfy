/**
 Writing an Atom document by hand and reading it back. The reader is a small XML
 processor of its own: references, attribute-value normalization, line-end
 normalization, element content; it knows nothing of how the writer quotes or indents.
 */
module AtomXml {
  import opened Common
  import opened Naming

  type Attribute = (string, string)

  /** One element of the document; the writer ignores `text` when there are children. */
  datatype Element = Element(name: string, attributes: seq<Attribute>, text: Option<string>,
                             children: seq<Element>)

  // ----------------------------------------------------------------- writer

  function EscapeChar(c: char): string {
    if c == '&' then "&amp;" else if c == '<' then "&lt;" else if c == '>' then "&gt;" else [c]
  }

  function EscapeText(s: string): string {
    if s == "" then "" else EscapeChar(s[0]) + EscapeText(s[1..])
  }

  /** In an attribute the white space a reader would normalize is written as references. */
  function AttributeChar(c: char, quoted: bool): string {
    if c == '\n' then "&#10;" else if c == '\r' then "&#13;" else if c == '\t' then "&#9;"
    else if quoted && c == '"' then "&quot;" else EscapeChar(c)
  }

  function AttributeText(s: string, quoted: bool): string {
    if s == "" then "" else AttributeChar(s[0], quoted) + AttributeText(s[1..], quoted)
  }

  /** Quotes in whichever quotation mark the value does not hold; if it holds both, by reference. */
  function QuoteAttribute(s: string): string {
    if '"' in s then
      if '\'' in s then "\"" + AttributeText(s, true) + "\"" else "'" + AttributeText(s, false) + "'"
    else "\"" + AttributeText(s, false) + "\""
  }

  function RenderAttributes(attributes: seq<Attribute>): string {
    if attributes == [] then ""
    else " " + attributes[0].0 + "=" + QuoteAttribute(attributes[0].1) + RenderAttributes(attributes[1..])
  }

  function Pad(depth: nat): string {
    if depth == 0 then "" else "  " + Pad(depth - 1)
  }

  function Render(e: Element, depth: nat): string
    decreases e, 1
  {
    var open := Pad(depth) + "<" + e.name + RenderAttributes(e.attributes);
    if e.children != [] then
      open + ">\n" + RenderAll(e.children, depth + 1) + "\n" + Pad(depth) + "</" + e.name + ">"
    else match e.text
      case None => open + "/>"
      case Some(text) => open + ">" + EscapeText(text) + "</" + e.name + ">"
  }

  /** The elements one below the other. */
  function RenderAll(elements: seq<Element>, depth: nat): string
    decreases elements, 0
  {
    if elements == [] then ""
    else if |elements| == 1 then Render(elements[0], depth)
    else Render(elements[0], depth) + "\n" + RenderAll(elements[1..], depth)
  }

  const PROLOG := "<?xml version=\"1.0\" encoding=\"UTF-8\"?>"

  function RenderDocument(root: Element): string {
    PROLOG + "\n" + Render(root, 0) + "\n"
  }

  // ----------------------------------------------------------------- reader

  /** The characters a document may hold (section 2.2 of XML 1.0). */
  predicate LegalChar(c: char) {
    c == '\t' || c == '\n' || c == '\r' || (' ' <= c && c != '\U{FFFE}' && c != '\U{FFFF}')
  }

  predicate Space(c: char) {
    c == ' ' || c == '\t' || c == '\n' || c == '\r'
  }

  /** Names, with every character outside ASCII allowed (section 2.3). */
  predicate NameStart(c: char) {
    'a' <= c <= 'z' || 'A' <= c <= 'Z' || c == ':' || c == '_' || c >= '\U{80}'
  }

  predicate NameChar(c: char) {
    NameStart(c) || '0' <= c <= '9' || c == '-' || c == '.'
  }

  function SkipSpace(s: string): (rest: string)
    ensures |rest| <= |s|
  {
    if s != "" && Space(s[0]) then SkipSpace(s[1..]) else s
  }

  /** The longest name at the start of `s`, and what follows. */
  function NamePart(s: string): (r: (string, string))
    ensures |r.0| + |r.1| == |s|
  {
    if s != "" && NameChar(s[0]) then
      var (name, rest) := NamePart(s[1..]);
      ([s[0]] + name, rest)
    else ("", s)
  }

  function ReadName(s: string): (r: Option<(string, string)>)
    ensures r.Some? ==> |r.value.1| < |s|
  {
    if s != "" && NameStart(s[0]) then Some(NamePart(s)) else None
  }

  /** What comes before and after the first `mark`. */
  function SplitAt(s: string, mark: char): (r: Option<(string, string)>)
    ensures r.Some? ==> |r.value.1| < |s|
  {
    if s == "" then None
    else if s[0] == mark then Some(("", s[1..]))
    else match SplitAt(s[1..], mark)
         case None => None
         case Some((before, after)) => Some(([s[0]] + before, after))
  }

  /** A predefined entity or a decimal character reference (sections 4.1 and 4.6). */
  function Reference(name: string): Option<char> {
    if name == "amp" then Some('&')
    else if name == "lt" then Some('<')
    else if name == "gt" then Some('>')
    else if name == "quot" then Some('"')
    else if name == "apos" then Some('\'')
    else if |name| > 1 && name[0] == '#' then
      match DecimalValue(name[1..])
      case Some(n) =>
        if (n < 0xD800 || 0xE000 <= n < 0x11_0000) && LegalChar(n as char) then Some(n as char) else None
      case None => None
    else None
  }

  function Before(c: char, r: Option<(string, string)>): Option<(string, string)> {
    match r case None => None case Some((s, rest)) => Some(([c] + s, rest))
  }

  /** Character data up to `stop`: references resolved, line ends made newlines (section 2.11). */
  function ReadText(s: string, stop: char): (r: Option<(string, string)>)
    ensures r.Some? ==> |r.value.1| <= |s|
    decreases |s|
  {
    if s == "" then None
    else if s[0] == stop then Some(("", s))
    else if s[0] == '&' then (
      match SplitAt(s[1..], ';')
      case None => None
      case Some((name, rest)) =>
        match Reference(name)
        case None => None
        case Some(c) => Before(c, ReadText(rest, stop)))
    else if s[0] == '\r' then
      Before('\n', ReadText(if |s| > 1 && s[1] == '\n' then s[2..] else s[1..], stop))
    else if !LegalChar(s[0]) then None
    else Before(s[0], ReadText(s[1..], stop))
  }

  /** An attribute value up to its quotation mark: literal white space is a space (section 3.3.3). */
  function ReadValue(s: string, quote: char): (r: Option<(string, string)>)
    ensures r.Some? ==> |r.value.1| < |s|
    decreases |s|
  {
    if s == "" then None
    else if s[0] == quote then Some(("", s[1..]))
    else if s[0] == '<' then None
    else if s[0] == '&' then (
      match SplitAt(s[1..], ';')
      case None => None
      case Some((name, rest)) =>
        match Reference(name)
        case None => None
        case Some(c) => Before(c, ReadValue(rest, quote)))
    else if !LegalChar(s[0]) then None
    else Before(if Space(s[0]) then ' ' else s[0], ReadValue(s[1..], quote))
  }

  function ReadAttribute(s: string): (r: Option<(Attribute, string)>)
    ensures r.Some? ==> |r.value.1| < |s|
  {
    match ReadName(s)
    case None => None
    case Some((name, rest)) =>
      var equals := SkipSpace(rest);
      if equals == "" || equals[0] != '=' then None
      else
        var quoted := SkipSpace(equals[1..]);
        if quoted == "" || (quoted[0] != '"' && quoted[0] != '\'') then None
        else match ReadValue(quoted[1..], quoted[0])
          case None => None
          case Some((value, after)) => Some(((name, value), after))
  }

  /** Attributes up to the `/` or `>` of the tag; no name may come twice. */
  function ReadAttributes(s: string, names: set<string>): (r: Option<(seq<Attribute>, string)>)
    ensures r.Some? ==> 0 < |r.value.1| <= |s| && (r.value.1[0] == '/' || r.value.1[0] == '>')
    decreases |s|
  {
    var rest := SkipSpace(s);
    if rest == "" then None
    else if rest[0] == '/' || rest[0] == '>' then Some(([], rest))
    else if |rest| == |s| then None
    else match ReadAttribute(rest)
      case None => None
      case Some((attribute, after)) =>
        if attribute.0 in names then None
        else match ReadAttributes(after, names + {attribute.0})
          case None => None
          case Some((more, end)) => Some(([attribute] + more, end))
  }

  /** Just past `</name>`. */
  function ReadEnd(s: string, name: string): (r: Option<string>)
    ensures r.Some? ==> |r.value| < |s|
  {
    if |s| < 2 || s[0] != '<' || s[1] != '/' then None
    else match ReadName(s[2..])
      case None => None
      case Some((found, rest)) =>
        var end := SkipSpace(rest);
        if found == name && end != "" && end[0] == '>' then Some(end[1..]) else None
  }

  function ReadElement(s: string): (r: Option<(Element, string)>)
    ensures r.Some? ==> |r.value.1| < |s|
    decreases |s|, 0
  {
    if s == "" || s[0] != '<' then None
    else match ReadName(s[1..])
      case None => None
      case Some((name, rest)) =>
        match ReadAttributes(rest, {})
        case None => None
        case Some((attributes, end)) =>
          if end[0] == '/' then
            if |end| > 1 && end[1] == '>' then Some((Element(name, attributes, None, []), end[2..])) else None
          else
            ReadContent(name, attributes, end[1..])
  }

  /** Either elements with nothing but white space around them, or text; then the end tag. */
  function ReadContent(name: string, attributes: seq<Attribute>, s: string): (r: Option<(Element, string)>)
    ensures r.Some? ==> |r.value.1| < |s|
    decreases |s|, 2
  {
    var inner := SkipSpace(s);
    if |inner| > 1 && inner[0] == '<' && inner[1] != '/' then
      match ReadChildren(inner)
      case None => None
      case Some((children, rest)) =>
        match ReadEnd(rest, name)
        case None => None
        case Some(after) => Some((Element(name, attributes, None, children), after))
    else
      match ReadText(s, '<')
      case None => None
      case Some((text, rest)) =>
        match ReadEnd(rest, name)
        case None => None
        case Some(after) => Some((Element(name, attributes, Some(text), []), after))
  }

  /** One element or more, up to the next `</`. */
  function ReadChildren(s: string): (r: Option<(seq<Element>, string)>)
    ensures r.Some? ==> |r.value.1| < |s|
    decreases |s|, 1
  {
    match ReadElement(s)
    case None => None
    case Some((first, rest)) =>
      var next := SkipSpace(rest);
      if |next| > 1 && next[0] == '<' && next[1] == '/' then Some(([first], next))
      else match ReadChildren(next)
        case None => None
        case Some((more, end)) => Some(([first] + more, end))
  }

  function ReadDocument(s: string): Option<Element> {
    if !(PROLOG <= s) then None
    else match ReadElement(SkipSpace(s[|PROLOG|..]))
      case None => None
      case Some((root, rest)) => if SkipSpace(rest) == "" then Some(root) else None
  }
}
