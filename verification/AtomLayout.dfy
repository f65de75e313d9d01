/**
 What the Atom writer writes, to the character: which quotation marks, which references,
 and where the elements stand.
 */
module AtomLayout {
  import opened Common
  import opened AtomXml

  lemma EscapeStep(c: char, rest: string)
    ensures EscapeText([c] + rest) == EscapeChar(c) + EscapeText(rest)
    ensures forall quoted :: AttributeText([c] + rest, quoted) == AttributeChar(c, quoted) + AttributeText(rest, quoted)
  {
    assert ([c] + rest)[1..] == rest;
  }

  /** Which quotation marks a value gets: those it does not hold, double ones if it holds both or neither. */
  lemma QuotedSo()
    ensures QuoteAttribute("\"&") == "'\"&amp;'" && QuoteAttribute("'") == "\"'\""
    ensures QuoteAttribute("'\"") == "\"'&quot;\""
  {
    hide QuoteAttribute;
    HoldsDouble();
    HoldsSingle();
  }

  lemma HoldsDouble()
    ensures QuoteAttribute("\"&") == "'\"&amp;'"
  {
    hide EscapeText, AttributeText;
    EmptyText();
    assert "\"&" == ['"'] + (['&'] + "");
    EscapeStep('&', "");
    EscapeStep('"', ['&'] + "");
  }

  lemma HoldsSingle()
    ensures QuoteAttribute("'") == "\"'\"" && QuoteAttribute("'\"") == "\"'&quot;\""
  {
    hide EscapeText, AttributeText;
    EmptyText();
    assert "'" == ['\''] + "" && "'\"" == ['\''] + (['"'] + "");
    EscapeStep('\'', "");
    EscapeStep('"', "");
    EscapeStep('\'', ['"'] + "");
  }

  lemma EmptyText()
    ensures EscapeText("") == "" && forall quoted :: AttributeText("", quoted) == ""
  {
  }

  /** White space that a reader would change is written by number in an attribute. */
  lemma WrittenByReference()
    ensures forall quoted :: AttributeText("\n\t\r", quoted) == "&#10;&#9;&#13;"
  {
    hide EscapeText, AttributeText;
    EmptyText();
    assert "\n\t\r" == ['\n'] + (['\t'] + (['\r'] + ""));
    EscapeStep('\r', "");
    EscapeStep('\t', ['\r'] + "");
    EscapeStep('\n', ['\t'] + (['\r'] + ""));
  }

  /** In text only markup is escaped. */
  lemma EscapedMarkup()
    ensures EscapeText("<&>\"") == "&lt;&amp;&gt;\""
  {
    hide EscapeText;
    EmptyText();
    assert "<&>\"" == ['<'] + (['&'] + (['>'] + (['"'] + "")));
    EscapeStep('"', "");
    EscapeStep('>', ['"'] + "");
    EscapeStep('&', ['>'] + (['"'] + ""));
    EscapeStep('<', ['&'] + (['>'] + (['"'] + "")));
  }

  /** Children stand on lines of their own, two columns in; text stays on its element's line. */
  lemma LaidOutSo(title: string, value: string)
    ensures Render(Element("feed", [("a", value)], None, Inside(title)), 0)
         == "<feed" + (" " + "a" + "=" + QuoteAttribute(value) + "") + ">\n"
            + (("  " + "<title>" + EscapeText(title) + "</title>") + "\n"
               + ("  " + "<author>\n" + ("    " + "<name/>") + "\n" + "  " + "</author>"))
            + "\n" + "</feed>"
  {
    hide QuoteAttribute, EscapeText, RenderAll;
    InsideSo(title);
    assert [("a", value)][1..] == [];
    assert RenderAttributes([("a", value)]) == " " + "a" + "=" + QuoteAttribute(value) + "";
    assert Pad(0) == "" && "" + "<" + "feed" == "<feed";
  }

  function Inside(title: string): (children: seq<Element>)
    ensures children != []
  {
    [Element("title", [], Some(title), []), Element("author", [], None, [Element("name", [], None, [])])]
  }

  lemma InsideSo(title: string)
    ensures RenderAll(Inside(title), 1)
         == ("  " + "<title>" + EscapeText(title) + "</title>") + "\n"
            + ("  " + "<author>\n" + ("    " + "<name/>") + "\n" + "  " + "</author>")
  {
    hide EscapeText, Render;
    var titled, author := Inside(title)[0], Inside(title)[1];
    TitleSo(titled);
    AuthorSo(author);
    assert [titled, author][1..] == [author];
  }

  lemma TitleSo(e: Element)
    requires e.name == "title" && e.attributes == [] && e.children == [] && e.text.Some?
    ensures Render(e, 1) == "  " + "<title>" + EscapeText(e.text.value) + "</title>"
  {
    hide EscapeText;
    assert Pad(1) == "  ";
    assert "  " + "<" + "title" + "" + ">" == "  " + "<title>" && "</" + "title" + ">" == "</title>";
  }

  lemma NameSo(e: Element)
    requires e == Element("name", [], None, [])
    ensures Render(e, 2) == "    " + "<name/>"
  {
    assert Pad(1) == "  " && Pad(2) == "    ";
    assert "    " + "<" + "name" + "" + "/>" == "    " + "<name/>";
  }

  lemma AuthorSo(e: Element)
    requires e.name == "author" && e.attributes == [] && e.children == [Element("name", [], None, [])]
    ensures Render(e, 1) == "  " + "<author>\n" + ("    " + "<name/>") + "\n" + "  " + "</author>"
  {
    NameSo(e.children[0]);
    assert RenderAll(e.children, 2) == Render(e.children[0], 2);
    assert Pad(1) == "  " && RenderAttributes(e.attributes) == "";
    hide Render, RenderAll, RenderAttributes, Pad;
    ParentSo(e);
    assert "  " + "<" + "author" + "" + ">\n" == "  " + "<author>\n" && "</" + "author" + ">" == "</author>";
  }

  lemma ParentSo(e: Element)
    requires e.children != []
    ensures Render(e, 1) == Pad(1) + "<" + e.name + RenderAttributes(e.attributes) + ">\n"
                            + RenderAll(e.children, 2) + "\n" + Pad(1) + "</" + e.name + ">"
  {
    hide RenderAll, RenderAttributes, Pad;
    var open := Pad(1) + "<" + e.name + RenderAttributes(e.attributes);
    assert Render(e, 1) == open + ">\n" + RenderAll(e.children, 1 + 1) + "\n" + Pad(1) + "</" + e.name + ">";
  }

  /** A document is its declaration, the root and an end of line. */
  lemma DocumentSo(root: Element)
    ensures RenderDocument(root) == "<?xml version=\"1.0\" encoding=\"UTF-8\"?>" + "\n" + Render(root, 0) + "\n"
  {
  }
}
