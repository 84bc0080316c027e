/**
 * Concrete instances: nodes built through the generic constructor and
 * `prop!` entries, with the exact text `format` writes for them. They pin
 * down the separator after every `>`, the uniform closing tag, the nesting
 * of children and the spacing of the one-attribute-per-line layout.
 */
module Examples {
  import opened Wrappers
  import opened Dict
  import opened Tags
  import opened PropMacro
  import opened Resolver
  import opened Rendering

  const Compact4 := FormatConfig(4, 120, false, "\n")
  const Compact2 := FormatConfig(2, 120, false, "\n")
  const Lines4 := FormatConfig(4, 120, true, "\n")

  /** `div(prop!(id = "x"))`: the macro gives a one-entry map and the constructor puts it in `props`. */
  lemma DivWithIdBuilt()
    ensures Props([PropEntry(["id"], Some("x"))]) == Success(TagProp([("id", "x")]))
    ensures MakeNode("div", Shape([PropArg(TagProp([("id", "x")]))], None)) == Div
  {
    assert !StartsWith("id", "on") by { assert "id"[..2][0] != "on"[0]; }
    PlainKey(["id"], "id");
  }

  const Div := UnitTag("div", TagProp([("id", "x")]), NoHandlers, NoStyle, [])

  /** The separator follows `>`, so the closing tag of an empty element is on its own line. */
  lemma DivWithIdText()
    ensures Render(Div, DefaultConfig, 0) == "<div id=\"x\">\n" + "</div>\n"
  {
    Childless(Div, DefaultConfig, 0);
    DivTags();
  }

  lemma DivTags()
    ensures OpenTag(Div, DefaultConfig, 0) == "<div id=\"x\">\n"
    ensures CloseTag(Div, DefaultConfig, 0) == "</div>\n"
  {
    RunOne(CompactProp, ("id", "x"));
    assert Attrs(Div, DefaultConfig, 0) == " id=\"x\">";
    OpenAt(Div, DefaultConfig, 0, "", " id=\"x\">");
    CloseAt(Div, DefaultConfig, 0, "");
    assert "" + "<" + "div" + " id=\"x\">" + "\n" == "<div id=\"x\">\n";
    assert "" + "</" + "div" + ">" + "\n" == "</div>\n";
  }

  const Br := UnitTag("br", NoProps, NoHandlers, NoStyle, [])

  /** A tag without content still gets a separate closing tag. */
  lemma EmptyBr()
    ensures Render(Br, DefaultConfig, 0) == "<br>\n" + "</br>\n"
  {
    Childless(Br, DefaultConfig, 0);
    BrTags();
  }

  lemma BrTags()
    ensures OpenTag(Br, DefaultConfig, 0) == "<br>\n"
    ensures CloseTag(Br, DefaultConfig, 0) == "</br>\n"
  {
    assert Attrs(Br, DefaultConfig, 0) == ">";
    OpenAt(Br, DefaultConfig, 0, "", ">");
    CloseAt(Br, DefaultConfig, 0, "");
    assert "" + "<" + "br" + ">" + "\n" == "<br>\n";
    assert "" + "</" + "br" + ">" + "\n" == "</br>\n";
  }

  const Li := UnitTag("li", NoProps, NoHandlers, NoStyle, [])
  const Ul := UnitTag("ul", NoProps, NoHandlers, NoStyle, [Unit(Li), Unit(Li)])

  /**
   * `ul((li(()), li(())))`: each `li(())` takes the empty children, and
   * `ul` takes the pair as its children value, the two nodes in order;
   * a pair converted straight into a node gives the same `ul`.
   */
  lemma NestedListBuilt()
    ensures MakeNode("li", Shape([], Some([]))) == Li
    ensures MakeNode("ul", Shape([], Some([Unit(Li), Unit(Li)]))) == Ul
    ensures FromPair("ul", Unit(Li), Unit(Li)) == Ul
  {
  }

  /** At tab size 2 each `li` is indented one level deeper than its parent. */
  lemma NestedListText()
    ensures Render(Ul, Compact2, 0) == "<ul>\n" + ("  <li>\n" + "  </li>\n") + ("  <li>\n" + "  </li>\n") + "</ul>\n"
  {
    LiText();
    TwoChildren(Ul, Compact2, 1);
    RenderParts(Ul, Compact2, 0);
    UlTags();
  }

  lemma UlTags()
    ensures OpenTag(Ul, Compact2, 0) == "<ul>\n"
    ensures CloseTag(Ul, Compact2, 0) == "</ul>\n"
  {
    assert Attrs(Ul, Compact2, 0) == ">";
    OpenAt(Ul, Compact2, 0, "", ">");
    CloseAt(Ul, Compact2, 0, "");
    assert "" + "<" + "ul" + ">" + "\n" == "<ul>\n";
    assert "" + "</" + "ul" + ">" + "\n" == "</ul>\n";
  }

  /** One `li` at level 1: two spaces before each of its tags. */
  lemma LiText()
    ensures Render(Li, Compact2, 1) == "  <li>\n" + "  </li>\n"
  {
    Childless(Li, Compact2, 1);
    LiTags();
  }

  lemma LiTags()
    ensures OpenTag(Li, Compact2, 1) == "  <li>\n"
    ensures CloseTag(Li, Compact2, 1) == "  </li>\n"
  {
    assert Spaces(PadSize(Compact2, 1)) == "  ";
    assert Attrs(Li, Compact2, PadSize(Compact2, 1)) == ">";
    OpenAt(Li, Compact2, 1, "  ", ">");
    CloseAt(Li, Compact2, 1, "  ");
    assert "  " + "<" + "li" + ">" + "\n" == "  <li>\n";
    assert "  " + "</" + "li" + ">" + "\n" == "  </li>\n";
  }

  /** A multi-token name is joined with `-`, and an entry without a value stores `""`. */
  lemma BareAttributeBuilt()
    ensures Props([PropEntry(["data", "hidden"], None)]) == Success(TagProp([("data-hidden", "")]))
  {
    assert Join(["data", "hidden"], "-") == "data-hidden" by {
      assert Join(["hidden"], "-") == "hidden";
    }
    assert !StartsWith("data-hidden", "on") by { assert "data-hidden"[..2][0] != "on"[0]; }
    PlainKey(["data", "hidden"], "data-hidden");
  }

  const Hidden := UnitTag("p", TagProp([("data-hidden", "")]), NoHandlers, NoStyle, [])

  /** A presence-only attribute is written as its bare name. */
  lemma BareAttributeText()
    ensures Render(Hidden, Compact4, 0) == "<p data-hidden>\n" + "</p>\n"
  {
    Childless(Hidden, Compact4, 0);
    HiddenTags();
  }

  lemma HiddenTags()
    ensures OpenTag(Hidden, Compact4, 0) == "<p data-hidden>\n"
    ensures CloseTag(Hidden, Compact4, 0) == "</p>\n"
  {
    RunOne(CompactProp, ("data-hidden", ""));
    assert Attrs(Hidden, Compact4, 0) == " data-hidden>";
    OpenAt(Hidden, Compact4, 0, "", " data-hidden>");
    CloseAt(Hidden, Compact4, 0, "");
    assert "" + "<" + "p" + " data-hidden>" + "\n" == "<p data-hidden>\n";
    assert "" + "</" + "p" + ">" + "\n" == "</p>\n";
  }

  /** An entry list of one name that is not reserved gives the one-entry map. */
  lemma PlainKey(parts: seq<string>, key: string)
    requires Join(parts, "-") == key && Check(key).None?
    ensures forall v :: Props([PropEntry(parts, v)]) == Success(TagProp([(key, StoredValue(PropEntry(parts, v)))]))
  {
    forall v ensures Props([PropEntry(parts, v)]) == Success(TagProp([(key, StoredValue(PropEntry(parts, v)))])) {
      var es := [PropEntry(parts, v)];
      assert es[..0] == [];
    }
  }

  /** A loop over a one-entry map writes that entry's token. */
  lemma RunOne(k: Token, e: (string, string))
    ensures Run(k, [e]) == TokenOf(k, e)
  {
    assert [e][..0] == [];
  }

  /** `prop!(onclick = "f")` is refused: handlers have their own container. */
  lemma HandlerNameRefused()
    ensures Props([PropEntry(["onclick"], Some("f"))]) == Failure(HandlerName("onclick"))
  {
    assert StartsWith("onclick", "on") by { assert "onclick"[..2] == "on"; }
    assert Join(["onclick"], "-") == "onclick";
  }

  /** Any name starting with `on` is refused, whether or not it names an event. */
  lemma OnPrefixRefused()
    ensures Props([PropEntry(["id"], Some("x")), PropEntry(["one", "time"], None)]) == Failure(HandlerName("one-time"))
  {
    assert Join(["one", "time"], "-") == "one-time" by {
      assert Join(["time"], "-") == "time";
    }
    assert StartsWith("one-time", "on") by { assert "one-time"[..2] == "on"; }
    assert Join(["id"], "-") == "id";
    assert !StartsWith("id", "on") by { assert "id"[..2][0] != "on"[0]; }
    var es := [PropEntry(["id"], Some("x")), PropEntry(["one", "time"], None)];
    assert es[..1] == [PropEntry(["id"], Some("x"))];
    assert es[..1][..0] == [];
  }

  /** `prop!(style = "...")` is refused: styles have their own container. */
  lemma StyleNameRefused()
    ensures Props([PropEntry(["style"], Some("color: red"))]) == Failure(StyleName)
  {
    assert !StartsWith("style", "on") by { assert "style"[..2][0] != "on"[0]; }
    assert Join(["style"], "-") == "style";
  }

  const LineDiv := UnitTag("div", TagProp([("id", "x")]), TagHandler([("click", "go")]), TagStyle([("color", "red")]), [])

  /**
   * `LineDiv`'s attribute block at level 0 with tab size 4: a separator,
   * the extra run of `pad + 1` spaces, the prop line with its own `pad + 1`
   * spaces, the style line without a separator, the handler line, then
   * `>` and a separator.
   */
  const LineDivBlock := "\n" + " " + " id=\"x\"\n" + " style=\"color: red; \"" + " onclick=\"go\"\n" + ">" + "\n"

  /** The one-attribute-per-line layout: the block above, then the separator that always follows `>`. */
  lemma LineLayout()
    ensures Render(LineDiv, Lines4, 0) == "<div" + LineDivBlock + "\n" + "</div>\n"
  {
    Childless(LineDiv, Lines4, 0);
    LineDivTags();
  }

  lemma LineDivTags()
    ensures OpenTag(LineDiv, Lines4, 0) == "<div" + LineDivBlock + "\n"
    ensures CloseTag(LineDiv, Lines4, 0) == "</div>\n"
  {
    LineDivAttrs();
    OpenAt(LineDiv, Lines4, 0, "", LineDivBlock);
    CloseAt(LineDiv, Lines4, 0, "");
    assert "" + "<" + "div" == "<div";
    assert "" + "</" + "div" + ">" + "\n" == "</div>\n";
  }

  lemma LineDivAttrs()
    ensures Attrs(LineDiv, Lines4, 0) == LineDivBlock
  {
    LineDivProp();
    LineDivStyle();
    LineDivHandler();
    LineAtTop(LineDiv, "\n", " id=\"x\"\n", " style=\"color: red; \"", " onclick=\"go\"\n");
  }

  lemma LineDivProp()
    ensures Run(LineProp(1, "\n"), LineDiv.props.entries) == " id=\"x\"\n"
  {
    RunOne(LineProp(1, "\n"), ("id", "x"));
    assert Spaces(1) == " ";
    assert " " + ("id" + "=\"" + "x" + "\"") + "\n" == " id=\"x\"\n";
  }

  lemma LineDivStyle()
    ensures StyleAttr(Spaces(1) + "style=\"", LineDiv.style.entries) == " style=\"color: red; \""
  {
    RunOne(StyleDecl, ("color", "red"));
    assert Spaces(1) == " ";
    assert " " + "style=\"" + ("color" + ": " + "red" + "; ") + "\"" == " style=\"color: red; \"";
  }

  lemma LineDivHandler()
    ensures Run(LineHandler(1, "\n"), LineDiv.on.entries) == " onclick=\"go\"\n"
  {
    RunOne(LineHandler(1, "\n"), ("click", "go"));
    assert Spaces(1) == " ";
    assert " " + "on" + "click" + "=\"" + "go" + "\"" + "\n" == " onclick=\"go\"\n";
  }

  // ---- helpers: a node's text from the text of its parts

  /** A node without children is its opening part followed by its closing part. */
  lemma Childless(t: UnitTag, c: FormatConfig, indent: nat)
    requires t.children == []
    ensures Render(t, c, indent) == OpenTag(t, c, indent) + CloseTag(t, c, indent)
  {
    RenderParts(t, c, indent);
    DropEmpty(OpenTag(t, c, indent), RenderChildren(t, 0, c, indent + 1), CloseTag(t, c, indent));
  }

  lemma DropEmpty(a: string, e: string, b: string)
    requires e == ""
    ensures a + e + b == a + b
  {
  }

  lemma OpenAt(t: UnitTag, c: FormatConfig, indent: nat, pad: string, attrs: string)
    requires Spaces(PadSize(c, indent)) == pad && Attrs(t, c, PadSize(c, indent)) == attrs
    ensures OpenTag(t, c, indent) == pad + "<" + t.tag + attrs + c.lineSep
  {
  }

  lemma CloseAt(t: UnitTag, c: FormatConfig, indent: nat, pad: string)
    requires Spaces(PadSize(c, indent)) == pad
    ensures CloseTag(t, c, indent) == pad + "</" + t.tag + ">" + c.lineSep
  {
  }

  lemma TwoChildren(t: UnitTag, c: FormatConfig, indent: nat)
    requires |t.children| == 2
    ensures RenderChildren(t, 2, c, indent) == ChildText(t.children[0], c, indent) + ChildText(t.children[1], c, indent)
  {
    assert RenderChildren(t, 1, c, indent) == "" + ChildText(t.children[0], c, indent);
  }

  /** The line layout at pad 0, given the text of its three loops. */
  lemma LineAtTop(t: UnitTag, sep: string, p: string, s: string, h: string)
    requires Run(LineProp(1, sep), t.props.entries) == p
    requires StyleAttr(Spaces(1) + "style=\"", t.style.entries) == s
    requires Run(LineHandler(1, sep), t.on.entries) == h
    ensures LineAttrs(t, 0, sep) == sep + " " + p + s + h + ">" + sep
  {
    assert Spaces(1) == " ";
    DropEmpty(sep + " " + p + s + h, Spaces(0), ">");
  }
}
