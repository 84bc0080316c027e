/**
 * The imperative renderer: `TagFormatter` with its mutable indent level,
 * the `String` buffer that `format` appends to, `UnitTag::format` itself
 * and `Display`, each proved to write what the functions of `Render` say.
 */
module Formatter {
  import opened Dict
  import opened Tags
  import opened Rendering

  /** `TagFormatter`: the layout settings and the current indent level. */
  class TagFormatter {
    const tabSize: nat
    var indent: nat
    const maxWidth: nat
    const newlineOnProp: bool
    const lineSep: string

    /** `TagFormatter::default()`: tab 4, indent 0, width 120, compact, `"\n"`. */
    constructor Default()
      ensures tabSize == 4 && indent == 0 && maxWidth == 120 && !newlineOnProp && lineSep == "\n"
      ensures Config() == DefaultConfig
    {
      tabSize := 4;
      indent := 0;
      maxWidth := 120;
      newlineOnProp := false;
      lineSep := "\n";
    }

    /** A `TagFormatter { .. }` literal with every field given. */
    constructor (tabSize: nat, indent: nat, maxWidth: nat, newlineOnProp: bool, lineSep: string)
      ensures this.tabSize == tabSize && this.indent == indent && this.maxWidth == maxWidth
      ensures this.newlineOnProp == newlineOnProp && this.lineSep == lineSep
    {
      this.tabSize := tabSize;
      this.indent := indent;
      this.maxWidth := maxWidth;
      this.newlineOnProp := newlineOnProp;
      this.lineSep := lineSep;
    }

    /** The settings, as the pure renderer takes them. */
    function Config(): FormatConfig {
      FormatConfig(tabSize, maxWidth, newlineOnProp, lineSep)
    }

    /** `pad_size`: the indent level times the tab size. */
    function PadSize(): (r: nat)
      reads this
      ensures r == Rendering.PadSize(Config(), indent)
    {
      indent * tabSize
    }
  }

  lemma Assoc(a: string, b: string, c: string)
    ensures (a + b) + c == a + (b + c)
  {
  }

  lemma RunStep(k: Token, es: Pairs, i: nat)
    requires i < |es|
    ensures Run(k, es[..i + 1]) == Run(k, es[..i]) + TokenOf(k, es[i])
  {
    assert es[..i + 1][..i] == es[..i];
  }

  lemma Chain(s: string, a: string, b: string, c: string, x: string, y: string, z: string)
    requires x == s + a && y == x + b && z == y + c
    ensures z == s + (a + b + c)
  {
  }

  lemma ChildrenStep(t: UnitTag, i: nat, c: FormatConfig, indent: nat)
    requires i < |t.children|
    ensures RenderChildren(t, i + 1, c, indent) == RenderChildren(t, i, c, indent) + ChildText(t.children[i], c, indent)
  {
  }

  /** One `for (name, val) in map.iter()` loop of `format`, writing one token per entry. */
  method WriteRun(k: Token, es: Pairs, buf: string) returns (buf': string)
    ensures buf' == buf + Run(k, es)
  {
    buf' := buf;
    for i := 0 to |es|
      invariant buf' == buf + Run(k, es[..i])
    {
      RunStep(k, es, i);
      Assoc(buf, Run(k, es[..i]), TokenOf(k, es[i]));
      buf' := buf' + TokenOf(k, es[i]);
    }
    assert es[..|es|] == es;
  }

  /** `if !style.is_empty() { ... }`: the style attribute and its loop. */
  method WriteStyleAttr(open: string, es: Pairs, buf: string) returns (buf': string)
    ensures buf' == buf + StyleAttr(open, es)
  {
    buf' := buf;
    if es != [] {
      buf' := buf' + open;
      buf' := WriteRun(StyleDecl, es, buf');
      buf' := buf' + "\"";
    }
  }

  /** The attribute block of the line layout (the `newline_on_prop` branch). */
  method WriteLineAttrs(t: UnitTag, pad: nat, sep: string, buf: string) returns (buf': string)
    ensures buf' == buf + LineAttrs(t, pad, sep)
  {
    ghost var w := sep;
    buf' := buf + sep;
    var pad := pad + 1;
    Assoc(buf, w, Spaces(pad));
    buf', w := buf' + Spaces(pad), w + Spaces(pad);
    Assoc(buf, w, Run(LineProp(pad, sep), t.props.entries));
    buf' := WriteRun(LineProp(pad, sep), t.props.entries, buf');
    w := w + Run(LineProp(pad, sep), t.props.entries);
    Assoc(buf, w, StyleAttr(Spaces(pad) + "style=\"", t.style.entries));
    buf' := WriteStyleAttr(Spaces(pad) + "style=\"", t.style.entries, buf');
    w := w + StyleAttr(Spaces(pad) + "style=\"", t.style.entries);
    Assoc(buf, w, Run(LineHandler(pad, sep), t.on.entries));
    buf' := WriteRun(LineHandler(pad, sep), t.on.entries, buf');
    w := w + Run(LineHandler(pad, sep), t.on.entries);
    pad := pad - 1;
    Assoc(buf, w, Spaces(pad));
    buf', w := buf' + Spaces(pad), w + Spaces(pad);
    Assoc(buf, w, ">");
    buf', w := buf' + ">", w + ">";
    Assoc(buf, w, sep);
    buf', w := buf' + sep, w + sep;
  }

  /** The attribute run of the compact layout, closed by `>`. */
  method WriteCompactAttrs(t: UnitTag, buf: string) returns (buf': string)
    ensures buf' == buf + CompactAttrs(t)
  {
    ghost var w := Run(CompactProp, t.props.entries);
    buf' := WriteRun(CompactProp, t.props.entries, buf);
    Assoc(buf, w, StyleAttr(" style=\"", t.style.entries));
    buf' := WriteStyleAttr(" style=\"", t.style.entries, buf');
    w := w + StyleAttr(" style=\"", t.style.entries);
    Assoc(buf, w, Run(CompactHandler, t.on.entries));
    buf' := WriteRun(CompactHandler, t.on.entries, buf');
    w := w + Run(CompactHandler, t.on.entries);
    Assoc(buf, w, ">");
    buf', w := buf' + ">", w + ">";
  }

  /** The part of `format` before the children, at the pad read on entry: indentation, `<tag`, the attributes, a separator. */
  method WriteOpenTag(t: UnitTag, f: TagFormatter, pad: nat, buf: string) returns (buf': string)
    requires pad == f.PadSize()
    ensures buf' == buf + OpenTag(t, f.Config(), f.indent)
  {
    buf' := buf + (Spaces(pad) + "<" + t.tag);
    ghost var w := Spaces(pad) + "<" + t.tag;
    ghost var attrs := Attrs(t, f.Config(), pad);
    Assoc(buf, w, attrs);
    if f.newlineOnProp {
      buf' := WriteLineAttrs(t, pad, f.lineSep, buf');
    } else {
      buf' := WriteCompactAttrs(t, buf');
    }
    w := w + attrs;
    Assoc(buf, w, f.lineSep);
    buf', w := buf' + f.lineSep, w + f.lineSep;
  }

  /** The part of `format` after the children, at the same pad as the opening tag: indentation, `</tag>`, a separator. */
  method WriteCloseTag(t: UnitTag, pad: nat, sep: string, buf: string) returns (buf': string)
    ensures buf' == buf + (Spaces(pad) + "</" + t.tag + ">" + sep)
  {
    var closing := Spaces(pad) + "</" + t.tag + ">";
    buf' := buf + closing;
    buf' := buf' + sep;
    Assoc(buf, closing, sep);
  }

  /**
   * `UnitTag::format`: appends the node to `buf` and leaves the indent
   * level as it found it, having raised it by one around the children.
   */
  method Format(t: UnitTag, f: TagFormatter, buf: string) returns (buf': string)
    modifies f`indent
    ensures f.indent == old(f.indent)
    ensures buf' == buf + Render(t, f.Config(), old(f.indent))
    decreases t, 3
  {
    var pad := f.PadSize();
    var started := WriteOpenTag(t, f, pad, buf);
    var filled := FormatNested(t, f, started);
    buf' := WriteCloseTag(t, pad, f.lineSep, filled);
    RenderSteps(buf, t, f.Config(), f.indent, pad, started, filled, buf');
  }

  /** The children one indent level deeper: `f.indent += 1`, the loop, `f.indent -= 1`. */
  method FormatNested(t: UnitTag, f: TagFormatter, buf: string) returns (buf': string)
    modifies f`indent
    ensures f.indent == old(f.indent)
    ensures buf' == buf + RenderChildren(t, |t.children|, f.Config(), f.indent + 1)
    decreases t, 2
  {
    f.indent := f.indent + 1;
    buf' := FormatChildren(t, f, buf);
    f.indent := f.indent - 1;
  }

  lemma RenderSteps(buf: string, t: UnitTag, c: FormatConfig, indent: nat, pad: nat, x: string, y: string, z: string)
    requires pad == PadSize(c, indent)
    requires x == buf + OpenTag(t, c, indent)
    requires y == x + RenderChildren(t, |t.children|, c, indent + 1)
    requires z == y + (Spaces(pad) + "</" + t.tag + ">" + c.lineSep)
    ensures z == buf + Render(t, c, indent)
  {
    RenderParts(t, c, indent);
    Chain(buf, OpenTag(t, c, indent), RenderChildren(t, |t.children|, c, indent + 1), CloseTag(t, c, indent), x, y, z);
  }

  /** The `for child in self.children.iter()` loop of `format`, at the formatter's current level. */
  method FormatChildren(t: UnitTag, f: TagFormatter, buf: string) returns (buf': string)
    modifies f`indent
    ensures f.indent == old(f.indent)
    ensures buf' == buf + RenderChildren(t, |t.children|, f.Config(), f.indent)
    decreases t, 1
  {
    buf' := buf;
    for i := 0 to |t.children|
      invariant f.indent == old(f.indent)
      invariant buf' == buf + RenderChildren(t, i, f.Config(), f.indent)
    {
      ghost var before := buf';
      buf' := FormatChild(t, i, f, buf');
      ChildrenSteps(buf, t, i, f.Config(), f.indent, before, buf');
    }
  }

  lemma ChildrenSteps(buf: string, t: UnitTag, i: nat, c: FormatConfig, indent: nat, x: string, y: string)
    requires i < |t.children|
    requires x == buf + RenderChildren(t, i, c, indent)
    requires y == x + ChildText(t.children[i], c, indent)
    ensures y == buf + RenderChildren(t, i + 1, c, indent)
  {
    ChildrenStep(t, i, c, indent);
    Assoc(buf, RenderChildren(t, i, c, indent), ChildText(t.children[i], c, indent));
  }

  /** One child of the loop: a `UnitTag` formats itself, any other node writes its own output. */
  method FormatChild(t: UnitTag, i: nat, f: TagFormatter, buf: string) returns (buf': string)
    requires i < |t.children|
    modifies f`indent
    ensures f.indent == old(f.indent)
    ensures buf' == buf + ChildText(t.children[i], f.Config(), f.indent)
    decreases t, 0
  {
    match t.children[i]
    case Unit(u) =>
      buf' := Format(u, f, buf);
    case Leaf(_, out) =>
      buf' := buf + out;
  }

  /** `Display for UnitTag`: formats with a fresh default formatter into an empty string. */
  method Display(t: UnitTag) returns (s: string)
    ensures s == Render(t, DefaultConfig, 0)
  {
    var content := "";
    var formatter := new TagFormatter.Default();
    s := Format(t, formatter, content);
  }
}
