/**
 * What `UnitTag::format` writes, as pure functions of the node, the
 * formatter's settings and its indent level on entry. Containers are
 * written in their iteration order; nothing is escaped.
 */
module Rendering {
  import opened Dict
  import opened Tags

  /**
   * The settings of a `TagFormatter` other than its indent level.
   * `maxWidth` is stored but never read by the renderer.
   */
  datatype FormatConfig = FormatConfig(tabSize: nat, maxWidth: nat, newlineOnProp: bool, lineSep: string)

  /** `TagFormatter::default()` without its indent (which starts at 0). */
  const DefaultConfig := FormatConfig(4, 120, false, "\n")

  /** `write!(buf, "{:n$}", "")`: the empty string padded to width `n`. */
  function Spaces(n: nat): (r: string)
    ensures |r| == n
    ensures forall i :: 0 <= i < n ==> r[i] == ' '
  {
    if n == 0 then "" else Spaces(n - 1) + " "
  }

  /** `TagFormatter::pad_size`. */
  function PadSize(c: FormatConfig, indent: nat): nat {
    indent * c.tabSize
  }

  /** Level 0 is not indented, and each level adds one tab. */
  lemma PadSizeLevels(c: FormatConfig, indent: nat)
    ensures PadSize(c, 0) == 0
    ensures PadSize(c, indent + 1) == PadSize(c, indent) + c.tabSize
  {
  }

  // ---- attribute tokens

  /** The five loops of `format` that write one token per container entry. */
  datatype Token =
    | CompactProp                    // ` name` or ` name="value"`
    | CompactHandler                 // ` on<event>="<handler>"`
    | StyleDecl                      // `name: value; `
    | LineProp(pad: nat, sep: string)    // pad, `name` or `name="value"`, separator
    | LineHandler(pad: nat, sep: string) // pad, `on<event>="<handler>"`, separator

  /** `name="value"`, or the bare name when the value is empty. */
  function Attr(e: (string, string)): string {
    if e.1 == "" then e.0 else e.0 + "=\"" + e.1 + "\""
  }

  /** What one loop iteration writes for the entry `e`. */
  function TokenOf(k: Token, e: (string, string)): string {
    match k
    case CompactProp => " " + Attr(e)
    case CompactHandler => " on" + e.0 + "=\"" + e.1 + "\""
    case StyleDecl => e.0 + ": " + e.1 + "; "
    case LineProp(pad, sep) => Spaces(pad) + Attr(e) + sep
    case LineHandler(pad, sep) => Spaces(pad) + "on" + e.0 + "=\"" + e.1 + "\"" + sep
  }

  /** A whole loop: the tokens of the entries, concatenated in iteration order. */
  function Run(k: Token, es: Pairs): string {
    if es == [] then "" else Run(k, es[..|es| - 1]) + TokenOf(k, es[|es| - 1])
  }

  /**
   * The style attribute, written only for a non-empty style map: `open`
   * (the attribute name and opening quote), the declarations, the closing quote.
   */
  function StyleAttr(open: string, es: Pairs): string {
    if es == [] then "" else open + Run(StyleDecl, es) + "\""
  }

  /** The attribute run of the compact layout, closed by `>`. */
  function CompactAttrs(t: UnitTag): string {
    Run(CompactProp, t.props.entries)
    + StyleAttr(" style=\"", t.style.entries)
    + Run(CompactHandler, t.on.entries)
    + ">"
  }

  /**
   * The attribute block of the line layout. `pad` is the node's own pad;
   * attribute lines use `pad + 1` spaces and the block starts with one
   * extra run of `pad + 1` spaces. The style line has no separator after it.
   */
  function LineAttrs(t: UnitTag, pad: nat, sep: string): string {
    sep + Spaces(pad + 1)
    + Run(LineProp(pad + 1, sep), t.props.entries)
    + StyleAttr(Spaces(pad + 1) + "style=\"", t.style.entries)
    + Run(LineHandler(pad + 1, sep), t.on.entries)
    + Spaces(pad) + ">" + sep
  }

  // ---- the whole node

  /** Everything up to and including the separator after the opening tag. */
  function OpenTag(t: UnitTag, c: FormatConfig, indent: nat): string {
    var pad := PadSize(c, indent);
    Spaces(pad) + "<" + t.tag + Attrs(t, c, pad) + c.lineSep
  }

  /** The attributes in the layout `newline_on_prop` selects. */
  function Attrs(t: UnitTag, c: FormatConfig, pad: nat): string {
    if c.newlineOnProp then LineAttrs(t, pad, c.lineSep) else CompactAttrs(t)
  }

  /** The closing tag and its separator. */
  function CloseTag(t: UnitTag, c: FormatConfig, indent: nat): string {
    Spaces(PadSize(c, indent)) + "</" + t.tag + ">" + c.lineSep
  }

  /** `UnitTag::format` at indent level `indent`: children go one level deeper. */
  function Render(t: UnitTag, c: FormatConfig, indent: nat): string
    decreases t, 1
  {
    OpenTag(t, c, indent) + RenderChildren(t, |t.children|, c, indent + 1) + CloseTag(t, c, indent)
  }

  /** The first `k` children of `t`, in order, each at level `indent`. */
  function RenderChildren(t: UnitTag, k: nat, c: FormatConfig, indent: nat): string
    requires k <= |t.children|
    decreases t, 0, k
  {
    if k == 0 then ""
    else
      var ch := t.children[k - 1];
      RenderChildren(t, k - 1, c, indent)
      + match ch
        case Unit(u) => Render(u, c, indent)
        case Leaf(_, out) => out
  }

  /** What one child writes at level `indent`: a `UnitTag` renders itself, any other node its own output. */
  function ChildText(ch: Child, c: FormatConfig, indent: nat): string {
    match ch
    case Unit(u) => Render(u, c, indent)
    case Leaf(_, out) => out
  }

  /** The strings of a sequence, concatenated. */
  function Concat(ss: seq<string>): string {
    if ss == [] then "" else Concat(ss[..|ss| - 1]) + ss[|ss| - 1]
  }

  /** The token list a loop writes, one per entry and in the same order. */
  function Tokens(k: Token, es: Pairs): (ts: seq<string>)
    ensures |ts| == |es| && forall i :: 0 <= i < |es| ==> ts[i] == TokenOf(k, es[i])
  {
    seq(|es|, i requires 0 <= i < |es| => TokenOf(k, es[i]))
  }

  /** A loop writes exactly its tokens, one after the other. */
  lemma {:induction false} RunIsTokens(k: Token, es: Pairs)
    ensures Run(k, es) == Concat(Tokens(k, es))
  {
    if es != [] {
      var init := es[..|es| - 1];
      RunIsTokens(k, init);
      assert Tokens(k, es)[..|es| - 1] == Tokens(k, init);
    }
  }

  /**
   * The set of attribute tokens does not depend on the containers'
   * iteration order: two listings of the same entries give the same tokens.
   */
  lemma TokenSetOrderIndependent(k: Token, es1: Pairs, es2: Pairs)
    requires forall e :: e in es1 <==> e in es2
    ensures forall x :: x in Tokens(k, es1) <==> x in Tokens(k, es2)
  {
    var t1, t2 := Tokens(k, es1), Tokens(k, es2);
    forall x | x in t1 ensures x in t2 {
      var i :| 0 <= i < |t1| && t1[i] == x;
      assert es1[i] in es2;
      var j :| 0 <= j < |es2| && es2[j] == es1[i];
      assert t2[j] == x;
    }
    forall x | x in t2 ensures x in t1 {
      var j :| 0 <= j < |t2| && t2[j] == x;
      assert es2[j] in es1;
      var i :| 0 <= i < |es1| && es1[i] == es2[j];
      assert t1[i] == x;
    }
  }

  /**
   * Children are written in sequence order, each one level deeper than
   * their parent, between the opening and the closing tag.
   */
  lemma {:induction false} ChildrenInOrder(t: UnitTag, k: nat, c: FormatConfig, indent: nat)
    requires k <= |t.children|
    ensures RenderChildren(t, k, c, indent) ==
      Concat(seq(k, i requires 0 <= i < k => ChildText(t.children[i], c, indent)))
  {
    if k > 0 {
      ChildrenInOrder(t, k - 1, c, indent);
      var all := seq(k, i requires 0 <= i < k => ChildText(t.children[i], c, indent));
      assert all[..k - 1] == seq(k - 1, i requires 0 <= i < k - 1 => ChildText(t.children[i], c, indent));
    }
  }

  /**
   * Framing: the output starts with `pad` spaces and `<tag`, and ends with
   * `pad` spaces, `</tag>` and the separator, where `pad` is the indent
   * level on entry times the tab size.
   */
  lemma RenderFraming(t: UnitTag, c: FormatConfig, indent: nat)
    ensures var r := Render(t, c, indent);
      var open := Spaces(indent * c.tabSize) + "<" + t.tag;
      var close := Spaces(indent * c.tabSize) + "</" + t.tag + ">" + c.lineSep;
      |open| + |close| <= |r| && r[..|open|] == open && r[|r| - |close|..] == close
  {
    var pad := indent * c.tabSize;
    var open := Spaces(pad) + "<" + t.tag;
    var close := Spaces(pad) + "</" + t.tag + ">" + c.lineSep;
    var head := OpenTag(t, c, indent);
    var kids := RenderChildren(t, |t.children|, c, indent + 1);
    RenderParts(t, c, indent);
    Framed(head + kids, close);
    Prefix(head + kids, close, |open|);
    Prefix(head, kids, |open|);
    Prefix(open + Attrs(t, c, pad), c.lineSep, |open|);
    Framed(open, Attrs(t, c, pad));
  }

  /** `Render` is the opening tag, the children one level deeper, the closing tag. */
  lemma RenderParts(t: UnitTag, c: FormatConfig, indent: nat)
    ensures Render(t, c, indent) ==
      OpenTag(t, c, indent) + RenderChildren(t, |t.children|, c, indent + 1) + CloseTag(t, c, indent)
  {
  }

  lemma Framed(a: string, b: string)
    ensures (a + b)[..|a|] == a && (a + b)[|a|..] == b
  {
  }

  lemma Prefix(a: string, b: string, n: nat)
    requires n <= |a|
    ensures (a + b)[..n] == a[..n]
  {
  }

  /**
   * A compact node without children: the opening tag with its attributes,
   * the separator that always follows `>`, then the closing tag.
   */
  lemma ChildlessCompact(t: UnitTag, c: FormatConfig, indent: nat)
    requires t.children == [] && !c.newlineOnProp
    ensures Render(t, c, indent) ==
      Spaces(indent * c.tabSize) + "<" + t.tag + CompactAttrs(t) + c.lineSep
      + Spaces(indent * c.tabSize) + "</" + t.tag + ">" + c.lineSep
  {
  }

  /**
   * The compact attribute run: props in order (bare names for empty
   * values), a `style` attribute only for a non-empty style map, then the
   * handlers, then `>`.
   */
  lemma CompactAttrsTokens(t: UnitTag)
    ensures CompactAttrs(t) ==
      Concat(Tokens(CompactProp, t.props.entries))
      + (if t.style.entries == [] then "" else " style=\"" + Concat(Tokens(StyleDecl, t.style.entries)) + "\"")
      + Concat(Tokens(CompactHandler, t.on.entries))
      + ">"
  {
    RunIsTokens(CompactProp, t.props.entries);
    RunIsTokens(StyleDecl, t.style.entries);
    RunIsTokens(CompactHandler, t.on.entries);
  }

  /** A presence-only attribute is a bare name; any other carries `="value"`. */
  lemma CompactPropTokens(es: Pairs)
    ensures forall i :: 0 <= i < |es| && es[i].1 == "" ==> Tokens(CompactProp, es)[i] == " " + es[i].0
    ensures forall i :: 0 <= i < |es| && es[i].1 != "" ==>
      Tokens(CompactProp, es)[i] == " " + es[i].0 + "=\"" + es[i].1 + "\""
  {
  }
}
