/**
 * Argument resolution: the `From` conversions that turn a call's
 * arguments into one record `{children, props, on, style}`, and the
 * constructors built on it. A call supplies up to three containers, at
 * most one of each kind and in any order, optionally followed by a
 * children value; the record takes each container by its kind and
 * leaves the missing ones empty.
 */
module Resolver {
  import opened Wrappers
  import opened Tags

  /** One container argument, tagged with its type. */
  datatype Arg = PropArg(props: TagProp) | HandlerArg(on: TagHandler) | StyleArg(style: TagStyle)

  datatype Kind = PropKind | HandlerKind | StyleKind

  function KindOf(a: Arg): Kind {
    match a
    case PropArg(_) => PropKind
    case HandlerArg(_) => HandlerKind
    case StyleArg(_) => StyleKind
  }

  /**
   * The arguments of one call, in the order written: the containers,
   * then the trailing children value if there is one (already converted
   * by `Into<Children>`).
   */
  datatype Shape = Shape(args: seq<Arg>, children: Option<seq<Child>>)

  /** No kind of container is supplied twice (the source has no impl for such a tuple). */
  predicate DistinctKinds(args: seq<Arg>) {
    forall i, j :: 0 <= i < j < |args| ==> KindOf(args[i]) != KindOf(args[j])
  }

  /**
   * The call shapes that have a `From` impl for the per-tag argument type:
   * a bare children value, or one to three distinct containers with or
   * without a trailing children value (31 shapes in all).
   */
  predicate Accepted(s: Shape) {
    |s.args| <= 3 && DistinctKinds(s.args) && (s.children.Some? || |s.args| >= 1)
  }

  /** The normalised record (the per-tag `$arg` struct). */
  datatype TagArgs = TagArgs(children: seq<Child>, props: TagProp, on: TagHandler, style: TagStyle)

  /** The first `TagProp` argument, or the default. */
  function PropsOf(args: seq<Arg>): (p: TagProp)
    ensures DistinctKinds(args) ==> forall i :: 0 <= i < |args| && args[i].PropArg? ==> p == args[i].props
    ensures (forall i :: 0 <= i < |args| ==> !args[i].PropArg?) ==> p == NoProps
  {
    if args == [] then NoProps
    else if args[0].PropArg? then args[0].props
    else
      var p := PropsOf(args[1..]);
      assert forall i :: 1 <= i < |args| ==> args[i] == args[1..][i - 1];
      p
  }

  /** The first `TagHandler` argument, or the default. */
  function HandlersOf(args: seq<Arg>): (h: TagHandler)
    ensures DistinctKinds(args) ==> forall i :: 0 <= i < |args| && args[i].HandlerArg? ==> h == args[i].on
    ensures (forall i :: 0 <= i < |args| ==> !args[i].HandlerArg?) ==> h == NoHandlers
  {
    if args == [] then NoHandlers
    else if args[0].HandlerArg? then args[0].on
    else
      var h := HandlersOf(args[1..]);
      assert forall i :: 1 <= i < |args| ==> args[i] == args[1..][i - 1];
      h
  }

  /** The first `TagStyle` argument, or the default. */
  function StylesOf(args: seq<Arg>): (s: TagStyle)
    ensures DistinctKinds(args) ==> forall i :: 0 <= i < |args| && args[i].StyleArg? ==> s == args[i].style
    ensures (forall i :: 0 <= i < |args| ==> !args[i].StyleArg?) ==> s == NoStyle
  {
    if args == [] then NoStyle
    else if args[0].StyleArg? then args[0].style
    else
      var s := StylesOf(args[1..]);
      assert forall i :: 1 <= i < |args| ==> args[i] == args[1..][i - 1];
      s
  }

  /**
   * The `From` impls of the argument type: each container lands in its own
   * field whatever its position, a missing container is empty, and a call
   * without a children value has no children.
   */
  function Resolve(s: Shape): (r: TagArgs)
    requires Accepted(s)
    ensures r.children == (if s.children.Some? then s.children.value else [])
    ensures forall i :: 0 <= i < |s.args| ==>
      match s.args[i]
      case PropArg(p) => r.props == p
      case HandlerArg(h) => r.on == h
      case StyleArg(st) => r.style == st
    ensures (forall i :: 0 <= i < |s.args| ==> !s.args[i].PropArg?) ==> r.props == NoProps
    ensures (forall i :: 0 <= i < |s.args| ==> !s.args[i].HandlerArg?) ==> r.on == NoHandlers
    ensures (forall i :: 0 <= i < |s.args| ==> !s.args[i].StyleArg?) ==> r.style == NoStyle
  {
    TagArgs(if s.children.Some? then s.children.value else [], PropsOf(s.args), HandlersOf(s.args), StylesOf(s.args))
  }

  /**
   * Order independence: two accepted calls that supply the same containers,
   * in whatever order, and the same children resolve to the same record.
   */
  lemma {:induction false} ResolveOrderIndependent(a: Shape, b: Shape)
    requires Accepted(a) && Accepted(b)
    requires multiset(a.args) == multiset(b.args) && a.children == b.children
    ensures Resolve(a) == Resolve(b)
  {
    forall x ensures x in a.args <==> x in b.args {
      assert x in a.args <==> x in multiset(a.args);
      assert x in b.args <==> x in multiset(b.args);
    }
    SameArgsSameProps(a.args, b.args);
    SameArgsSameHandlers(a.args, b.args);
    SameArgsSameStyle(a.args, b.args);
  }

  lemma SameArgsSameProps(xs: seq<Arg>, ys: seq<Arg>)
    requires DistinctKinds(xs) && DistinctKinds(ys)
    requires forall x :: x in xs <==> x in ys
    ensures PropsOf(xs) == PropsOf(ys)
  {
    if i :| 0 <= i < |xs| && xs[i].PropArg? {
      assert xs[i] in ys;
    } else {
      forall j | 0 <= j < |ys| ensures !ys[j].PropArg? {
        assert ys[j] in xs;
      }
    }
  }

  lemma SameArgsSameHandlers(xs: seq<Arg>, ys: seq<Arg>)
    requires DistinctKinds(xs) && DistinctKinds(ys)
    requires forall x :: x in xs <==> x in ys
    ensures HandlersOf(xs) == HandlersOf(ys)
  {
    if i :| 0 <= i < |xs| && xs[i].HandlerArg? {
      assert xs[i] in ys;
    } else {
      forall j | 0 <= j < |ys| ensures !ys[j].HandlerArg? {
        assert ys[j] in xs;
      }
    }
  }

  lemma SameArgsSameStyle(xs: seq<Arg>, ys: seq<Arg>)
    requires DistinctKinds(xs) && DistinctKinds(ys)
    requires forall x :: x in xs <==> x in ys
    ensures StylesOf(xs) == StylesOf(ys)
  {
    if i :| 0 <= i < |xs| && xs[i].StyleArg? {
      assert xs[i] in ys;
    } else {
      forall j | 0 <= j < |ys| ensures !ys[j].StyleArg? {
        assert ys[j] in xs;
      }
    }
  }

  /**
   * The constructor a `tag!` invocation generates (`$func_name`): resolves
   * its argument and names the node after the function.
   */
  function MakeNode(name: string, s: Shape): (t: UnitTag)
    requires Accepted(s)
    ensures t.tag == name
    ensures t.children == Resolve(s).children
    ensures t.props == Resolve(s).props && t.on == Resolve(s).on && t.style == Resolve(s).style
  {
    var r := Resolve(s);
    UnitTag(name, r.props, r.on, r.style, r.children)
  }

  /** `Tag::name` of a constructed node is the name of the function that built it. */
  lemma MadeNodeName(name: string, s: Shape)
    requires Accepted(s)
    ensures Name(Unit(MakeNode(name, s))) == name
  {
  }

  /**
   * `From<(&'static str, ...containers, C)> for UnitTag`: the 16 tuples of a
   * tag name, zero to three distinct containers and a children value give
   * the node that the generic constructor gives for the same arguments.
   */
  function FromTuple(name: string, args: seq<Arg>, children: seq<Child>): (t: UnitTag)
    requires |args| <= 3 && DistinctKinds(args)
    ensures t == MakeNode(name, Shape(args, Some(children)))
  {
    UnitTag(name, PropsOf(args), HandlersOf(args), StylesOf(args), children)
  }

  /**
   * `From<(TA, TB)>` for the per-tag wrapper: two nodes become the children,
   * every container is empty.
   */
  function FromPair(name: string, a: Child, b: Child): (t: UnitTag)
    ensures t == MakeNode(name, Shape([], Some([a, b])))
  {
    UnitTag(name, NoProps, NoHandlers, NoStyle, [a, b])
  }

  /**
   * Passing a container to the constructor is the same as building without
   * it and then calling the matching builder.
   */
  lemma {:induction false} ArgumentMatchesBuilder(name: string, s: Shape, a: Arg)
    requires Accepted(s) && |s.args| < 3
    requires forall i :: 0 <= i < |s.args| ==> KindOf(s.args[i]) != KindOf(a)
    ensures Accepted(Shape(s.args + [a], s.children))
    ensures MakeNode(name, Shape(s.args + [a], s.children)) ==
      match a
      case PropArg(p) => WithProps(MakeNode(name, s), p)
      case HandlerArg(h) => WithHandlers(MakeNode(name, s), h)
      case StyleArg(st) => WithStyle(MakeNode(name, s), st)
  {
    var args := s.args + [a];
    assert forall i :: 0 <= i < |s.args| ==> args[i] == s.args[i];
    assert args[|s.args|] == a;
    assert DistinctKinds(args);
    AppendArg(s.args, a);
  }

  /** Appending a container of a kind not yet supplied sets that kind's field and keeps the others. */
  lemma AppendArg(xs: seq<Arg>, a: Arg)
    requires DistinctKinds(xs + [a])
    ensures PropsOf(xs + [a]) == if a.PropArg? then a.props else PropsOf(xs)
    ensures HandlersOf(xs + [a]) == if a.HandlerArg? then a.on else HandlersOf(xs)
    ensures StylesOf(xs + [a]) == if a.StyleArg? then a.style else StylesOf(xs)
  {
    var args := xs + [a];
    assert forall i :: 0 <= i < |xs| ==> args[i] == xs[i];
    assert args[|xs|] == a;
    assert DistinctKinds(xs);
    if !a.PropArg? {
      if i :| 0 <= i < |xs| && xs[i].PropArg? {
      } else {
        assert forall i :: 0 <= i < |args| ==> !args[i].PropArg?;
      }
    }
    if !a.HandlerArg? {
      if i :| 0 <= i < |xs| && xs[i].HandlerArg? {
      } else {
        assert forall i :: 0 <= i < |args| ==> !args[i].HandlerArg?;
      }
    }
    if !a.StyleArg? {
      if i :| 0 <= i < |xs| && xs[i].StyleArg? {
      } else {
        assert forall i :: 0 <= i < |args| ==> !args[i].StyleArg?;
      }
    }
  }
}
