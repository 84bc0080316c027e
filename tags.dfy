/**
 * The node type of the library: a `UnitTag` carries its tag name, three
 * attribute containers and an ordered list of children. Containers are
 * the newtypes `TagProp`, `TagStyle` and `TagHandler` around a map from
 * string to string.
 */
module Tags {
  import opened Dict

  /** Generic attributes: name to value; an empty value is a presence-only attribute. */
  datatype TagProp = TagProp(entries: Pairs)

  /** Inline style declarations: CSS property to value. */
  datatype TagStyle = TagStyle(entries: Pairs)

  /** Event bindings: event name to the name of a handler. */
  datatype TagHandler = TagHandler(entries: Pairs)

  /** `UnitTag { tag, props, on, style, children }`. */
  datatype UnitTag = UnitTag(tag: string, props: TagProp, on: TagHandler, style: TagStyle, children: seq<Child>)

  /**
   * A boxed child. `Unit` is a `UnitTag` (or one of the per-tag wrappers,
   * which delegate to it); `Leaf` stands for any other implementor of the
   * `Tag` trait, whose name and output are taken as given.
   */
  datatype Child = Unit(node: UnitTag) | Leaf(name: string, rendered: string)

  /** `Default::default()` for each container: the empty map. */
  const NoProps := TagProp([])
  const NoStyle := TagStyle([])
  const NoHandlers := TagHandler([])

  /** `Tag::name`: the name the node was built with. */
  function Name(c: Child): string {
    match c
    case Unit(t) => t.tag
    case Leaf(name, _) => name
  }

  /** `UnitTag::props`: replaces the attribute map and nothing else. */
  function WithProps(t: UnitTag, props: TagProp): (r: UnitTag)
    ensures r.props == props
    ensures r.tag == t.tag && r.on == t.on && r.style == t.style && r.children == t.children
  {
    t.(props := props)
  }

  /** `UnitTag::style`: replaces the style map and nothing else. */
  function WithStyle(t: UnitTag, style: TagStyle): (r: UnitTag)
    ensures r.style == style
    ensures r.tag == t.tag && r.props == t.props && r.on == t.on && r.children == t.children
  {
    t.(style := style)
  }

  /** `UnitTag::on`: replaces the handler map and nothing else. */
  function WithHandlers(t: UnitTag, on: TagHandler): (r: UnitTag)
    ensures r.on == on
    ensures r.tag == t.tag && r.props == t.props && r.style == t.style && r.children == t.children
  {
    t.(on := on)
  }

  /** Builders on different containers commute, so a chain of them may be written in any order. */
  lemma BuildersCommute(t: UnitTag, p: TagProp, s: TagStyle, h: TagHandler)
    ensures WithStyle(WithProps(t, p), s) == WithProps(WithStyle(t, s), p)
    ensures WithHandlers(WithProps(t, p), h) == WithProps(WithHandlers(t, h), p)
    ensures WithHandlers(WithStyle(t, s), h) == WithStyle(WithHandlers(t, h), s)
  {
  }

  /** A second call to the same builder discards the first one's value. */
  lemma BuildersOverwrite(t: UnitTag, p1: TagProp, p2: TagProp, s1: TagStyle, s2: TagStyle, h1: TagHandler, h2: TagHandler)
    ensures WithProps(WithProps(t, p1), p2) == WithProps(t, p2)
    ensures WithStyle(WithStyle(t, s1), s2) == WithStyle(t, s2)
    ensures WithHandlers(WithHandlers(t, h1), h2) == WithHandlers(t, h2)
  {
  }
}
