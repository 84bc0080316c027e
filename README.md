# rtml tags: a Dafny model

This project models the tag layer of the `rtml` crate (`crates/rtml/src/tags.rs`) of the rsx
repository. That layer builds HTML element nodes from Rust calls and renders them to text.

- The `prop!` macro turns `name-part-... [= value]` entries into a `TagProp` map. It refuses
  names that start with `on` and the name `style`, because handlers and styles have their own
  containers.
- The per-tag constructors (`div(...)`, `ul(...)` and the other `tag!` expansions) accept up to
  three containers, at most one of each kind and in any order, optionally followed by a children
  value, which always comes last. Each container lands in its field of a `UnitTag`.
- The builders `props`, `style` and `on` replace one container.
- `UnitTag::format` writes a node into a `String` through a `TagFormatter`. The formatter holds
  the tab size, the indent level, the width, the layout switch `newline_on_prop` and the line
  separator. `Display` formats with the default formatter.

The model keeps the renderer's behaviour exactly as the code writes it:

- the separator always follows the `>` of the opening tag, so an empty `div` is
  `<div id="x">\n</div>\n`;
- in the one-attribute-per-line layout, attribute lines are padded with `pad + 1` spaces, and an
  extra run of `pad + 1` spaces starts the block;
- the style line has no separator after it, so the first handler follows it on the same line;
- in that layout `>` is followed by two separators;
- nothing is escaped.

An element is therefore never written on one line: `<div id="x"></div>` does not occur, because
the closing tag always starts a new line after the opening tag's separator.

Modules:

- `Wrappers` holds `Option` and `Result`.
- `Dict` models a `HashMap<String, String>` as a key-distinct pair sequence. Its order stands
  for the map's iteration order.
- `Tags` holds the node, the containers and the builders.
- `PropMacro` holds the `prop!` macro, as a function `Props` and as the method `BuildProps` that
  follows the expansion step by step.
- `Resolver` holds the `From` impls of the argument structs and the tuples, and the generic
  constructor.
- `Rendering` holds the pure renderer `Render`.
- `Formatter` holds the `TagFormatter` class and the imperative `Format`, with `buf` as an
  in/out string. It is proved to write exactly `Render`.
- `Examples` holds concrete nodes with the exact text they produce.

The pure `Render` is the specification that `Format` is proved against. The properties proved of
it are stated as lemmas.

## Model

| member | source | states |
|---|---|---|
| Dict.Insert | crates/rtml/src/tags.rs:20-27 | after `insert` the key maps to the new value, every other key keeps its value, the key set gains the key, and distinct keys stay distinct |
| PropMacro.Check | crates/rtml/src/tags.rs:13-19 | a key is refused exactly when it starts with `on` or equals `style` |
| PropMacro.Props | crates/rtml/src/tags.rs:10-35 | what `prop!` evaluates to; its properties are stated by `PropsFailsIffReserved`, `PropsFailsAtFirstReserved`, `PropsStoresLastValue` and `BuildProps` |
| PropMacro.PropsFailsIffReserved | crates/rtml/src/tags.rs:10-35 | `prop!` fails exactly when some entry's joined name is reserved |
| PropMacro.PropsFailsAtFirstReserved | crates/rtml/src/tags.rs:12-19 | the error is the one raised by the first reserved entry, in entry order |
| PropMacro.PropsStoresLastValue | crates/rtml/src/tags.rs:20-29 | on success each key maps to the value of its last entry (`""` when that entry has no value), and keys are distinct |
| PropMacro.PropsStep | crates/rtml/src/tags.rs:12-29 | adding an entry fails the construction exactly when the prefix failed or the new entry is reserved |
| PropMacro.ResultFailsForPrefix | crates/rtml/src/tags.rs:15-18 | once a prefix of the entries fails, the whole list fails with the same error (the panic aborts the macro) |
| PropMacro.BuildProps | crates/rtml/src/tags.rs:10-35 | the step-by-step expansion, with its `no_value` flag, returns exactly `Props` of the entries |
| Tags.Name | crates/rtml/src/tags.rs:78-80 | `name` of a node is its tag; stated for constructed nodes by `Resolver.MadeNodeName` |
| Tags.WithProps | crates/rtml/src/tags.rs:336-341 | `props` replaces the attribute map and keeps tag, handlers, style and children |
| Tags.WithStyle | crates/rtml/src/tags.rs:343-347 | `style` replaces the style map and keeps everything else |
| Tags.WithHandlers | crates/rtml/src/tags.rs:349-353 | `on` replaces the handler map and keeps everything else |
| Tags.BuildersCommute | crates/rtml/src/tags.rs:794-812 | builders on different containers commute |
| Tags.BuildersOverwrite | crates/rtml/src/tags.rs:794-812 | a second call to the same builder discards the first value |
| Resolver.Accepted | crates/rtml/src/tags.rs:470-791 | the 31 argument shapes that have a `From` impl: a bare children value, or one to three containers of distinct kinds with or without a trailing children value |
| Resolver.PropsOf | crates/rtml/src/tags.rs:470-791 | the `props` field is the `TagProp` argument wherever it stands, or empty when there is none |
| Resolver.HandlersOf | crates/rtml/src/tags.rs:470-791 | the `on` field is the `TagHandler` argument wherever it stands, or empty when there is none |
| Resolver.StylesOf | crates/rtml/src/tags.rs:470-791 | the `style` field is the `TagStyle` argument wherever it stands, or empty when there is none |
| Resolver.Resolve | crates/rtml/src/tags.rs:470-791 | for each of the 31 accepted call shapes, each container lands in its own field, missing ones are empty, and a call without children has none |
| Resolver.ResolveOrderIndependent | crates/rtml/src/tags.rs:514-791 | two calls with the same containers in any order and the same children give the same record |
| Resolver.AppendArg | crates/rtml/src/tags.rs:470-791 | appending a container of a new kind sets that field and keeps the other two |
| Resolver.ArgumentMatchesBuilder | crates/rtml/src/tags.rs:794-825 | passing a container to the constructor equals building without it and then calling the matching builder |
| Resolver.MakeNode | crates/rtml/src/tags.rs:815-825 | the constructor names the node after the function and copies the resolved children and containers |
| Resolver.MadeNodeName | crates/rtml/src/tags.rs:78-80 | `name` of a constructed node is the constructor's name |
| Resolver.FromTuple | crates/rtml/src/tags.rs:154-334 | the 16 `From<(&str, ..., C)>` tuples give the node the generic constructor gives for the same arguments |
| Resolver.FromPair | crates/rtml/src/tags.rs:450-461 | a pair of nodes becomes the two children, with empty containers |
| Rendering.Spaces | crates/rtml/src/tags.rs:84 | the padding for width `n` is exactly `n` spaces |
| Rendering.PadSize | crates/rtml/src/tags.rs:382-384 | `pad_size` is the indent level times the tab size; its properties are stated by `PadSizeLevels` |
| Rendering.PadSizeLevels | crates/rtml/src/tags.rs:382-384 | level 0 has no padding and each level adds one tab |
| Rendering.RunIsTokens | crates/rtml/src/tags.rs:89-129 | a container loop writes one token per entry, and those tokens concatenated in iteration order are exactly its output |
| Rendering.TokenSetOrderIndependent | crates/rtml/src/tags.rs:114-129 | the set of tokens written does not depend on the map's iteration order |
| Rendering.LineAttrs | crates/rtml/src/tags.rs:85-112 | the one-attribute-per-line block; what it writes is stated by `Examples.LineLayout` and `Formatter.WriteLineAttrs` |
| Rendering.CompactAttrs | crates/rtml/src/tags.rs:113-132 | the compact attribute run; its token structure is stated by `CompactAttrsTokens` |
| Rendering.Render | crates/rtml/src/tags.rs:82-142 | the specification of `format`; its properties are stated by `RenderFraming`, `ChildrenInOrder`, `ChildlessCompact` and `Formatter.Format` |
| Rendering.CompactAttrsTokens | crates/rtml/src/tags.rs:113-132 | compact attributes: the props, then a `style` attribute only when styles are present, then handlers, then `>` |
| Rendering.CompactPropTokens | crates/rtml/src/tags.rs:114-120 | an empty value gives a bare name, any other gives `name="value"` |
| Rendering.ChildrenInOrder | crates/rtml/src/tags.rs:134-138 | children are written in order, each one level deeper than the parent |
| Rendering.RenderFraming | crates/rtml/src/tags.rs:83-140 | the output starts with the pad and `<tag`, and ends with the pad, `</tag>` and the separator |
| Rendering.ChildlessCompact | crates/rtml/src/tags.rs:113-140 | a childless compact node is the opening tag, a separator, the closing tag and a separator |
| Formatter.TagFormatter.Default | crates/rtml/src/tags.rs:369-379 | the default formatter has tab 4, indent 0, width 120, the compact layout and `"\n"` |
| Formatter.TagFormatter.constructor | crates/rtml/src/tags.rs:360-367 | a formatter literal holds the given fields |
| Formatter.TagFormatter.PadSize | crates/rtml/src/tags.rs:381-385 | `pad_size` is the pad of the formatter's settings at its current level |
| Formatter.WriteRun | crates/rtml/src/tags.rs:89-96 | a container loop appends exactly the loop's tokens to the buffer |
| Formatter.WriteStyleAttr | crates/rtml/src/tags.rs:97-104 | the style block is appended only for a non-empty style map |
| Formatter.WriteLineAttrs | crates/rtml/src/tags.rs:85-112 | the line-layout branch appends exactly the line attribute block |
| Formatter.WriteCompactAttrs | crates/rtml/src/tags.rs:113-132 | the compact branch appends exactly the compact attribute run |
| Formatter.WriteOpenTag | crates/rtml/src/tags.rs:83-133 | given the pad read on entry, appends exactly the opening tag, its attributes and the separator after it |
| Formatter.WriteCloseTag | crates/rtml/src/tags.rs:139-140 | appends the closing tag and its separator at the given pad, which `Format` reads once before the opening tag |
| Formatter.Format | crates/rtml/src/tags.rs:82-142 | `format` appends exactly `Render` of the node at the entry level and restores the indent |
| Formatter.FormatNested | crates/rtml/src/tags.rs:134-138 | the children are written one level deeper, and the level is restored |
| Formatter.FormatChildren | crates/rtml/src/tags.rs:135-137 | the loop appends the children's text in order |
| Formatter.FormatChild | crates/rtml/src/tags.rs:136 | one child appends its own text |
| Formatter.Display | crates/rtml/src/tags.rs:145-151 | `Display` is `Render` with the default settings at level 0 |
| Examples.DivWithIdBuilt | crates/rtml/src/tags.rs:815-825 | `div(prop!(id = "x"))` gives a `div` whose props are `{id: x}` |
| Examples.DivWithIdText | crates/rtml/src/tags.rs:113-140 | that node renders as `<div id="x">\n</div>\n` |
| Examples.EmptyBr | crates/rtml/src/tags.rs:131-140 | an empty `br` still gets a closing tag: `<br>\n</br>\n` |
| Examples.NestedListBuilt | crates/rtml/src/tags.rs:470-479 | `ul((li(()), li(())))`: the pair is the children value of `From<C>`, so the constructor gives a `ul` with the two `li` as children, the same node as the pair conversion of lines 450-461 |
| Examples.NestedListText | crates/rtml/src/tags.rs:133-140 | at tab 2 each `li` is indented by two spaces inside `<ul>` |
| Examples.BareAttributeBuilt | crates/rtml/src/tags.rs:13-27 | `prop!(data-hidden)` joins the name with `-` and stores `""` |
| Examples.BareAttributeText | crates/rtml/src/tags.rs:114-117 | a presence-only attribute is written as its bare name |
| Examples.HandlerNameRefused | crates/rtml/src/tags.rs:15-16 | `prop!(onclick = ...)` is refused |
| Examples.OnPrefixRefused | crates/rtml/src/tags.rs:15-16 | any name starting with `on` is refused, as in `one-time` |
| Examples.StyleNameRefused | crates/rtml/src/tags.rs:17-18 | `prop!(style = ...)` is refused |
| Examples.LineLayout | crates/rtml/src/tags.rs:85-112 | the line layout: extra leading pad, `pad + 1` attribute lines, no separator after the style, two separators after `>` |

## Left out

- The `on!` macro is not modelled. As written it refers to `props` where it means `handlers`
  (line 49), so it does not compile. `TagHandler` values are taken as given.
- `max_width` is stored in `FormatConfig` and `TagFormatter` but never read, as in the source.
- `fmt::Result` propagation is left out: writing to a `String` cannot fail, so every `?` is
  taken to succeed.
- `Rendering.PadSize`: `indent * tab_size` and `f.indent += 1` are unbounded here; the
  `usize` overflow of the source is not modelled.
- The iteration order of `HashMap` is unspecified. The model takes it to be the order of the
  pair sequence. `Dict.Insert` fixes one admissible order: a new key is appended and a present
  key is updated in place. Order-dependent output is stated for that order, and
  `TokenSetOrderIndependent` states what holds for every order.
- `Children`, `InnerChildren` and the `Tag` trait are defined outside this file and are not
  part of this model. A child that is not a `UnitTag` is a `Leaf` with a given name and a given
  output: it writes that fixed string, and it neither reads nor changes `f.indent`.
- `Into<Children>` for a pair `(TA, TB)` is taken to give the two nodes in order, and `()` is
  taken to give no children. That impl is not part of this model.
- The `$struct` wrapper of each `tag!` expansion delegates `name`, `format` and `Display` to its
  `UnitTag`, and its builders are `UnitTag`'s. The wrapper is the node itself here.
- `x(tag)` (lines 356-358) applies `Into<UnitTag>` to its argument, that is `FromTuple`. It adds
  nothing beyond `FromTuple` and has no member of its own.
- The 100 `tag!` invocations and their documentation strings are not modelled one by one:
  `MakeNode` takes the tag name as a parameter.
- The commented-out impls at lines 419-448 are not modelled.
- `&mut String` is an in/out string parameter of the formatter methods.
- `TagFormatter`'s layout fields are `const` in the class, because `format` reads but never
  writes them. The source's fields are public and mutable.
- Values and names are not escaped by the source, so a value containing `"` or `>` changes
  the structure of the output. The model writes them as they are and proves no property about
  well-formed HTML.
- A `panic!` in `prop!` is a `Failure` result.
