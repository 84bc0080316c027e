/**
 * The `prop!` macro: builds a `TagProp` from a list of entries
 * `name-part-...-part [= value]`. The name is its parts joined with `-`; a
 * name that starts with `on` or equals `style` aborts construction, since
 * handlers and styles have their own containers.
 */
module PropMacro {
  import opened Wrappers
  import opened Dict
  import opened Tags

  /** One entry of the macro: the tokens of its name and its value, if one was given. */
  datatype PropEntry = PropEntry(nameParts: seq<string>, value: Option<string>)

  /** Why construction was aborted (the two `panic!` calls). */
  datatype PropError = HandlerName(key: string) | StyleName

  /** `parts.join(sep)`. */
  function Join(parts: seq<string>, sep: string): string {
    if |parts| == 0 then ""
    else if |parts| == 1 then parts[0]
    else parts[0] + sep + Join(parts[1..], sep)
  }

  /** The attribute name an entry stands for. */
  function Key(e: PropEntry): string {
    Join(e.nameParts, "-")
  }

  /** `str::starts_with`. */
  predicate StartsWith(s: string, prefix: string) {
    |prefix| <= |s| && s[..|prefix|] == prefix
  }

  /** The value an entry stores: its own, or the empty string when it has none. */
  function StoredValue(e: PropEntry): string {
    if e.value.Some? then e.value.value else ""
  }

  /** The error a key raises, if it is reserved. */
  function Check(key: string): (r: Option<PropError>)
    ensures r.None? <==> !StartsWith(key, "on") && key != "style"
  {
    if StartsWith(key, "on") then Some(HandlerName(key))
    else if key == "style" then Some(StyleName)
    else None
  }

  /**
   * What `prop!(entries)` evaluates to: the entries are checked and
   * inserted in order, and the first reserved name aborts the whole
   * construction. `prop!()` gives the empty map.
   */
  function Props(es: seq<PropEntry>): Result<TagProp, PropError> {
    if es == [] then Success(NoProps)
    else
      var last := es[|es| - 1];
      match Props(es[..|es| - 1])
      case Failure(err) => Failure(err)
      case Success(p) =>
        var key := Key(last);
        match Check(key)
        case Some(err) => Failure(err)
        case None => Success(TagProp(Insert(p.entries, key, StoredValue(last))))
  }

  /** The value the last entry named `k` stores, if any entry is named `k`. */
  function LastValue(es: seq<PropEntry>, k: string): Option<string> {
    if es == [] then None
    else if Key(es[|es| - 1]) == k then Some(StoredValue(es[|es| - 1]))
    else LastValue(es[..|es| - 1], k)
  }

  /** An entry whose name the macro rejects. */
  predicate Reserved(e: PropEntry) {
    Check(Key(e)).Some?
  }

  /** Construction fails exactly when some entry has a reserved name. */
  lemma {:induction false} PropsFailsIffReserved(es: seq<PropEntry>)
    ensures Props(es).Failure? <==> exists i :: 0 <= i < |es| && Reserved(es[i])
  {
    if es != [] {
      PropsFailsIffReserved(es[..|es| - 1]);
      PropsStep(es);
      ReservedSplit(es, es[..|es| - 1]);
    }
  }

  /** A reserved entry is in the prefix or is the last one. */
  lemma ReservedSplit(es: seq<PropEntry>, init: seq<PropEntry>)
    requires es != [] && init == es[..|es| - 1]
    ensures (exists i :: 0 <= i < |es| && Reserved(es[i])) <==>
      (exists i :: 0 <= i < |init| && Reserved(init[i])) || Reserved(es[|es| - 1])
  {
    if i :| 0 <= i < |es| && Reserved(es[i]) {
      if i < |init| {
        assert init[i] == es[i];
      }
    }
    if i :| 0 <= i < |init| && Reserved(init[i]) {
      assert es[i] == init[i];
    }
  }

  /** One step of `Props`: the last entry fails the construction or is inserted. */
  lemma PropsStep(es: seq<PropEntry>)
    requires es != []
    ensures Props(es).Failure? <==> Props(es[..|es| - 1]).Failure? || Reserved(es[|es| - 1])
  {
  }

  /** On failure the error is the one raised by the first reserved name. */
  lemma {:induction false} PropsFailsAtFirstReserved(es: seq<PropEntry>, i: nat)
    requires i < |es| && Reserved(es[i])
    requires forall j :: 0 <= j < i ==> !Reserved(es[j])
    ensures Props(es) == Failure(Check(Key(es[i])).value)
  {
    var init := es[..|es| - 1];
    if i < |es| - 1 {
      assert init[i] == es[i];
      assert forall j :: 0 <= j < i ==> init[j] == es[j];
      PropsFailsAtFirstReserved(init, i);
    } else {
      PropsFailsIffReserved(init);
    }
  }

  /**
   * On success the map holds exactly the named keys, each with the value of
   * the last entry of that name (a later entry overwrites an earlier one),
   * and no key twice.
   */
  lemma {:induction false} PropsStoresLastValue(es: seq<PropEntry>)
    requires Props(es).Success?
    ensures DistinctKeys(Props(es).value.entries)
    ensures forall k :: Get(Props(es).value.entries, k) == LastValue(es, k)
  {
    if es != [] {
      PropsStoresLastValue(es[..|es| - 1]);
    }
  }

  /**
   * The macro's expansion: one block per entry, each checking the key,
   * then inserting the value or, when the `no_value` flag stayed set, the
   * empty string.
   */
  method BuildProps(es: seq<PropEntry>) returns (r: Result<TagProp, PropError>)
    ensures r == Props(es)
  {
    var props: Pairs := [];
    var i := 0;
    while i < |es|
      invariant 0 <= i <= |es|
      invariant Props(es[..i]) == Success(TagProp(props))
    {
      var e := es[i];
      assert es[..i + 1][..i] == es[..i];
      var key := Join(e.nameParts, "-");
      if StartsWith(key, "on") {
        ResultFailsForPrefix(es, i + 1);
        return Failure(HandlerName(key));
      } else if key == "style" {
        ResultFailsForPrefix(es, i + 1);
        return Failure(StyleName);
      }
      var noValue := true;
      if e.value.Some? {
        noValue := false;
        props := Insert(props, key, e.value.value);
      }
      if noValue {
        props := Insert(props, key, "");
      }
      i := i + 1;
    }
    assert es[..i] == es;
    r := Success(TagProp(props));
  }

  /** Once a prefix of the entries fails, so do all of them. */
  lemma {:induction false} ResultFailsForPrefix(es: seq<PropEntry>, n: nat)
    requires n <= |es| && Props(es[..n]).Failure?
    ensures Props(es) == Props(es[..n])
  {
    if n < |es| {
      assert es[..|es| - 1][..n] == es[..n];
      ResultFailsForPrefix(es[..|es| - 1], n);
    } else {
      assert es[..n] == es;
    }
  }
}
