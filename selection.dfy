/**
 * The search all three strategies share: sort the candidates by a two-part
 * key (a value, larger first, then a whole number, smaller first), then take
 * the first candidate that passes a test (here, affordability).
 */
module SortedSelection {
  import opened Wrappers

  /** A sort key: `major` descending, ties broken by `minor` ascending. */
  datatype SortKey = SortKey(major: real, minor: int)

  /** Key `x` sorts strictly ahead of key `y`. */
  predicate Ahead(x: SortKey, y: SortKey) {
    x.major > y.major || (x.major == y.major && x.minor < y.minor)
  }

  /**
   * The first element of `xs`, in the order of the keys, that satisfies
   * `ok`: every element whose key sorts strictly ahead of it fails `ok`.
   */
  function FirstInOrder<T>(xs: seq<T>, key: T -> SortKey, ok: T -> bool): (r: Option<T>)
    ensures r.None? <==> forall x :: x in xs ==> !ok(x)
    ensures r.Some? ==> r.value in xs && ok(r.value)
    ensures r.Some? ==> forall x :: x in xs && Ahead(key(x), key(r.value)) ==> !ok(x)
  {
    if xs == [] then None
    else
      var rest := FirstInOrder(xs[1..], key, ok);
      assert forall x :: x in xs ==> x == xs[0] || x in xs[1..];
      if !ok(xs[0]) then rest
      else if rest.None? || !Ahead(key(rest.value), key(xs[0])) then Some(xs[0])
      else rest
  }
}
