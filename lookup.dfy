// Lookup by id over a collection, as `Array.prototype.find` does it: the
// first record whose id matches, or nothing.
module Lookup {
  import opened Results

  /** No two records of `xs` share an id. */
  predicate DistinctIds<T>(xs: seq<T>, idOf: T -> string) {
    forall i, j :: 0 <= i < j < |xs| ==> idOf(xs[i]) != idOf(xs[j])
  }

  /** Some record of `xs` has id `id`. */
  predicate HasId<T>(xs: seq<T>, idOf: T -> string, id: string) {
    exists k :: 0 <= k < |xs| && idOf(xs[k]) == id
  }

  /** `r` is what `xs.find(x => idOf(x) === id)` returns: the first record
      with that id, or nothing when no record has it. */
  ghost predicate FirstMatch<T>(xs: seq<T>, idOf: T -> string, id: string, r: Option<T>) {
    match r
    case None => forall j :: 0 <= j < |xs| ==> idOf(xs[j]) != id
    case Some(x) => exists k :: FirstIndex(xs, idOf, id, k) && xs[k] == x
  }

  /** `k` is the index of the first record of `xs` with id `id`. */
  ghost predicate FirstIndex<T>(xs: seq<T>, idOf: T -> string, id: string, k: int) {
    0 <= k < |xs| && idOf(xs[k]) == id && forall j :: 0 <= j < k ==> idOf(xs[j]) != id
  }

  /** `Array.prototype.find` by id: a linear scan, never an error. */
  function Find<T>(xs: seq<T>, idOf: T -> string, id: string): (r: Option<T>)
    ensures FirstMatch(xs, idOf, id, r)
  {
    if xs == [] then None
    else if idOf(xs[0]) == id then Some(xs[0])
    else
      var r := Find(xs[1..], idOf, id);
      assert r.Some? ==> exists k :: FirstIndex(xs, idOf, id, k) && xs[k] == r.value by {
        if r.Some? {
          var k :| FirstIndex(xs[1..], idOf, id, k) && xs[1..][k] == r.value;
          assert xs[k + 1] == r.value;
          forall j | 0 <= j < k + 1 ensures idOf(xs[j]) != id {
            if j > 0 { assert xs[j] == xs[1..][j - 1]; }
          }
          assert FirstIndex(xs, idOf, id, k + 1);
        }
      }
      r
  }

  /** There is only one first match: `find` is determined by the data. */
  lemma FirstMatchUnique<T>(xs: seq<T>, idOf: T -> string, id: string, r1: Option<T>, r2: Option<T>)
    requires FirstMatch(xs, idOf, id, r1) && FirstMatch(xs, idOf, id, r2)
    ensures r1 == r2
  {
    if r1.Some? && r2.Some? {
      var k1 :| FirstIndex(xs, idOf, id, k1) && xs[k1] == r1.value;
      var k2 :| FirstIndex(xs, idOf, id, k2) && xs[k2] == r2.value;
      assert !(k1 < k2) && !(k2 < k1);
    }
  }

  /** When ids are distinct, looking up a record's own id finds that record. */
  lemma FindDistinct<T>(xs: seq<T>, idOf: T -> string, k: int)
    requires 0 <= k < |xs|
    requires DistinctIds(xs, idOf)
    ensures Find(xs, idOf, idOf(xs[k])) == Some(xs[k])
  {
    assert FirstIndex(xs, idOf, idOf(xs[k]), k);
    FirstMatchUnique(xs, idOf, idOf(xs[k]), Find(xs, idOf, idOf(xs[k])), Some(xs[k]));
  }
}
