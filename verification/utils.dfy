/**
 * The lookup helper of src/utils.js and the list `map` the projections are
 * built from. Records are looked up through an `idOf` accessor, which plays
 * the part of reading the `id` property.
 */
module Utils {
  import opened Wrappers

  /** Ramda's `map`: one result per element, in the same order. */
  function MapSeq<A, B>(f: A -> B, xs: seq<A>): (r: seq<B>)
    ensures |r| == |xs|
    ensures forall i :: 0 <= i < |xs| ==> r[i] == f(xs[i])
  {
    if xs == [] then [] else [f(xs[0])] + MapSeq(f, xs[1..])
  }

  /** Position of the first element whose id is `id`, or |xs| when there is none. */
  function IndexById<T>(id: int, xs: seq<T>, idOf: T -> int): (k: nat)
    ensures k <= |xs|
    ensures k < |xs| ==> idOf(xs[k]) == id
    ensures forall j :: 0 <= j < k ==> idOf(xs[j]) != id
  {
    if xs == [] then 0
    else if idOf(xs[0]) == id then 0
    else 1 + IndexById(id, xs[1..], idOf)
  }

  /**
   * `findById(id, xs)`: the first element of xs whose id is `id`, or an
   * explicit absence when no element has it.
   */
  function FindById<T>(id: int, xs: seq<T>, idOf: T -> int): (r: Option<T>)
    ensures r.Some? ==> idOf(r.value) == id && r.value in xs
    ensures r.None? <==> forall j :: 0 <= j < |xs| ==> idOf(xs[j]) != id
    ensures r.Some? <==> IndexById(id, xs, idOf) < |xs|
    ensures r.Some? ==> r.value == xs[IndexById(id, xs, idOf)]
  {
    if xs == [] then None
    else if idOf(xs[0]) == id then Some(xs[0])
    else FindById(id, xs[1..], idOf)
  }

  /** No two elements of xs share an id. */
  ghost predicate UniqueIds<T>(xs: seq<T>, idOf: T -> int)
  {
    forall i, j :: 0 <= i < j < |xs| ==> idOf(xs[i]) != idOf(xs[j])
  }

  /**
   * Looking up in a list extended at its end: a lookup that succeeds on the
   * prefix keeps its answer, and one that fails there is answered by the suffix.
   */
  lemma {:induction false} FindByIdConcat<T>(id: int, xs: seq<T>, ys: seq<T>, idOf: T -> int)
    ensures FindById(id, xs + ys, idOf)
         == if FindById(id, xs, idOf).Some? then FindById(id, xs, idOf) else FindById(id, ys, idOf)
  {
    if xs == [] {
      assert xs + ys == ys;
    } else {
      assert (xs + ys)[0] == xs[0];
      assert (xs + ys)[1..] == xs[1..] + ys;
      FindByIdConcat(id, xs[1..], ys, idOf);
    }
  }

  /** With unique ids, looking up an element's own id finds that element. */
  lemma FindByIdUnique<T>(xs: seq<T>, idOf: T -> int, k: nat)
    requires UniqueIds(xs, idOf)
    requires k < |xs|
    ensures FindById(idOf(xs[k]), xs, idOf) == Some(xs[k])
  {
    var j := IndexById(idOf(xs[k]), xs, idOf);
    assert j <= k;
  }

  /**
   * Two lists whose ids agree position by position answer every lookup at
   * the same position; this is what carries a lookup through a projection
   * that keeps each element's id.
   */
  lemma {:induction false} IndexByIdPointwise<A, B>(id: int, xs: seq<A>, idA: A -> int, ys: seq<B>, idB: B -> int)
    requires |xs| == |ys|
    requires forall i :: 0 <= i < |xs| ==> idA(xs[i]) == idB(ys[i])
    ensures IndexById(id, xs, idA) == IndexById(id, ys, idB)
  {
    if xs != [] {
      assert idA(xs[0]) == idB(ys[0]);
      IndexByIdPointwise(id, xs[1..], idA, ys[1..], idB);
    }
  }
}
