/**
 An array whose members know their own position, so that any of them can be removed in constant
 time by moving the last one into its place.  The IOKernel keeps the active kthreads of a process
 (`active_threads` with `at_idx`) and the polled kthreads (`ts` with `ts_idx`) this way.
 */
module SwapArray {

  /** The used prefix of the array, and the position field of each member. */
  datatype SwapArray<T(==)> = SwapArray(items: seq<T>, pos: map<T, nat>) {

    predicate Valid() {
      && (forall j :: 0 <= j < |items| ==> items[j] in pos && pos[items[j]] == j)
      && (forall x :: x in pos ==> pos[x] < |items| && items[pos[x]] == x)
    }

    function Add(x: T): (r: SwapArray<T>)
      requires Valid() && x !in pos
      ensures r.Valid() && r.pos.Keys == pos.Keys + {x} && |r.items| == |items| + 1
    {
      SwapArray(items + [x], pos[x := |items|])
    }

    /** The last member takes the place, and the position, of the one removed. */
    function Remove(x: T): (r: SwapArray<T>)
      requires Valid() && x in pos
      ensures r.Valid() && r.pos.Keys == pos.Keys - {x} && |r.items| == |items| - 1
    {
      var i, last := pos[x], items[|items| - 1];
      SwapArray(items[i := last][..|items| - 1], pos[last := i] - {x})
    }
  }

  /** Positions are exact, so no member occurs twice. */
  lemma NoDuplicates<T(!new)>(a: SwapArray<T>)
    requires a.Valid()
    ensures forall i, j :: 0 <= i < j < |a.items| ==> a.items[i] != a.items[j]
    ensures forall x :: x in a.items <==> x in a.pos
  {
    assert forall x :: x in a.items ==> x in a.pos;
  }
}
