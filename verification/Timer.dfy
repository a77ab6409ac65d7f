/**
 Per-kthread timer heaps: 4-ary min-heaps in arrays, in which every timer knows its own position, so
 that it can be cancelled, and the kthread whose heap it is in.

 A heap's contents are its array up to `timern`.  The operations keep the heap order at every index,
 keep the positions exact, and say which timers they add or take away.
 */
module Timer {
  import opened Prelude

  const D := 4
  const MAX_TIMERS := 4096

  /** struct timer_idx: a deadline and the timer it belongs to. */
  datatype Slot = Slot(deadline: nat, e: nat)

  // ---------------------------------------------------------------- heap order

  function Parent(i: nat): (p: nat)
    requires i > 0
    ensures IsChild(p, i) && p < i
  {
    (i - 1) / D
  }

  predicate IsChild(p: nat, c: nat) {
    D * p + 1 <= c <= D * p + D
  }

  lemma ParentOf(p: nat, c: nat)
    requires IsChild(p, c)
    ensures c > 0 && Parent(c) == p
  {
  }

  predicate InOrder(h: seq<Slot>, p: nat, c: nat) {
    p < |h| && c < |h| ==> h[p].deadline <= h[c].deadline
  }

  /** Heap order below every index from `lo` on. */
  ghost predicate HeapFrom(h: seq<Slot>, lo: nat) {
    forall p, c :: lo <= p && IsChild(p, c) ==> InOrder(h, p, c)
  }

  /** Heap order, except that the slot at `i` may have to move up. */
  ghost predicate UpHole(h: seq<Slot>, i: nat) {
    && (forall p, c :: IsChild(p, c) && c != i ==> InOrder(h, p, c))
    && (i > 0 ==> forall c :: IsChild(i, c) ==> InOrder(h, Parent(i), c))
  }

  /** Heap order from `lo` on, except that the slot at `i` may have to move down. */
  ghost predicate DownHole(h: seq<Slot>, lo: nat, i: nat) {
    && lo <= i
    && (forall p, c :: lo <= p && p != i && IsChild(p, c) ==> InOrder(h, p, c))
    && (i > 0 && Parent(i) >= lo ==> forall c :: IsChild(i, c) ==> InOrder(h, Parent(i), c))
  }

  function Swap(h: seq<Slot>, i: nat, j: nat): (r: seq<Slot>)
    requires i < |h| && j < |h|
    ensures |r| == |h|
  {
    h[i := h[j]][j := h[i]]
  }

  /** The same slots, perhaps in another order. */
  ghost predicate SameSlots(h: seq<Slot>, h': seq<Slot>) {
    multiset(h) == multiset(h')
  }

  /** `h'` has the slots of `h` and `s`. */
  ghost predicate OneMore(h: seq<Slot>, s: Slot, h': seq<Slot>) {
    multiset(h') == multiset(h) + multiset{s}
  }

  lemma MoreAndSame(h: seq<Slot>, s: Slot, h1: seq<Slot>, h': seq<Slot>)
    requires OneMore(h, s, h1) && SameSlots(h1, h')
    ensures OneMore(h, s, h')
  {
  }

  lemma SwapKeeps(h: seq<Slot>, i: nat, j: nat)
    requires i < |h| && j < |h|
    ensures multiset(Swap(h, i, j)) == multiset(h)
  {
    assert h == h[i := h[i]];
  }

  lemma UpStep(h: seq<Slot>, i: nat)
    requires 0 < i < |h| && UpHole(h, i) && h[i].deadline < h[Parent(i)].deadline
    ensures UpHole(Swap(h, i, Parent(i)), Parent(i))
  {
    var p, h' := Parent(i), Swap(h, i, Parent(i));
    forall q, c | IsChild(q, c) && c != p ensures InOrder(h', q, c) {
      ParentOf(q, c);
      assert InOrder(h, q, c) || c == i;
      if q == i {
        assert InOrder(h, p, c);
      }
    }
    if p > 0 {
      forall c | IsChild(p, c) ensures InOrder(h', Parent(p), c) {
        assert InOrder(h, Parent(p), p);
        assert c == i || InOrder(h, p, c);
      }
    }
  }

  lemma UpDone(h: seq<Slot>, i: nat)
    requires i < |h| && UpHole(h, i) && (i > 0 ==> h[Parent(i)].deadline <= h[i].deadline)
    ensures HeapFrom(h, 0)
  {
    forall p, c | IsChild(p, c) ensures InOrder(h, p, c) {
      ParentOf(p, c);
    }
  }

  /** `c` is a child of `i` with the least deadline, which is less than that of `i`. */
  ghost predicate IsLeastChild(h: seq<Slot>, i: nat, c: nat) {
    && IsChild(i, c) && c < |h| && i < |h| && h[c].deadline < h[i].deadline
    && forall j :: IsChild(i, j) ==> InOrder(h, c, j)
  }

  lemma DownStep(h: seq<Slot>, lo: nat, i: nat, c: nat)
    requires i < |h| && DownHole(h, lo, i) && IsLeastChild(h, i, c)
    ensures DownHole(Swap(h, i, c), lo, c)
  {
    var h' := Swap(h, i, c);
    ParentOf(i, c);
    forall p, d | lo <= p && p != c && IsChild(p, d) ensures InOrder(h', p, d) {
      ParentOf(p, d);
      if p == i {
        assert InOrder(h, c, d);
      } else {
        assert InOrder(h, p, d);
        if d == i {
          assert InOrder(h, p, c);
        }
      }
    }
    forall d | IsChild(c, d) ensures InOrder(h', i, d) {
      assert InOrder(h, c, d);
      ParentOf(c, d);
    }
  }

  lemma DownDone(h: seq<Slot>, lo: nat, i: nat)
    requires DownHole(h, lo, i) && forall c :: IsChild(i, c) ==> InOrder(h, i, c)
    ensures HeapFrom(h, lo)
  {
  }

  /** A heap is in order around any of its slots. */
  lemma HeapIsDownHole(h: seq<Slot>, i: nat)
    requires HeapFrom(h, 0) && i < |h|
    ensures DownHole(h, 0, i)
  {
    if i > 0 {
      forall c | IsChild(i, c) ensures InOrder(h, Parent(i), c) {
        assert InOrder(h, Parent(i), i) && InOrder(h, i, c);
      }
    }
  }

  /** The first slot of a heap has the least deadline. */
  lemma {:induction false} RootIsLeast(h: seq<Slot>, i: nat)
    requires HeapFrom(h, 0) && i < |h|
    ensures h[0].deadline <= h[i].deadline
    decreases i
  {
    if i > 0 {
      RootIsLeast(h, Parent(i));
      assert InOrder(h, Parent(i), i);
    }
  }

  // ---------------------------------------------------------------- positions

  /** Every timer in the heap knows its position. */
  ghost predicate Indexed(h: seq<Slot>, idx: map<nat, nat>) {
    forall j :: 0 <= j < |h| ==> h[j].e in idx && idx[h[j].e] == j
  }

  ghost predicate HasTimer(h: seq<Slot>, e: nat) {
    exists j :: 0 <= j < |h| && h[j].e == e
  }

  /** Only timers of the heap have been given new positions. */
  ghost predicate SameElsewhere(h: seq<Slot>, idx: map<nat, nat>, idx': map<nat, nat>) {
    idx'.Keys == idx.Keys && forall e :: e in idx && !HasTimer(h, e) ==> idx'[e] == idx[e]
  }

  lemma SwapIndexed(h: seq<Slot>, idx: map<nat, nat>, i: nat, j: nat)
    requires Indexed(h, idx) && i < |h| && j < |h|
    ensures var h', idx' := Swap(h, i, j), idx[h[j].e := i][h[i].e := j];
      Indexed(h', idx') && SameElsewhere(h, idx, idx')
  {
    var h', idx' := Swap(h, i, j), idx[h[j].e := i][h[i].e := j];
    forall k | 0 <= k < |h| ensures h'[k].e in idx' && idx'[h'[k].e] == k {
      assert idx[h[k].e] == k && idx[h[i].e] == i && idx[h[j].e] == j;
    }
    assert HasTimer(h, h[i].e) && HasTimer(h, h[j].e);
  }

  lemma SamePlaces(h: seq<Slot>, h': seq<Slot>, j: nat)
    requires SameSlots(h, h') && j < |h'|
    ensures HasTimer(h, h'[j].e)
  {
    assert h'[j] in multiset(h');
    assert h'[j] in h;
  }

  /** One swap in a loop that started from `h0` and `idx0`. */
  lemma SwapStep(h0: seq<Slot>, idx0: map<nat, nat>, h: seq<Slot>, idx: map<nat, nat>, i: nat, j: nat)
    requires Indexed(h, idx) && i < |h| && j < |h| && SameSlots(h0, h) && SameElsewhere(h0, idx0, idx)
    ensures var h', idx' := Swap(h, i, j), idx[h[j].e := i][h[i].e := j];
      Indexed(h', idx') && SameSlots(h0, h') && SameElsewhere(h0, idx0, idx')
  {
    SwapIndexed(h, idx, i, j);
    SwapKeeps(h, i, j);
    SamePlaces(h0, h, i);
    SamePlaces(h0, h, j);
  }

  // ---------------------------------------------------------------- what operations do

  /** Timer `e` is started: `h` becomes `h'`, and the position fields become `idx'` and `localk'`. */
  ghost predicate IsStart(h: seq<Slot>, idx: map<nat, nat>, localk: map<nat, nat>, k: nat, e: nat, deadline: nat,
                          h': seq<Slot>, idx': map<nat, nat>, localk': map<nat, nat>) {
    && OneMore(h, Slot(deadline, e), h') && HeapFrom(h', 0) && Indexed(h', idx') && Mine(h', localk', k)
    && OthersKept(h, {e}, idx, idx') && localk' == localk[e := k]
  }

  /** The slot `was` is taken out of the heap. */
  ghost predicate IsTake(h: seq<Slot>, idx: map<nat, nat>, localk: map<nat, nat>, k: nat, was: Slot,
                         h': seq<Slot>, idx': map<nat, nat>) {
    && OneMore(h', was, h) && HeapFrom(h', 0) && Indexed(h', idx') && Mine(h', localk, k)
    && OthersKept(h, {}, idx, idx')
  }

  /** All slots of `rh` move to `h`. */
  ghost predicate IsMerge(h: seq<Slot>, rh: seq<Slot>, idx: map<nat, nat>, localk: map<nat, nat>, k: nat,
                          h': seq<Slot>, idx': map<nat, nat>, localk': map<nat, nat>) {
    && SameSlots(h + rh, h') && HeapFrom(h', 0) && Indexed(h', idx') && Mine(h', localk', k)
    && OthersKept(h + rh, {}, idx, idx') && OthersKept(rh, {}, localk, localk')
  }

  // ---------------------------------------------------------------- the heaps

  /** Every timer in the heap is armed.  Not the other way round: a timer stays armed when it fires. */
  ghost predicate AllArmed(h: seq<Slot>, armed: set<nat>) {
    forall j :: 0 <= j < |h| ==> h[j].e in armed
  }

  lemma NotArmed(h: seq<Slot>, armed: set<nat>, e: nat)
    requires AllArmed(h, armed) && e !in armed
    ensures !HasTimer(h, e)
  {
  }

  lemma ArmedMore(h: seq<Slot>, armed: set<nat>, s: Slot, h': seq<Slot>)
    requires AllArmed(h, armed) && OneMore(h, s, h')
    ensures AllArmed(h', armed + {s.e})
  {
    forall j | 0 <= j < |h'| ensures h'[j].e in armed + {s.e} {
      assert h'[j] in multiset(h');
      assert h'[j] in h || h'[j] == s;
    }
  }

  lemma ArmedLess(h: seq<Slot>, armed: set<nat>, s: Slot, h': seq<Slot>, gone: set<nat>)
    requires AllArmed(h, armed) && OneMore(h', s, h) && forall e :: e in gone ==> !HasTimer(h', e)
    ensures AllArmed(h', armed - gone)
  {
    forall j | 0 <= j < |h'| ensures h'[j].e in armed - gone {
      assert h'[j] in multiset(h') && h'[j] in multiset(h) && h'[j] in h;
      assert HasTimer(h', h'[j].e);
    }
  }

  lemma ArmedBoth(h: seq<Slot>, rh: seq<Slot>, armed: set<nat>, h': seq<Slot>)
    requires AllArmed(h, armed) && AllArmed(rh, armed) && SameSlots(h + rh, h')
    ensures AllArmed(h', armed)
  {
    forall j | 0 <= j < |h'| ensures h'[j].e in armed {
      assert h'[j] in multiset(h') && h'[j] in multiset(h + rh) && h'[j] in h + rh;
    }
  }

  /** The fields of all timers: whether it is armed, its index in the heap, and whose heap it is. */
  class Entries {
    var armed: set<nat>
    var idx: map<nat, nat>
    var localk: map<nat, nat>

    constructor ()
      ensures idx == map[] && localk == map[] && armed == {}
    {
      armed, idx, localk := {}, map[], map[];
    }
  }

  class Kthread {
    const id: nat
    const timers: array<Slot>
    const cyclesPerUs: nat
    const startTsc: nat
    var timern: nat
    var nextTsc: nat

    constructor (id: nat, cyclesPerUs: nat, startTsc: nat, ents: Entries)
      ensures Valid(ents) && Heap() == [] && AllArmed(Heap(), ents.armed) && fresh(timers) && this.id == id
    {
      this.id, this.cyclesPerUs, this.startTsc := id, cyclesPerUs, startTsc;
      timers := new Slot[MAX_TIMERS](_ => Slot(0, 0));
      timern, nextTsc := 0, 0;
    }

    ghost function Heap(): seq<Slot>
      reads this, timers
      requires timern <= timers.Length
    {
      timers[..timern]
    }

    /** What the IOKernel is told: when the first timer is due, or 0. */
    ghost function NextTsc(): nat
      reads this, timers
      requires timern <= timers.Length
    {
      if timern > 0 then timers[0].deadline * cyclesPerUs + startTsc else 0
    }

    /** In place and in order; every timer knows its position and this kthread. */
    ghost predicate Placed(ents: Entries)
      reads this, timers, ents
    {
      && timern < MAX_TIMERS == timers.Length
      && Indexed(Heap(), ents.idx) && Mine(Heap(), ents.localk, id)
    }

    ghost predicate Valid(ents: Entries)
      reads this, timers, ents
    {
      Placed(ents) && HeapFrom(Heap(), 0) && nextTsc == NextTsc()
    }

    /** Two slots change places, and their timers learn their new positions. */
    method Exchange(ents: Entries, i: nat, j: nat)
      requires i < timern <= timers.Length && j < timern && i != j
      modifies timers, ents`idx
      ensures Heap() == Swap(old(Heap()), i, j)
      ensures ents.idx == old(ents.idx[timers[j].e := i][timers[i].e := j])
    {
      var tmp := timers[i];
      timers[i] := timers[j];
      ents.idx := ents.idx[timers[i].e := i];
      timers[j] := tmp;
      ents.idx := ents.idx[timers[j].e := j];
    }

    method SiftUp(ents: Entries, i0: nat)
      requires i0 < timern <= timers.Length && Indexed(Heap(), ents.idx)
      modifies timers, ents`idx
      ensures Indexed(Heap(), ents.idx) && SameElsewhere(old(Heap()), old(ents.idx), ents.idx)
      ensures SameSlots(old(Heap()), Heap())
      ensures UpHole(old(Heap()), i0) ==> HeapFrom(Heap(), 0)
      ensures i0 == 0 || old(timers[Parent(i0)].deadline <= timers[i0].deadline) ==> Heap() == old(Heap())
    {
      ghost var h0, idx0 := Heap(), ents.idx;
      hide Indexed, SameElsewhere, UpHole, HeapFrom, Swap, SameSlots;
      SameAtFirst(h0, idx0);
      ghost var moved := false;
      var i := i0;
      while i > 0
        invariant 0 <= i < timern && Indexed(Heap(), ents.idx)
        invariant SameSlots(h0, Heap()) && SameElsewhere(h0, idx0, ents.idx)
        invariant UpHole(h0, i0) ==> UpHole(Heap(), i)
        invariant if moved then i0 > 0 && h0[i0].deadline < h0[Parent(i0)].deadline else i == i0 && Heap() == h0
      {
        var p := Parent(i);
        if timers[i].deadline >= timers[p].deadline {
          break;
        }
        SwapStep(h0, idx0, Heap(), ents.idx, i, p);
        if UpHole(Heap(), i) {
          UpStep(Heap(), i);
        }
        Exchange(ents, i, p);
        i, moved := p, true;
      }
      if UpHole(h0, i0) {
        UpDone(Heap(), i);
      }
    }

    /** The inner loop of sift_down: the child with the least deadline, if that is less than ours. */
    method LeastChild(i: nat) returns (c: Option<nat>)
      requires i < timern <= timers.Length
      ensures c.Some? ==> IsLeastChild(Heap(), i, c.value)
      ensures c.None? ==> forall j :: IsChild(i, j) ==> InOrder(Heap(), i, j)
    {
      var w := timers[i].deadline;
      c := None;
      var j := i * D + 1;
      while j <= i * D + D && j < timern
        invariant i * D + 1 <= j <= i * D + D + 1
        invariant c.None? ==> w == timers[i].deadline
        invariant c.Some? ==>
          IsChild(i, c.value) && c.value < timern && w == timers[c.value].deadline < timers[i].deadline
        invariant forall k :: i * D + 1 <= k < j && k < timern ==> w <= timers[k].deadline
      {
        if timers[j].deadline < w {
          w := timers[j].deadline;
          c := Some(j);
        }
        j := j + 1;
      }
    }

    method SiftDown(ents: Entries, i0: nat, ghost lo: nat)
      requires i0 < timern <= timers.Length && Indexed(Heap(), ents.idx) && DownHole(Heap(), lo, i0)
      modifies timers, ents`idx
      ensures Indexed(Heap(), ents.idx) && SameElsewhere(old(Heap()), old(ents.idx), ents.idx)
      ensures SameSlots(old(Heap()), Heap()) && HeapFrom(Heap(), lo)
    {
      ghost var h0, idx0 := Heap(), ents.idx;
      hide Indexed, SameElsewhere, DownHole, HeapFrom, Swap, InOrder, SameSlots;
      SameAtFirst(h0, idx0);
      var i := i0;
      var c := LeastChild(i);
      while c.Some?
        invariant i < timern && Indexed(Heap(), ents.idx) && DownHole(Heap(), lo, i)
        invariant SameSlots(h0, Heap()) && SameElsewhere(h0, idx0, ents.idx)
        invariant c.Some? ==> IsLeastChild(Heap(), i, c.value)
        invariant c.None? ==> forall j :: IsChild(i, j) ==> InOrder(Heap(), i, j)
        decreases timern - i
      {
        SwapStep(h0, idx0, Heap(), ents.idx, i, c.value);
        DownStep(Heap(), lo, i, c.value);
        Exchange(ents, i, c.value);
        i := c.value;
        c := LeastChild(i);
      }
      DownDone(Heap(), lo, i);
    }

    /** update_q_ptrs */
    method UpdateQPtrs(ghost ents: Entries)
      requires Placed(ents) && HeapFrom(Heap(), 0)
      modifies this`nextTsc
      ensures Valid(ents) && Heap() == old(Heap())
    {
      hide Indexed, Mine, HeapFrom;
      if timern > 0 {
        nextTsc := timers[0].deadline * cyclesPerUs + startTsc;
      } else {
        nextTsc := 0;
      }
    }

    /** A slot is added at the end, and its timer learns where it is. */
    method Append(ents: Entries, s: Slot)
      requires Placed(ents) && !HasTimer(Heap(), s.e) && timern + 1 < MAX_TIMERS
      modifies this`timern, timers, ents`idx, ents`localk
      ensures Placed(ents) && Heap() == old(Heap()) + [s]
      ensures ents.idx == old(ents.idx)[s.e := old(timern)] && ents.localk == old(ents.localk)[s.e := id]
    {
      hide Indexed, Mine;
      Appended(Heap(), ents.idx, ents.localk, id, s);
      timers[timern] := s;
      timern := timern + 1;
      ents.idx := ents.idx[s.e := timern - 1];
      ents.localk := ents.localk[s.e := id];
      assert Heap() == old(Heap()) + [s];
    }

    /** timer_start_locked and update_q_ptrs; `e` is not armed, and there is room for one more. */
    method Start(ents: Entries, e: nat, deadline: nat)
      requires Valid(ents) && AllArmed(Heap(), ents.armed) && e !in ents.armed && timern + 1 < MAX_TIMERS
      modifies this, timers, ents
      ensures Valid(ents) && AllArmed(Heap(), ents.armed) && ents.armed == old(ents.armed) + {e}
      ensures IsStart(old(Heap()), old(ents.idx), old(ents.localk), id, e, deadline, Heap(), ents.idx, ents.localk)
    {
      hide HeapFrom, UpHole, Indexed, Mine, SameElsewhere, OthersKept, HasTimer, SameSlots, OneMore, NextTsc, AllArmed;
      ghost var h := Heap();
      NotArmed(h, ents.armed, e);
      AppendedOrder(h, ents.idx, Slot(deadline, e));
      Append(ents, Slot(deadline, e));
      ghost var h1, idx1 := Heap(), ents.idx;
      SiftUp(ents, timern - 1);
      MoreAndSame(h, Slot(deadline, e), h1, Heap());
      StillMine(h1, Heap(), ents.localk, id);
      KeptThen(h, e, old(ents.idx), h1, idx1, ents.idx);
      ArmedMore(h, ents.armed, Slot(deadline, e), Heap());
      ents.armed := ents.armed + {e};
      UpdateQPtrs(ents);
    }

    /** The last slot is dropped. */
    method DropLast(ents: Entries)
      requires Placed(ents) && HeapFrom(Heap(), 0) && timern > 0
      modifies this`timern
      ensures Placed(ents) && HeapFrom(Heap(), 0)
      ensures OneMore(Heap(), old(timers[timern - 1]), old(Heap()))
    {
      hide Indexed, Mine, HeapFrom, OneMore;
      Shrunk(Heap(), ents.idx, ents.localk, id);
      timern := timern - 1;
      assert Heap() == old(Heap())[..timern];
    }

    /** The last slot takes the place of the one at `i`. */
    method MoveLast(ents: Entries, i: nat)
      requires Placed(ents) && i + 1 < timern
      modifies this`timern, timers, ents`idx
      ensures Placed(ents) && timern == old(timern) - 1 == |old(Heap())| - 1
      ensures Heap() == Moved(old(Heap()), i)
      ensures ents.idx == old(ents.idx[timers[timern - 1].e := i])
    {
      hide Indexed, Mine, OneMore, OthersKept, SubSlots;
      ghost var h, idx := Heap(), ents.idx;
      timern := timern - 1;
      timers[i] := timers[timern];
      ents.idx := ents.idx[timers[i].e := i];
      assert Heap() == Moved(h, i);
      hide Moved;
      Replaced(h, idx, ents.localk, id, i);
    }

    /** The slot at `i` is taken out. */
    method Remove(ents: Entries, i: nat)
      requires Placed(ents) && HeapFrom(Heap(), 0) && i < timern
      modifies this`timern, timers, ents`idx
      ensures Placed(ents) && HeapFrom(Heap(), 0) && OneMore(Heap(), old(timers[i]), old(Heap()))
      ensures OthersKept(old(Heap()), {}, old(ents.idx), ents.idx)
    {
      hide Indexed, Mine, HeapFrom, OneMore, NearlyHeap, OthersKept, SubSlots, Moved;
      ghost var h, idx := Heap(), ents.idx;
      if i == timern - 1 {
        Unmoved(h, idx);
        DropLast(ents);
      } else {
        Replaced(h, idx, ents.localk, id, i);
        ReplacedOrder(h, i);
        MoveLast(ents, i);
        FixAt(ents, i, h, idx, h[i]);
      }
    }

    /** timer_cancel, once it holds the lock of the kthread that timer `e` names.  If the timer is in the
        heap, it is taken out.  A timer that has fired is still armed: then whichever timer is at the
        position that `e` remembers is taken out in its stead. */
    method Cancel(ents: Entries, e: nat) returns (ok: bool, ghost was: Slot)
      requires Valid(ents) && AllArmed(Heap(), ents.armed) && e in ents.localk && ents.localk[e] == id
      requires e in ents.armed && !HasTimer(Heap(), e) ==> e in ents.idx && ents.idx[e] < timern
      modifies this, timers, ents`idx, ents`armed
      ensures Valid(ents) && AllArmed(Heap(), ents.armed)
      ensures ok == (e in old(ents.armed)) && ents.armed == old(ents.armed) - {e}
      ensures !ok ==> Heap() == old(Heap()) && ents.idx == old(ents.idx)
      ensures ok ==> IsTake(old(Heap()), old(ents.idx), ents.localk, id, was, Heap(), ents.idx) && was in old(Heap())
      ensures ok ==> (was.e == e <==> old(HasTimer(Heap(), e))) && !HasTimer(Heap(), e)
    {
      hide Indexed, Mine, HeapFrom, OneMore, OthersKept, HasTimer, NextTsc, AllArmed;
      ghost var h, idx := Heap(), ents.idx;
      if e !in ents.armed {
        was := Slot(0, 0);
        return false, was;
      }
      if HasTimer(h, e) {
        FoundAt(h, ents.idx, e);
      }
      ghost var armed := ents.armed;
      was := timers[ents.idx[e]];
      assert was == h[idx[e]] && was in h;
      Remove(ents, ents.idx[e]);
      TakenOut(h, idx, e, was, Heap());
      ArmedLess(h, armed, was, Heap(), {e});
      ents.armed := ents.armed - {e};
      UpdateQPtrs(ents);
      ok := true;
    }

    /** Both sifts of timer_cancel: one of them has nothing to do. */
    method FixAt(ents: Entries, i: nat, ghost h: seq<Slot>, ghost idx: map<nat, nat>, ghost was: Slot)
      requires Placed(ents) && i < timern && OneMore(Heap(), was, h) && SubSlots(Heap(), h)
      requires OthersKept(h, {}, idx, ents.idx)
      requires NearlyHeap(Heap(), i)
      modifies timers, ents`idx
      ensures Placed(ents) && HeapFrom(Heap(), 0) && OneMore(Heap(), was, h) && OthersKept(h, {}, idx, ents.idx)
    {
      hide Indexed, Mine, HeapFrom, OneMore, UpHole, DownHole, OthersKept, SubSlots, SameSlots, SameElsewhere, HasTimer;
      ghost var h1, idx1 := Heap(), ents.idx;
      ghost var up := i > 0 && timers[i].deadline < timers[Parent(i)].deadline;
      SiftUp(ents, i);
      ghost var h2, idx2 := Heap(), ents.idx;
      if up {
        HeapIsDownHole(h2, i);
      }
      SiftDown(ents, i, 0);
      Sifted(h, was, idx, h1, idx1, h2, idx2, Heap(), ents.idx, ents.localk, id);
    }

    /** One turn of the loop of timer_softirq: a due timer with the least deadline of all fires, and
        nothing fires only if no timer is due. */
    method Expire(ents: Entries, now: nat) returns (fired: Option<Slot>)
      requires Valid(ents) && AllArmed(Heap(), ents.armed)
      modifies this, timers, ents`idx
      ensures Valid(ents) && AllArmed(Heap(), ents.armed)
      ensures fired.None? ==> Heap() == old(Heap()) && forall j :: 0 <= j < timern ==> timers[j].deadline > now
      ensures fired.Some? ==> fired.value.deadline <= now
      ensures fired.Some? ==> forall j :: 0 <= j < old(timern) ==> fired.value.deadline <= old(timers[j]).deadline
      ensures fired.Some? ==> IsTake(old(Heap()), old(ents.idx), ents.localk, id, fired.value, Heap(), ents.idx)
    {
      hide Indexed, Mine, HeapFrom, OneMore, OthersKept, NextTsc, AllArmed;
      ghost var h := Heap();
      forall j | 0 <= j < timern ensures timers[0].deadline <= timers[j].deadline {
        RootIsLeast(h, j);
      }
      if timern == 0 || timers[0].deadline > now {
        return None;
      }
      fired := Some(timers[0]);
      TakeRoot(ents);
      ArmedLess(h, ents.armed, fired.value, Heap(), {});
      assert ents.armed - {} == ents.armed;
      UpdateQPtrs(ents);
    }

    method TakeRoot(ents: Entries)
      requires Placed(ents) && HeapFrom(Heap(), 0) && timern > 0
      modifies this`timern, timers, ents`idx
      ensures Placed(ents) && HeapFrom(Heap(), 0) && OneMore(Heap(), old(timers[0]), old(Heap()))
      ensures OthersKept(old(Heap()), {}, old(ents.idx), ents.idx)
    {
      hide Indexed, Mine, HeapFrom, OneMore, OthersKept, SubSlots, Moved, DownHole, SameSlots, SameElsewhere;
      ghost var h, idx := Heap(), ents.idx;
      if timern == 1 {
        Unmoved(h, idx);
        DropLast(ents);
      } else {
        Replaced(h, idx, ents.localk, id, 0);
        ReplacedRoot(h);
        MoveLast(ents, 0);
        ghost var h1, idx1 := Heap(), ents.idx;
        SiftDown(ents, 0, 0);
        SameAtFirst(h1, idx1);
        Sifted(h, h[0], idx, h1, idx1, h1, idx1, Heap(), ents.idx, ents.localk, id);
      }
    }

    /** timer_softirq, with handlers that start and cancel nothing: timers fire in deadline order,
        and fewer than the budget only if no more are due. */
    method Softirq(ents: Entries, budget: nat, now: seq<nat>) returns (fired: seq<Slot>)
      requires Valid(ents) && AllArmed(Heap(), ents.armed) && |now| == budget
      modifies this, timers, ents`idx
      ensures Valid(ents) && AllArmed(Heap(), ents.armed) && |fired| <= budget
      ensures FiredInOrder(old(Heap()), fired, Heap(), now)
      ensures |fired| < budget ==> forall j :: 0 <= j < timern ==> timers[j].deadline > now[|fired|]
    {
      hide Indexed, Mine, HeapFrom, OthersKept, NextTsc, FiredInOrder, OneMore, AllArmed;
      fired := [];
      NoneFired(Heap(), now);
      while |fired| < budget
        invariant Valid(ents) && AllArmed(Heap(), ents.armed) && |fired| <= budget
        invariant FiredInOrder(old(Heap()), fired, Heap(), now)
        decreases budget - |fired|
      {
        ghost var h := Heap();
        var s := Expire(ents, now[|fired|]);
        if s.None? {
          break;
        }
        OneFired(old(Heap()), fired, h, now, s.value, Heap());
        fired := fired + [s.value];
      }
    }

    /** timer_merge: all timers of `r` move to this kthread, and none is lost. */
    method Merge(r: Kthread, ents: Entries)
      requires Valid(ents) && r.Valid(ents) && r != this && r.timers != timers && r.id != id
      requires timern + r.timern < MAX_TIMERS && AllArmed(Heap(), ents.armed) && AllArmed(r.Heap(), ents.armed)
      modifies this, timers, r, ents`idx, ents`localk
      ensures Valid(ents) && r.Valid(ents) && r.Heap() == [] && AllArmed(Heap(), ents.armed)
      ensures IsMerge(old(Heap()), old(r.Heap()), old(ents.idx), old(ents.localk), id, Heap(), ents.idx, ents.localk)
    {
      hide Indexed, Mine, HeapFrom, OthersKept, NextTsc, SameSlots, SameElsewhere, AllArmed;
      ghost var h, rh, idx := Heap(), r.Heap(), ents.idx;
      if r.timern == 0 {
        assert h + rh == h;
        SameAtFirst(h, idx);
        Unmoved(h, idx);
        Unmoved(rh, ents.localk);
        UpdateQPtrs(ents);
        return;
      }
      MoveAll(r, ents);
      r.timern := 0;
      NothingLeft(ents.idx, ents.localk, r.id);
      assert r.Heap() == [];
      r.UpdateQPtrs(ents);
      ghost var idx1 := ents.idx;
      Heapify(ents);
      Kept2(h + rh, idx, idx1, ents.idx);
      ArmedBoth(h, rh, ents.armed, Heap());
      NothingLeft(ents.idx, ents.localk, r.id);
      UpdateQPtrs(ents);
    }

    /** The first loop of timer_merge. */
    method MoveAll(r: Kthread, ents: Entries)
      requires Placed(ents) && r.Placed(ents) && r != this && r.timers != timers && r.id != id
      requires timern + r.timern < MAX_TIMERS
      modifies this`timern, timers, ents`idx, ents`localk
      ensures Placed(ents) && Heap() == old(Heap()) + r.Heap()
      ensures OthersKept(Heap(), {}, old(ents.idx), ents.idx) && OthersKept(r.Heap(), {}, old(ents.localk), ents.localk)
    {
      hide Indexed, Mine, OthersKept, HasTimer;
      ghost var h, rh, idx, localk := Heap(), r.Heap(), ents.idx, ents.localk;
      Unmoved(h + rh, idx);
      Unmoved(rh, localk);
      Apart(h, rh, ents.idx, ents.localk, id, r.id);
      for i := 0 to r.timern
        invariant Placed(ents) && Heap() == h + rh[..i] && OthersKept(h + rh, {}, idx, ents.idx)
        invariant OthersKept(rh, {}, localk, ents.localk)
      {
        MovedOne(h, rh, i, idx, ents.idx, timern, localk, ents.localk, id);
        Append(ents, r.timers[i]);
      }
      assert rh[..|rh|] == rh;
    }

    /** The second loop of timer_merge, from the last parent up to the root. */
    method Heapify(ents: Entries)
      requires Placed(ents) && timern > 0
      modifies timers, ents`idx
      ensures Placed(ents) && HeapFrom(Heap(), 0)
      ensures SameSlots(old(Heap()), Heap()) && SameElsewhere(old(Heap()), old(ents.idx), ents.idx)
    {
      hide Indexed, Mine, HeapFrom, DownHole, SameSlots, SameElsewhere;
      ghost var h, idx := Heap(), ents.idx;
      SameAtFirst(h, idx);
      var i := timern / D;
      Leaves(h, i + 1);
      while i >= 0
        invariant -1 <= i <= timern / D && Placed(ents) && HeapFrom(Heap(), i + 1)
        invariant SameSlots(h, Heap()) && SameElsewhere(h, idx, ents.idx)
      {
        ghost var h1, idx1 := Heap(), ents.idx;
        NextHole(h1, i);
        SiftDown(ents, i, i);
        Same2(h, idx, h1, idx1, Heap(), ents.idx);
        StillMine(h1, Heap(), ents.localk, id);
        i := i - 1;
      }
    }
  }

  lemma SameAtFirst(h: seq<Slot>, idx: map<nat, nat>)
    ensures SameElsewhere(h, idx, idx) && SameSlots(h, h)
  {
  }

  /** Timers other than those of heap `h` and those in `es` keep their positions. */
  ghost predicate OthersKept(h: seq<Slot>, es: set<nat>, idx: map<nat, nat>, idx': map<nat, nat>) {
    forall x :: x in idx && x !in es && !HasTimer(h, x) ==> x in idx' && idx'[x] == idx[x]
  }

  /** All timers of the heap name kthread `k`. */
  ghost predicate Mine(h: seq<Slot>, localk: map<nat, nat>, k: nat) {
    forall j :: 0 <= j < |h| ==> h[j].e in localk && localk[h[j].e] == k
  }

  lemma StillMine(h: seq<Slot>, h': seq<Slot>, localk: map<nat, nat>, k: nat)
    requires SameSlots(h, h') && Mine(h, localk, k)
    ensures Mine(h', localk, k)
  {
    forall j | 0 <= j < |h'| ensures h'[j].e in localk && localk[h'[j].e] == k {
      SamePlaces(h, h', j);
    }
  }

  lemma Appended(h: seq<Slot>, idx: map<nat, nat>, localk: map<nat, nat>, k: nat, s: Slot)
    requires Indexed(h, idx) && Mine(h, localk, k) && !HasTimer(h, s.e)
    ensures Indexed(h + [s], idx[s.e := |h|]) && Mine(h + [s], localk[s.e := k], k)
  {
    var h', idx' := h + [s], idx[s.e := |h|];
    forall j | 0 <= j < |h'| ensures h'[j].e in idx' && idx'[h'[j].e] == j {
      assert j < |h| ==> HasTimer(h, h[j].e);
    }
  }

  lemma AppendedOrder(h: seq<Slot>, idx: map<nat, nat>, s: Slot)
    requires HeapFrom(h, 0)
    ensures UpHole(h + [s], |h|) && OthersKept(h, {s.e}, idx, idx[s.e := |h|]) && OneMore(h, s, h + [s])
  {
    var h' := h + [s];
    forall p, c | IsChild(p, c) && c != |h| ensures InOrder(h', p, c) {
      assert InOrder(h, p, c);
    }
  }

  lemma KeptThen(h: seq<Slot>, e: nat, idx: map<nat, nat>, h1: seq<Slot>, idx1: map<nat, nat>, idx2: map<nat, nat>)
    requires OthersKept(h, {e}, idx, idx1) && SameElsewhere(h1, idx1, idx2)
    requires |h1| == |h| + 1 && h1[..|h|] == h && h1[|h|].e == e
    ensures OthersKept(h, {e}, idx, idx2)
  {
    forall x | x in idx && x != e && !HasTimer(h, x) ensures x in idx2 && idx2[x] == idx[x] {
      assert forall j :: 0 <= j < |h| ==> h1[j] == h[j];
      assert !HasTimer(h1, x);
    }
  }

  /** Every timer of `h'` is a timer of `h`. */
  ghost predicate SubSlots(h': seq<Slot>, h: seq<Slot>) {
    forall j :: 0 <= j < |h'| ==> HasTimer(h, h'[j].e)
  }

  lemma Shrunk(h: seq<Slot>, idx: map<nat, nat>, localk: map<nat, nat>, k: nat)
    requires h != [] && Indexed(h, idx) && Mine(h, localk, k) && HeapFrom(h, 0)
    ensures var h' := h[..|h| - 1];
      Indexed(h', idx) && Mine(h', localk, k) && HeapFrom(h', 0) && OneMore(h', h[|h| - 1], h)
  {
    var h' := h[..|h| - 1];
    assert h == h' + [h[|h| - 1]];
    forall p, c | IsChild(p, c) ensures InOrder(h', p, c) {
      assert InOrder(h, p, c);
    }
  }

  /** The last slot takes the place of the one at `i`. */
  function Moved(h: seq<Slot>, i: nat): (r: seq<Slot>)
    requires i + 1 < |h|
    ensures |r| == |h| - 1
  {
    h[..|h| - 1][i := h[|h| - 1]]
  }

  /** Heap order, except that the slot at `i` may have to move up or down. */
  ghost predicate NearlyHeap(h: seq<Slot>, i: nat) {
    && i < |h|
    && (i > 0 && h[i].deadline < h[Parent(i)].deadline ==> UpHole(h, i))
    && (i == 0 || h[Parent(i)].deadline <= h[i].deadline ==> DownHole(h, 0, i))
  }

  lemma Replaced(h: seq<Slot>, idx: map<nat, nat>, localk: map<nat, nat>, k: nat, i: nat)
    requires i + 1 < |h| && Indexed(h, idx) && Mine(h, localk, k)
    ensures var h', idx' := Moved(h, i), idx[h[|h| - 1].e := i];
      && Indexed(h', idx') && Mine(h', localk, k) && OneMore(h', h[i], h)
      && OthersKept(h, {}, idx, idx') && SubSlots(h', h)
  {
    var n, last := |h| - 1, h[|h| - 1];
    var h', idx' := Moved(h, i), idx[last.e := i];
    forall j | 0 <= j < n ensures h'[j].e in idx' && idx'[h'[j].e] == j {
      assert idx[h[j].e] == j && idx[last.e] == n;
    }
    assert h == h[..n] + [last];
    assert h[..n][i] == h[i];
    assert HasTimer(h, last.e);
    forall j | 0 <= j < n ensures HasTimer(h, h'[j].e) {
      assert h'[j] == h[j] || h'[j] == last;
    }
  }

  lemma ReplacedOrder(h: seq<Slot>, i: nat)
    requires i + 1 < |h| && HeapFrom(h, 0)
    ensures NearlyHeap(Moved(h, i), i)
  {
    var h' := Moved(h, i);
    forall p, c | IsChild(p, c) && c != i && p != i ensures InOrder(h', p, c) {
      assert InOrder(h, p, c);
    }
    if i > 0 {
      forall c | IsChild(i, c) ensures InOrder(h', Parent(i), c) {
        assert InOrder(h, Parent(i), i) && InOrder(h, i, c);
      }
      if h'[i].deadline < h'[Parent(i)].deadline {
        forall c | IsChild(i, c) ensures InOrder(h', i, c) {
          assert InOrder(h', Parent(i), c);
        }
        forall p, c | IsChild(p, c) && c != i ensures InOrder(h', p, c) {
          assert p == i || InOrder(h', p, c);
        }
      } else {
        forall p, c | IsChild(p, c) && p != i ensures InOrder(h', p, c) {
          ParentOf(p, c);
        }
      }
    }
  }

  lemma FoundAt(h: seq<Slot>, idx: map<nat, nat>, e: nat)
    requires Indexed(h, idx) && HasTimer(h, e)
    ensures e in idx && idx[e] < |h| && h[idx[e]].e == e
  {
  }

  lemma Unmoved(h: seq<Slot>, idx: map<nat, nat>)
    ensures OthersKept(h, {}, idx, idx)
  {
  }

  /** Timers are distinct, so one that is taken out is gone. */
  lemma Gone(h: seq<Slot>, idx: map<nat, nat>, was: Slot, h': seq<Slot>)
    requires Indexed(h, idx) && OneMore(h', was, h) && was in h
    ensures !HasTimer(h', was.e)
  {
    if HasTimer(h', was.e) {
      var j :| 0 <= j < |h'| && h'[j].e == was.e;
      assert h'[j] in multiset(h') && h'[j] in multiset(h) && h'[j] in h;
      assert h'[j] == was;
      assert multiset(h)[was] >= 2;
      Twice(h, was);
    }
  }

  /** What is taken out at the position that `e` remembers is `e` exactly if it is in the heap. */
  lemma TakenOut(h: seq<Slot>, idx: map<nat, nat>, e: nat, was: Slot, h': seq<Slot>)
    requires Indexed(h, idx) && OneMore(h', was, h) && was in h && e in idx && idx[e] < |h| && was == h[idx[e]]
    ensures (was.e == e <==> HasTimer(h, e)) && !HasTimer(h', e)
  {
    hide OneMore;
    if HasTimer(h, e) {
      FoundAt(h, idx, e);
      Gone(h, idx, was, h');
    } else {
      NoneNew(h, was, h', e);
    }
  }

  lemma NoneNew(h: seq<Slot>, was: Slot, h': seq<Slot>, e: nat)
    requires OneMore(h', was, h)
    ensures HasTimer(h', e) ==> HasTimer(h, e)
  {
    forall j | 0 <= j < |h'| ensures h'[j] in h {
      assert h'[j] in multiset(h') && h'[j] in multiset(h);
    }
  }

  lemma {:induction false} Twice(h: seq<Slot>, s: Slot)
    requires multiset(h)[s] >= 2
    ensures exists i, j :: 0 <= i < j < |h| && h[i] == s && h[j] == s
  {
    assert h == [h[0]] + h[1..];
    if h[0] == s {
      assert s in h[1..];
      var j :| 0 <= j < |h[1..]| && h[1..][j] == s;
      assert h[j + 1] == s;
    } else {
      Twice(h[1..], s);
      var i, j :| 0 <= i < j < |h[1..]| && h[1..][i] == s && h[1..][j] == s;
      assert h[i + 1] == s && h[j + 1] == s;
    }
  }

  lemma Sifted(h: seq<Slot>, was: Slot, idx: map<nat, nat>, h1: seq<Slot>, idx1: map<nat, nat>,
               h2: seq<Slot>, idx2: map<nat, nat>, h3: seq<Slot>, idx3: map<nat, nat>, localk: map<nat, nat>, k: nat)
    requires OneMore(h1, was, h) && SubSlots(h1, h) && OthersKept(h, {}, idx, idx1) && Mine(h1, localk, k)
    requires SameSlots(h1, h2) && SameElsewhere(h1, idx1, idx2) && SameSlots(h2, h3) && SameElsewhere(h2, idx2, idx3)
    ensures OneMore(h3, was, h) && OthersKept(h, {}, idx, idx3) && Mine(h3, localk, k)
  {
    StillMine(h1, h2, localk, k);
    StillMine(h2, h3, localk, k);
    forall x | x in idx && !HasTimer(h, x) ensures x in idx3 && idx3[x] == idx[x] {
      assert !HasTimer(h1, x);
      if HasTimer(h2, x) {
        var j :| 0 <= j < |h2| && h2[j].e == x;
        SamePlaces(h1, h2, j);
      }
    }
  }

  lemma ReplacedRoot(h: seq<Slot>)
    requires 1 < |h| && HeapFrom(h, 0)
    ensures DownHole(Moved(h, 0), 0, 0)
  {
    ReplacedOrder(h, 0);
  }

  /** From `h0`, the slots `fired` went, earliest deadline first and each when due; `h` is left. */
  ghost predicate FiredInOrder(h0: seq<Slot>, fired: seq<Slot>, h: seq<Slot>, now: seq<nat>) {
    && |fired| <= |now|
    && (forall i, j :: 0 <= i < j < |fired| ==> fired[i].deadline <= fired[j].deadline)
    && (forall i :: 0 <= i < |fired| ==> fired[i].deadline <= now[i])
    && (forall i, j :: 0 <= i < |fired| && 0 <= j < |h| ==> fired[i].deadline <= h[j].deadline)
    && multiset(h0) == multiset(h) + multiset(fired)
  }

  lemma NoneFired(h: seq<Slot>, now: seq<nat>)
    ensures FiredInOrder(h, [], h, now)
  {
  }

  lemma OneFired(h0: seq<Slot>, fired: seq<Slot>, h: seq<Slot>, now: seq<nat>, s: Slot, h': seq<Slot>)
    requires FiredInOrder(h0, fired, h, now) && OneMore(h', s, h) && |fired| < |now| && s.deadline <= now[|fired|]
    requires forall j :: 0 <= j < |h| ==> s.deadline <= h[j].deadline
    ensures FiredInOrder(h0, fired + [s], h', now)
  {
    assert s in multiset(h) && s in h;
    forall j | 0 <= j < |h'| ensures h'[j] in h {
      assert h'[j] in multiset(h') && h'[j] in multiset(h);
    }
  }

  lemma NothingLeft(idx: map<nat, nat>, localk: map<nat, nat>, k: nat)
    ensures Indexed([], idx) && Mine([], localk, k) && HeapFrom([], 0)
  {
  }

  lemma Kept2(h: seq<Slot>, idx: map<nat, nat>, idx1: map<nat, nat>, idx2: map<nat, nat>)
    requires OthersKept(h, {}, idx, idx1) && SameElsewhere(h, idx1, idx2)
    ensures OthersKept(h, {}, idx, idx2)
  {
  }

  lemma KeptBy(h: seq<Slot>, i: nat, idx: map<nat, nat>, idx1: map<nat, nat>, v: nat)
    requires i < |h| && OthersKept(h, {}, idx, idx1)
    ensures OthersKept(h, {}, idx, idx1[h[i].e := v])
  {
    assert HasTimer(h, h[i].e);
  }

  /** The positions after one more slot of `rh` has moved to the end of `h`. */
  lemma MovedOne(h: seq<Slot>, rh: seq<Slot>, i: nat, idx: map<nat, nat>, idx1: map<nat, nat>, v: nat,
                 localk: map<nat, nat>, localk1: map<nat, nat>, k: nat)
    requires i < |rh| && OthersKept(h + rh, {}, idx, idx1) && OthersKept(rh, {}, localk, localk1)
    ensures OthersKept(h + rh, {}, idx, idx1[rh[i].e := v]) && OthersKept(rh, {}, localk, localk1[rh[i].e := k])
    ensures h + rh[..i] + [rh[i]] == h + rh[..i + 1]
  {
    hide OthersKept;
    assert (h + rh)[|h| + i] == rh[i];
    KeptBy(h + rh, |h| + i, idx, idx1, v);
    KeptBy(rh, i, localk, localk1, k);
    assert rh[..i + 1] == rh[..i] + [rh[i]];
  }

  lemma Same2(h: seq<Slot>, idx: map<nat, nat>, h1: seq<Slot>, idx1: map<nat, nat>, h2: seq<Slot>, idx2: map<nat, nat>)
    requires SameSlots(h, h1) && SameElsewhere(h, idx, idx1) && SameSlots(h1, h2) && SameElsewhere(h1, idx1, idx2)
    ensures SameSlots(h, h2) && SameElsewhere(h, idx, idx2)
  {
    forall x | x in idx && !HasTimer(h, x) ensures idx2[x] == idx[x] {
      if HasTimer(h1, x) {
        var j :| 0 <= j < |h1| && h1[j].e == x;
        SamePlaces(h, h1, j);
      }
    }
  }

  /** The timers of two kthreads' heaps differ. */
  lemma Apart(h: seq<Slot>, rh: seq<Slot>, idx: map<nat, nat>, localk: map<nat, nat>, k: nat, r: nat)
    requires Indexed(h, idx) && Indexed(rh, idx) && Mine(h, localk, k) && Mine(rh, localk, r) && k != r
    ensures forall i :: 0 <= i < |rh| ==> !HasTimer(h + rh[..i], rh[i].e)
  {
    forall i | 0 <= i < |rh| ensures !HasTimer(h + rh[..i], rh[i].e) {
      forall j | 0 <= j < |h| + i ensures (h + rh[..i])[j].e != rh[i].e {
        if j < |h| {
          assert localk[h[j].e] == k;
        } else {
          assert idx[rh[j - |h|].e] == j - |h|;
        }
      }
    }
  }

  lemma Leaves(h: seq<Slot>, lo: nat)
    requires D * lo >= |h|
    ensures HeapFrom(h, lo)
  {
    forall p: nat, c: nat | lo <= p && IsChild(p, c) ensures InOrder(h, p, c) {
      assert c >= D * lo + 1;
    }
  }

  lemma NextHole(h: seq<Slot>, i: nat)
    requires HeapFrom(h, i + 1)
    ensures DownHole(h, i, i)
  {
  }

  /** An operation on one heap leaves the positions in every other heap exact. */
  lemma OtherHeapsStay(h: seq<Slot>, es: set<nat>, idx: map<nat, nat>, idx': map<nat, nat>, other: seq<Slot>)
    requires OthersKept(h, es, idx, idx') && Indexed(other, idx)
    requires forall j :: 0 <= j < |other| ==> other[j].e !in es && !HasTimer(h, other[j].e)
    ensures Indexed(other, idx')
  {
    forall j | 0 <= j < |other| ensures other[j].e in idx' && idx'[other[j].e] == j {
      assert other[j].e in idx && other[j].e !in es;
    }
  }
}
