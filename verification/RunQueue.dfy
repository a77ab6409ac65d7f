/**
 The per-kthread run queue of user-level threads.

 Every kthread has a ring of 32 slots, a list of overflow threads behind it, and a pair of
 counters (`qHead`, `qTail`) that it shows to the IOKernel.  The owner pushes onto the ring
 without taking the queue lock; the owner's pop, and every thief, hold it.  A thief copies
 half of the victim's ring, one slot at a time, while the victim's owner may go on pushing.

 The model is a transition system: one step per access to memory that another kthread can
 see.  The counters shown to the IOKernel, which no kthread reads, change in the step of the
 access next to them (`LoadTail`, `Pop`, `PublishVictimTail`, `Adopt`, `TakeOverflow`).
 Indices are unbounded; `WrapAround` shows that 32-bit indices behave the same.
 */
module RunQueue {
  import opened Prelude

  type Uthread = nat

  const RQ_SIZE := 32

  type Slots = s: seq<Uthread> | |s| == RQ_SIZE witness seq(RQ_SIZE, _ => 0)

  /** What a kthread is in the middle of, with the values it holds in local variables. */
  datatype Pc =
    | Running                                    // own lock not held
    | TailLoaded(th: Uthread, seen: nat)         // thread_ready: rq_tail was read as `seen`
    | SlotWritten(th: Uthread)                   // thread_ready: slot filled, head not published
    | Spilling(th: Uthread)                      // thread_ready: ring looked full, lock needed
    | Scheduling                                 // own lock held
    | VictimLocked(victim: nat)                  // steal_work: both locks held
    | VictimEmpty(victim: nat)                   // steal_work: the victim's ring looked empty
    | Copying(victim: nat, avail: nat, ringed: nat, spilled: nat)
    | TailPublished(victim: nat, ringed: nat, spilled: nat)
    | Adopting(ringed: nat, spilled: nat)        // victim unlocked, own head not published

  datatype Kthread = Kthread(
    rq: Slots, head: nat, tail: nat, overflow: seq<Uthread>,
    qHead: nat, qTail: nat, lock: Lock, pc: Pc)

  datatype Lock = Free | HeldBy(owner: nat)

  /** `runnable` records history: the threads made runnable and not yet picked to run. */
  datatype State = State(ks: seq<Kthread>, runnable: set<Uthread>)

  datatype Action =
    | LoadTail(th: Uthread)
    | WriteSlot
    | PublishHead
    | Spill
    | LockSelf
    | UnlockSelf
    | Drain
    | Pop
    | Reset
    | LockVictim(victim: nat)
    | LoadVictimHead
    | CopySlot
    | PublishVictimTail
    | UnlockVictim
    | Adopt
    | TakeOverflow
    | TakeSoftirq(th: Uthread)
    | GiveUp

  // ---------------------------------------------------------------- ring contents

  /** `i % RQ_SIZE`, unrolled so that proofs need no division; see SlotIsModulo. */
  function Slot(i: nat): (s: nat)
    ensures s < RQ_SIZE
  {
    if i < RQ_SIZE then i else Slot(i - RQ_SIZE)
  }

  lemma {:induction false} SlotIsModulo(i: nat)
    ensures Slot(i) == i % RQ_SIZE
  {
    if i >= RQ_SIZE {
      SlotIsModulo(i - RQ_SIZE);
    }
  }

  lemma SlotsDiffer(i: nat, j: nat)
    requires i < j < i + RQ_SIZE
    ensures Slot(i) != Slot(j)
  {
    SlotIsModulo(i);
    SlotIsModulo(j);
  }

  /** The thread in ring position `i`. */
  function At(rq: Slots, i: nat): Uthread {
    rq[Slot(i)]
  }

  /** How often `th` occurs in ring positions `lo`, ..., `hi - 1`. */
  function InRing(rq: Slots, lo: nat, hi: nat, th: Uthread): nat
    decreases hi
  {
    if hi <= lo then 0 else InRing(rq, lo, hi - 1, th) + One(At(rq, hi - 1) == th)
  }

  /** Counts depend only on the slots of the range. */
  lemma {:induction false} RingAgree(a: Slots, b: Slots, lo: nat, hi: nat, th: Uthread)
    requires forall i: nat :: lo <= i < hi ==> At(a, i) == At(b, i)
    ensures InRing(a, lo, hi, th) == InRing(b, lo, hi, th)
    decreases hi
  {
    if lo < hi {
      assert At(a, hi - 1) == At(b, hi - 1);
      RingAgree(a, b, lo, hi - 1, th);
    }
  }

  /** The same threads in the same order, in another ring at other positions. */
  lemma {:induction false} RingCopy(a: Slots, i: nat, b: Slots, j: nat, n: nat, th: Uthread)
    requires forall m: nat :: i <= m < i + n ==> At(a, m) == At(b, m - i + j)
    ensures InRing(a, i, i + n, th) == InRing(b, j, j + n, th)
  {
    if n > 0 {
      assert At(a, i + n - 1) == At(b, j + n - 1);
      RingCopy(a, i, b, j, n - 1, th);
    }
  }

  lemma {:induction false} RingSplit(rq: Slots, lo: nat, mid: nat, hi: nat, th: Uthread)
    requires lo <= mid <= hi
    ensures InRing(rq, lo, hi, th) == InRing(rq, lo, mid, th) + InRing(rq, mid, hi, th)
    decreases hi
  {
    if mid < hi {
      RingSplit(rq, lo, mid, hi - 1, th);
    }
  }

  lemma RingFirst(rq: Slots, lo: nat, hi: nat, th: Uthread)
    requires lo < hi
    ensures InRing(rq, lo, hi, th) == One(At(rq, lo) == th) + InRing(rq, lo + 1, hi, th)
  {
    RingSplit(rq, lo, lo + 1, hi, th);
    assert InRing(rq, lo, lo, th) == 0;
  }

  lemma Single(x: Uthread, th: Uthread)
    ensures Count([], th) == 0 && Count([x], th) == One(x == th)
  {
    assert [x][1..] == [];
  }

  lemma {:induction false} SeqSplit(a: seq<Uthread>, b: seq<Uthread>, th: Uthread)
    ensures Count(a + b, th) == Count(a, th) + Count(b, th)
  {
    if a == [] {
      assert a + b == b;
    } else {
      SeqSplit(a[1..], b, th);
      assert (a + b)[1..] == a[1..] + b;
    }
  }

  /** The first and the rest of a list that is not empty. */
  lemma SeqFirst(s: seq<Uthread>, th: Uthread)
    requires s != []
    ensures Count(s, th) == One(s[0] == th) + Count(s[1..], th)
  {
  }

  lemma SeqLast(s: seq<Uthread>, x: Uthread, th: Uthread)
    ensures Count(s + [x], th) == Count(s, th) + One(x == th)
  {
    SeqSplit(s, [x], th);
    Single(x, th);
  }

  /** Writing the slot just past the unread slots of a ring that is not full leaves them alone. */
  lemma WriteKeepsUnread(rq: Slots, lo: nat, hi: nat, x: Uthread)
    requires lo <= hi < lo + RQ_SIZE
    ensures forall i: nat :: lo <= i < hi ==> At(rq[Slot(hi) := x], i) == At(rq, i)
    ensures At(rq[Slot(hi) := x], hi) == x
  {
    forall i: nat | lo <= i < hi ensures At(rq[Slot(hi) := x], i) == At(rq, i) {
      SlotsDiffer(i, hi);
    }
  }

  lemma WriteCounts(rq: Slots, lo: nat, hi: nat, x: Uthread, th: Uthread)
    requires lo <= hi < lo + RQ_SIZE
    ensures InRing(rq[Slot(hi) := x], lo, hi, th) == InRing(rq, lo, hi, th)
    ensures InRing(rq[Slot(hi) := x], lo, hi + 1, th) == InRing(rq, lo, hi, th) + One(x == th)
  {
    WriteKeepsUnread(rq, lo, hi, x);
    RingAgree(rq[Slot(hi) := x], rq, lo, hi, th);
  }

  // ---------------------------------------------------------------- drain_overflow

  predicate Shaped(k: Kthread) {
    k.tail <= k.head <= k.tail + RQ_SIZE
  }

  /** How often `th` is in the ring or on the overflow list. */
  function Queued(k: Kthread, th: Uthread): nat
    requires Shaped(k)
  {
    InRing(k.rq, k.tail, k.head, th) + Count(k.overflow, th)
  }

  /** One thread into the queue: the ring if there is room, the overflow list otherwise. */
  function Push(k: Kthread, x: Uthread): Kthread
    requires Shaped(k)
  {
    if k.head - k.tail < RQ_SIZE
    then k.(rq := k.rq[Slot(k.head) := x], head := k.head + 1)
    else k.(overflow := k.overflow + [x])
  }

  lemma PushCounts(k: Kthread, x: Uthread, th: Uthread)
    requires Shaped(k)
    ensures Shaped(Push(k, x)) && Queued(Push(k, x), th) == Queued(k, th) + One(x == th)
  {
    if k.head - k.tail < RQ_SIZE {
      WriteCounts(k.rq, k.tail, k.head, x, th);
    } else {
      SeqLast(k.overflow, x, th);
    }
  }

  /** The loop of drain_overflow: overflow threads move to the ring while there is room. */
  function DrainAll(k: Kthread): (r: Kthread)
    requires Shaped(k)
    ensures Shaped(r) && r.tail == k.tail && k.head <= r.head
    ensures r.overflow == [] || r.head == r.tail + RQ_SIZE
    ensures r.head - k.head == |k.overflow| - |r.overflow|
    ensures r == k.(rq := r.rq, head := r.head, overflow := r.overflow)
    decreases |k.overflow|
  {
    if k.head - k.tail < RQ_SIZE && k.overflow != [] then
      DrainAll(Push(k.(overflow := k.overflow[1..]), k.overflow[0]))
    else k
  }

  lemma {:induction false} DrainConserves(k: Kthread, th: Uthread)
    requires Shaped(k)
    ensures Queued(DrainAll(k), th) == Queued(k, th)
    decreases |k.overflow|
  {
    if k.head - k.tail < RQ_SIZE && k.overflow != [] {
      var m := k.(overflow := k.overflow[1..]);
      PushCounts(m, k.overflow[0], th);
      DrainConserves(Push(m, k.overflow[0]), th);
      SeqFirst(k.overflow, th);
    }
  }

  // ---------------------------------------------------------------- the transition system

  predicate IsVictim(s: State, l: nat, r: nat) {
    l < |s.ks| && r < |s.ks| && r != l
  }

  predicate Enabled(s: State, l: nat, a: Action)
    requires l < |s.ks|
  {
    var k := s.ks[l];
    match a
    // thread_ready: only a sleeping thread may be made runnable
    case LoadTail(th) => k.pc.Running? && th !in s.runnable
    case WriteSlot => k.pc.TailLoaded? && k.head - k.pc.seen < RQ_SIZE
    case PublishHead => k.pc.SlotWritten?
    case Spill =>
      || (k.pc.TailLoaded? && k.head - k.pc.seen >= RQ_SIZE)
      || (k.pc.Spilling? && k.lock.Free?)
    // schedule, enter_schedule, thread_yield
    case LockSelf => k.pc.Running? && k.lock.Free?
    case UnlockSelf => k.pc.Scheduling?
    case Drain => k.pc.Scheduling?
    case Pop => k.pc.Scheduling? && k.head != k.tail
    case Reset => k.pc.Scheduling? && k.head == k.tail
    // steal_work
    case LockVictim(r) => k.pc.Scheduling? && IsVictim(s, l, r) && s.ks[r].lock.Free?
    case LoadVictimHead => k.pc.VictimLocked? && k.pc.victim < |s.ks|
    case CopySlot =>
      && k.pc.Copying? && k.pc.victim < |s.ks|
      && k.pc.ringed + k.pc.spilled < k.pc.avail
    case PublishVictimTail =>
      && k.pc.Copying? && IsVictim(s, l, k.pc.victim)
      && k.pc.ringed + k.pc.spilled == k.pc.avail
    case UnlockVictim => k.pc.TailPublished? && IsVictim(s, l, k.pc.victim)
    case Adopt => k.pc.Adopting?
    case TakeOverflow =>
      && k.pc.VictimEmpty? && IsVictim(s, l, k.pc.victim) && s.ks[k.pc.victim].overflow != []
    case TakeSoftirq(th) =>
      && k.pc.VictimEmpty? && IsVictim(s, l, k.pc.victim) && s.ks[k.pc.victim].overflow == []
      && th !in s.runnable
    case GiveUp =>
      && k.pc.VictimEmpty? && IsVictim(s, l, k.pc.victim) && s.ks[k.pc.victim].overflow == []
  }

  predicate AllShaped(s: State) {
    forall i :: 0 <= i < |s.ks| ==> Shaped(s.ks[i])
  }

  /** The steal_work loop bodies: into the ring while there is room, else onto the overflow list. */
  function CopyOne(k: Kthread, v: Kthread): Kthread
    requires k.pc.Copying? && Shaped(k)
  {
    var th := v.rq[Slot(v.tail + k.pc.ringed + k.pc.spilled)];
    if k.pc.spilled == 0 && k.head + k.pc.ringed - k.tail < RQ_SIZE then
      k.(rq := k.rq[Slot(k.head + k.pc.ringed) := th], 
         pc := Copying(k.pc.victim, k.pc.avail, k.pc.ringed + 1, k.pc.spilled))
    else
      k.(overflow := k.overflow + [th], 
         pc := Copying(k.pc.victim, k.pc.avail, k.pc.ringed, k.pc.spilled + 1))
  }

  function Do(s: State, l: nat, a: Action): State
    requires l < |s.ks| && AllShaped(s) && Enabled(s, l, a)
  {
    var k := s.ks[l];
    assert Shaped(k);
    match a
    case LoadTail(th) =>
      State(s.ks[l := k.(pc := TailLoaded(th, k.tail), qHead := k.qHead + 1)],
            s.runnable + {th})
    case WriteSlot =>
      s.(ks := s.ks[l := k.(rq := k.rq[Slot(k.head) := k.pc.th], pc := SlotWritten(k.pc.th))])
    case PublishHead => s.(ks := s.ks[l := k.(head := k.head + 1, pc := Running)])
    case Spill =>
      if k.pc.TailLoaded? then s.(ks := s.ks[l := k.(pc := Spilling(k.pc.th))])
      else s.(ks := s.ks[l := k.(overflow := k.overflow + [k.pc.th], pc := Running)])
    case LockSelf => s.(ks := s.ks[l := k.(lock := HeldBy(l), pc := Scheduling)])
    case UnlockSelf => s.(ks := s.ks[l := k.(lock := Free, pc := Running)])
    case Drain => s.(ks := s.ks[l := DrainAll(k)])
    case Pop =>
      State(s.ks[l := k.(tail := k.tail + 1, qTail := k.qTail + 1)],
            s.runnable - {k.rq[Slot(k.tail)]})
    case Reset => s.(ks := s.ks[l := k.(head := 0, tail := 0)])
    case LockVictim(r) =>
      s.(ks := s.ks[l := k.(pc := VictimLocked(r))][r := s.ks[r].(lock := HeldBy(l))])
    case LoadVictimHead =>
      var v := s.ks[k.pc.victim];
      assert Shaped(v);
      var avail := v.head - v.tail;
      if avail == 0 then s.(ks := s.ks[l := k.(pc := VictimEmpty(k.pc.victim))])
      else s.(ks := s.ks[l := k.(pc := Copying(k.pc.victim, (avail + 1) / 2, 0, 0))])
    case CopySlot => s.(ks := s.ks[l := CopyOne(k, s.ks[k.pc.victim])])
    case PublishVictimTail =>
      var v := s.ks[k.pc.victim];
      s.(ks := s.ks[l := k.(pc := TailPublished(k.pc.victim, k.pc.ringed, k.pc.spilled))]
                   [k.pc.victim := v.(tail := v.tail + k.pc.avail, qTail := v.qTail + k.pc.avail)])
    case UnlockVictim =>
      s.(ks := s.ks[l := k.(pc := Adopting(k.pc.ringed, k.pc.spilled))]
                   [k.pc.victim := s.ks[k.pc.victim].(lock := Free)])
    case Adopt =>
      s.(ks := s.ks[l := k.(head := k.head + k.pc.ringed,
                            qHead := k.qHead + k.pc.ringed + k.pc.spilled, pc := Scheduling)])
    case TakeOverflow =>
      var v := s.ks[k.pc.victim];
      var p := Push(k, v.overflow[0]);
      s.(ks := s.ks[l := p.(qHead := k.qHead + 1, pc := Scheduling)]
                   [k.pc.victim := v.(overflow := v.overflow[1..], qTail := v.qTail + 1, lock := Free)])
    case TakeSoftirq(th) =>
      var p := Push(k, th);
      State(s.ks[l := p.(qHead := k.qHead + 1, pc := Scheduling)]
                [k.pc.victim := s.ks[k.pc.victim].(lock := Free)],
            s.runnable + {th})
    case GiveUp =>
      s.(ks := s.ks[l := k.(pc := Scheduling)]
                   [k.pc.victim := s.ks[k.pc.victim].(lock := Free)])
  }

  // ---------------------------------------------------------------- the invariant

  predicate HoldsOwnLock(pc: Pc) {
    !pc.Running? && !pc.TailLoaded? && !pc.SlotWritten? && !pc.Spilling?
  }

  predicate HoldsVictimLock(pc: Pc) {
    pc.VictimLocked? || pc.VictimEmpty? || pc.Copying? || pc.TailPublished?
  }

  predicate MidSteal(pc: Pc) {
    pc.Copying? || pc.TailPublished? || pc.Adopting?
  }

  /** Threads copied into the ring, and appended to the overflow list, by a steal in progress. */
  function Ringed(pc: Pc): nat {
    if MidSteal(pc) then pc.ringed else 0
  }

  function Spilled(pc: Pc): nat {
    if MidSteal(pc) then pc.spilled else 0
  }

  /** The thread a push in progress is carrying. */
  function InHand(pc: Pc): seq<Uthread> {
    if pc.TailLoaded? || pc.SlotWritten? || pc.Spilling? then [pc.th] else []
  }

  /** The part of the invariant that speaks of one kthread only. */
  predicate LocalOk(k: Kthread) {
    && Shaped(k)
    && (k.pc.TailLoaded? ==> k.pc.seen <= k.tail)
    && (k.pc.SlotWritten? ==> k.head - k.tail < RQ_SIZE && At(k.rq, k.head) == k.pc.th)
    && k.head + Ringed(k.pc) <= k.tail + RQ_SIZE
    && Spilled(k.pc) <= |k.overflow|
    && (Spilled(k.pc) > 0 ==> k.head + Ringed(k.pc) == k.tail + RQ_SIZE)
    // the counters shown to the IOKernel
    && k.qHead + Spilled(k.pc) - k.qTail == (k.head - k.tail) + |k.overflow| + |InHand(k.pc)|
  }

  /** What a thief has copied is what is still in the victim's ring. */
  ghost predicate CopyOk(k: Kthread, v: Kthread)
    requires k.pc.Copying? && LocalOk(k)
  {
    && v.tail + k.pc.ringed + k.pc.spilled <= v.tail + k.pc.avail <= v.head
    && (forall i: nat :: k.head <= i < k.head + k.pc.ringed ==>
          At(k.rq, i) == At(v.rq, i - k.head + v.tail))
    && (forall j: nat :: j < k.pc.spilled ==>
          SpilledAt(k.overflow, k.pc.spilled, j) == At(v.rq, v.tail + k.pc.ringed + j))
  }

  /** The `j`-th of the last `n` overflow threads. */
  function SpilledAt(overflow: seq<Uthread>, n: nat, j: nat): Uthread
    requires j < n <= |overflow|
  {
    overflow[|overflow| - n + j]
  }

  predicate LocksOk(s: State, l: nat)
    requires l < |s.ks|
  {
    var k := s.ks[l];
    && (HoldsOwnLock(k.pc) ==> k.lock == HeldBy(l))
    && (HoldsVictimLock(k.pc) ==> IsVictim(s, l, k.pc.victim) && s.ks[k.pc.victim].lock == HeldBy(l))
  }

  /** How often a kthread accounts for `th`; what a thief has copied stays the victim's until the
      victim's tail is published. */
  function Owned(k: Kthread, th: Uthread): nat
    requires LocalOk(k)
  {
    var base := InRing(k.rq, k.tail, k.head, th) + Count(InHand(k.pc), th);
    if k.pc.Copying? then base + Count(k.overflow[..|k.overflow| - k.pc.spilled], th)
    else base + Count(k.overflow, th) + InRing(k.rq, k.head, k.head + Ringed(k.pc), th)
  }

  predicate AllLocal(ks: seq<Kthread>) {
    forall i :: 0 <= i < |ks| ==> LocalOk(ks[i])
  }

  function Total(ks: seq<Kthread>, th: Uthread): nat
    requires AllLocal(ks)
  {
    if ks == [] then 0 else Owned(ks[0], th) + Total(ks[1..], th)
  }

  ghost predicate Inv(s: State) {
    && AllLocal(s.ks)
    && (forall i :: 0 <= i < |s.ks| ==> LocksOk(s, i))
    && (forall i :: 0 <= i < |s.ks| && s.ks[i].pc.Copying? ==>
          s.ks[i].pc.victim < |s.ks| && CopyOk(s.ks[i], s.ks[s.ks[i].pc.victim]))
    && (forall th :: Total(s.ks, th) == One(th in s.runnable))
  }

  // ---------------------------------------------------------------- totals under updates

  lemma {:induction false} TotalUpdate(ks: seq<Kthread>, i: nat, k: Kthread, th: Uthread)
    requires i < |ks| && LocalOk(k) && AllLocal(ks)
    ensures AllLocal(ks[i := k])
    ensures Total(ks[i := k], th) + Owned(ks[i], th) == Total(ks, th) + Owned(k, th)
    decreases ks
  {
    if i == 0 {
      assert ks[i := k][1..] == ks[1..];
    } else {
      TotalUpdate(ks[1..], i - 1, k, th);
      assert ks[i := k][1..] == ks[1..][i - 1 := k];
    }
  }

  lemma TotalUpdate2(ks: seq<Kthread>, i: nat, k: Kthread, j: nat, v: Kthread, th: Uthread)
    requires i < |ks| && j < |ks| && i != j && LocalOk(k) && LocalOk(v) && AllLocal(ks)
    ensures AllLocal(ks[i := k][j := v])
    ensures Total(ks[i := k][j := v], th) + Owned(ks[i], th) + Owned(ks[j], th)
         == Total(ks, th) + Owned(k, th) + Owned(v, th)
  {
    TotalUpdate(ks, i, k, th);
    TotalUpdate(ks[i := k], j, v, th);
  }

  // ---------------------------------------------------------------- steps keep the invariant

  /** The unread slots of `k`, which a thief may be reading, are the same in `k'`. */
  ghost predicate KeepsUnread(k: Kthread, k': Kthread)
    requires Shaped(k)
  {
    && k'.tail == k.tail && k.head <= k'.head
    && forall i: nat :: k.tail <= i < k.head ==> At(k'.rq, i) == At(k.rq, i)
  }

  ghost predicate CountsMove(before: int, after: int, s: State, runnable': set<Uthread>, th: Uthread) {
    after - before == One(th in runnable') - One(th in s.runnable)
  }

  /** A step that changes only the record of the kthread taking it. */
  lemma LocalStep(s: State, l: nat, k': Kthread, runnable': set<Uthread>)
    requires Inv(s) && l < |s.ks| && LocalOk(k')
    requires LocksOk(s.(ks := s.ks[l := k']), l)
    requires k'.lock == s.ks[l].lock || s.ks[l].lock == Free || s.ks[l].lock == HeldBy(l)
    requires s.ks[l].lock == HeldBy(l) || s.ks[l].lock == Free || KeepsUnread(s.ks[l], k')
    requires k'.pc.Copying? ==> IsVictim(s, l, k'.pc.victim) && CopyOk(k', s.ks[k'.pc.victim])
    requires forall th :: CountsMove(Owned(s.ks[l], th), Owned(k', th), s, runnable', th)
    ensures Inv(State(s.ks[l := k'], runnable'))
  {
    hide Slot, InRing, Count, Owned;
    var s' := State(s.ks[l := k'], runnable');
    forall th ensures Total(s'.ks, th) == One(th in s'.runnable) {
      TotalUpdate(s.ks, l, k', th);
      assert CountsMove(Owned(s.ks[l], th), Owned(k', th), s, runnable', th);
    }
    forall i | 0 <= i < |s'.ks|
      ensures LocksOk(s', i)
      ensures s'.ks[i].pc.Copying? ==>
        s'.ks[i].pc.victim < |s'.ks| && CopyOk(s'.ks[i], s'.ks[s'.ks[i].pc.victim])
    {
      assert LocksOk(s, i) && LocksOk(s, l) && LocalOk(s.ks[i]);
    }
  }

  /** A step of thief `l` that also changes the record of the kthread `r` it has locked. */
  lemma PairStep(s: State, l: nat, k': Kthread, r: nat, v': Kthread, runnable': set<Uthread>)
    requires Inv(s) && IsVictim(s, l, r) && LocalOk(k') && LocalOk(v')
    requires s.ks[l].lock == HeldBy(l) && k'.lock == HeldBy(l) && !k'.pc.Copying?
    requires s.ks[r].lock == Free || s.ks[r].lock == HeldBy(l)
    requires v'.pc == s.ks[r].pc
    requires HoldsVictimLock(k'.pc) ==> k'.pc.victim == r && v'.lock == HeldBy(l)
    requires forall th :: CountsMove(Owned(s.ks[l], th) + Owned(s.ks[r], th),
                                     Owned(k', th) + Owned(v', th), s, runnable', th)
    ensures Inv(State(s.ks[l := k'][r := v'], runnable'))
  {
    hide Slot, InRing, Count, Owned;
    var s' := State(s.ks[l := k'][r := v'], runnable');
    forall th ensures Total(s'.ks, th) == One(th in s'.runnable) {
      TotalUpdate2(s.ks, l, k', r, v', th);
      assert CountsMove(Owned(s.ks[l], th) + Owned(s.ks[r], th),
                        Owned(k', th) + Owned(v', th), s, runnable', th);
    }
    forall i | 0 <= i < |s'.ks|
      ensures LocksOk(s', i)
      ensures s'.ks[i].pc.Copying? ==>
        s'.ks[i].pc.victim < |s'.ks| && CopyOk(s'.ks[i], s'.ks[s'.ks[i].pc.victim])
    {
      assert LocksOk(s, i) && LocksOk(s, l) && LocksOk(s, r) && LocalOk(s.ks[i]);
    }
  }

  /** thread_ready, against any thief: the slot it writes is not one a thief may be reading. */
  lemma WriteSlotStep(s: State, l: nat)
    requires Inv(s) && l < |s.ks| && AllShaped(s) && Enabled(s, l, WriteSlot)
    ensures Inv(Do(s, l, WriteSlot))
  {
    hide Slot;
    var s', k := Do(s, l, WriteSlot), s.ks[l];
    var k' := s'.ks[l];
    assert LocalOk(k) && LocksOk(s, l);
    WriteKeepsUnread(k.rq, k.tail, k.head, k.pc.th);
    forall th ensures CountsMove(Owned(k, th), Owned(k', th), s, s'.runnable, th) {
      WriteCounts(k.rq, k.tail, k.head, k.pc.th, th);
    }
    LocalStep(s, l, k', s'.runnable);
  }

  lemma PublishHeadStep(s: State, l: nat)
    requires Inv(s) && l < |s.ks| && AllShaped(s) && Enabled(s, l, PublishHead)
    ensures Inv(Do(s, l, PublishHead))
  {
    hide Slot;
    var s', k := Do(s, l, PublishHead), s.ks[l];
    var k' := s'.ks[l];
    assert LocalOk(k) && LocksOk(s, l);
    forall th ensures CountsMove(Owned(k, th), Owned(k', th), s, s'.runnable, th) {
      Single(k.pc.th, th);
    }
    LocalStep(s, l, k', s'.runnable);
  }

  lemma LoadTailStep(s: State, l: nat, x: Uthread)
    requires Inv(s) && l < |s.ks| && AllShaped(s) && Enabled(s, l, LoadTail(x))
    ensures Inv(Do(s, l, LoadTail(x)))
  {
    hide Slot, InRing;
    var s', k := Do(s, l, LoadTail(x)), s.ks[l];
    var k' := s'.ks[l];
    assert LocalOk(k) && LocksOk(s, l);
    forall th ensures CountsMove(Owned(k, th), Owned(k', th), s, s'.runnable, th) {
      Single(x, th);
    }
    LocalStep(s, l, k', s'.runnable);
  }

  lemma SpillStep(s: State, l: nat)
    requires Inv(s) && l < |s.ks| && AllShaped(s) && Enabled(s, l, Spill)
    ensures Inv(Do(s, l, Spill))
  {
    hide Slot, InRing;
    var s', k := Do(s, l, Spill), s.ks[l];
    var k' := s'.ks[l];
    assert LocalOk(k) && LocksOk(s, l);
    forall th ensures CountsMove(Owned(k, th), Owned(k', th), s, s'.runnable, th) {
      SeqLast(k.overflow, k.pc.th, th);
      Single(k.pc.th, th);
    }
    LocalStep(s, l, k', s'.runnable);
  }

  lemma LockSelfStep(s: State, l: nat, a: Action)
    requires Inv(s) && l < |s.ks| && AllShaped(s) && (a.LockSelf? || a.UnlockSelf?) && Enabled(s, l, a)
    ensures Inv(Do(s, l, a))
  {
    hide Slot, InRing;
    var s', k := Do(s, l, a), s.ks[l];
    assert LocalOk(k) && LocksOk(s, l);
    LocalStep(s, l, s'.ks[l], s.runnable);
  }

  lemma DrainStep(s: State, l: nat)
    requires Inv(s) && l < |s.ks| && AllShaped(s) && Enabled(s, l, Drain)
    ensures Inv(Do(s, l, Drain))
  {
    hide Slot;
    var k := s.ks[l];
    assert LocalOk(k) && LocksOk(s, l);
    forall th ensures Owned(DrainAll(k), th) == Owned(k, th) {
      DrainConserves(k, th);
    }
    LocalStep(s, l, DrainAll(k), s.runnable);
  }

  lemma ResetStep(s: State, l: nat)
    requires Inv(s) && l < |s.ks| && AllShaped(s) && Enabled(s, l, Reset)
    ensures Inv(Do(s, l, Reset))
  {
    var k := s.ks[l];
    assert LocalOk(k) && LocksOk(s, l);
    LocalStep(s, l, k.(head := 0, tail := 0), s.runnable);
  }

  lemma PopStep(s: State, l: nat)
    requires Inv(s) && l < |s.ks| && AllShaped(s) && Enabled(s, l, Pop)
    ensures Inv(Do(s, l, Pop))
  {
    hide Slot, InRing;
    var k := s.ks[l];
    assert LocalOk(k) && LocksOk(s, l);
    var k' := k.(tail := k.tail + 1, qTail := k.qTail + 1);
    PopIsRunnable(s, l);
    forall th ensures Owned(k', th) == Owned(k, th) - One(At(k.rq, k.tail) == th) {
      RingFirst(k.rq, k.tail, k.head, th);
    }
    LocalStep(s, l, k', s.runnable - {At(k.rq, k.tail)});
  }

  lemma {:induction false} OwnedIsCounted(ks: seq<Kthread>, i: nat, th: Uthread)
    requires i < |ks| && AllLocal(ks)
    ensures Owned(ks[i], th) <= Total(ks, th)
  {
    if i > 0 {
      OwnedIsCounted(ks[1..], i - 1, th);
    }
  }

  lemma PopIsRunnable(s: State, l: nat)
    requires Inv(s) && l < |s.ks| && s.ks[l].pc.Scheduling? && s.ks[l].head != s.ks[l].tail
    ensures At(s.ks[l].rq, s.ks[l].tail) in s.runnable
  {
    var k := s.ks[l];
    assert LocalOk(k);
    var th := At(k.rq, k.tail);
    RingFirst(k.rq, k.tail, k.head, th);
    OwnedIsCounted(s.ks, l, th);
    assert Total(s.ks, th) == One(th in s.runnable);
  }

  /** One more slot copied, seen from the thief's record alone. */
  lemma CopyToRing(k: Kthread, v: Kthread)
    requires k.pc.Copying? && LocalOk(k) && CopyOk(k, v) && k.pc.ringed + k.pc.spilled < k.pc.avail
    requires k.pc.spilled == 0 && k.head + k.pc.ringed - k.tail < RQ_SIZE
    ensures var k' := CopyOne(k, v);
      && LocalOk(k') && CopyOk(k', v) && forall th :: Owned(k', th) == Owned(k, th)
  {
    hide Slot;
    var k', x := CopyOne(k, v), At(v.rq, v.tail + k.pc.ringed);
    WriteKeepsUnread(k.rq, k.tail, k.head + k.pc.ringed, x);
    assert k'.rq == k.rq[Slot(k.head + k.pc.ringed) := x];
    forall i: nat | k.head <= i < k.head + k.pc.ringed + 1
      ensures At(k'.rq, i) == At(v.rq, i - k.head + v.tail)
    {
      if i < k.head + k.pc.ringed {
        assert At(k.rq, i) == At(v.rq, i - k.head + v.tail);
      } else {
        assert i - k.head + v.tail == v.tail + k.pc.ringed;
      }
    }
    forall th ensures Owned(k', th) == Owned(k, th) {
      RingAgree(k'.rq, k.rq, k.tail, k.head, th);
    }
  }

  lemma CopyToOverflow(k: Kthread, v: Kthread)
    requires k.pc.Copying? && LocalOk(k) && CopyOk(k, v) && k.pc.ringed + k.pc.spilled < k.pc.avail
    requires !(k.pc.spilled == 0 && k.head + k.pc.ringed - k.tail < RQ_SIZE)
    ensures var k' := CopyOne(k, v);
      && LocalOk(k') && CopyOk(k', v) && forall th :: Owned(k', th) == Owned(k, th)
  {
    hide Slot;
    var k' := CopyOne(k, v);
    forall j: nat | j < k'.pc.spilled
      ensures SpilledAt(k'.overflow, k'.pc.spilled, j) == At(v.rq, v.tail + k.pc.ringed + j)
    {
      assert j < k.pc.spilled ==>
        SpilledAt(k.overflow, k.pc.spilled, j) == At(v.rq, v.tail + k.pc.ringed + j);
    }
    assert k'.overflow[..|k'.overflow| - k'.pc.spilled] == k.overflow[..|k.overflow| - k.pc.spilled];
  }

  lemma CopySlotStep(s: State, l: nat)
    requires Inv(s) && l < |s.ks| && AllShaped(s) && Enabled(s, l, CopySlot)
    ensures Inv(Do(s, l, CopySlot))
  {
    hide Slot, InRing, Count, Owned;
    var k, v := s.ks[l], s.ks[s.ks[l].pc.victim];
    assert LocalOk(k) && LocksOk(s, l) && CopyOk(k, v);
    if k.pc.spilled == 0 && k.head + k.pc.ringed - k.tail < RQ_SIZE {
      CopyToRing(k, v);
    } else {
      CopyToOverflow(k, v);
    }
    LocalStep(s, l, CopyOne(k, v), s.runnable);
  }

  lemma {:induction false} SeqIsRing(xs: seq<Uthread>, rq: Slots, lo: nat, th: Uthread)
    requires forall j: nat :: j < |xs| ==> xs[j] == At(rq, lo + j)
    ensures Count(xs, th) == InRing(rq, lo, lo + |xs|, th)
  {
    if xs != [] {
      SeqIsRing(xs[1..], rq, lo + 1, th);
      RingFirst(rq, lo, lo + |xs|, th);
      assert xs[0] == At(rq, lo + 0);
    }
  }

  lemma SpilledCounts(overflow: seq<Uthread>, n: nat, rq: Slots, lo: nat, th: Uthread)
    requires n <= |overflow|
    requires forall j: nat :: j < n ==> SpilledAt(overflow, n, j) == At(rq, lo + j)
    ensures Count(overflow, th) == Count(overflow[..|overflow| - n], th) + InRing(rq, lo, lo + n, th)
  {
    var m := |overflow| - n;
    assert overflow == overflow[..m] + overflow[m..];
    SeqSplit(overflow[..m], overflow[m..], th);
    forall j: nat | j < n ensures overflow[m..][j] == At(rq, lo + j) {
      assert SpilledAt(overflow, n, j) == At(rq, lo + j);
    }
    SeqIsRing(overflow[m..], rq, lo, th);
  }

  /** The copies, in the ring and on the overflow list, are the first `avail` of the victim. */
  lemma StolenCounts(k: Kthread, v: Kthread, th: Uthread)
    requires k.pc.Copying? && LocalOk(k) && CopyOk(k, v) && k.pc.ringed + k.pc.spilled == k.pc.avail
    ensures InRing(v.rq, v.tail, v.tail + k.pc.avail, th)
         == InRing(k.rq, k.head, k.head + k.pc.ringed, th)
          + Count(k.overflow, th) - Count(k.overflow[..|k.overflow| - k.pc.spilled], th)
  {
    hide Slot, InRing, Count;
    RingCopy(k.rq, k.head, v.rq, v.tail, k.pc.ringed, th);
    SpilledCounts(k.overflow, k.pc.spilled, v.rq, v.tail + k.pc.ringed, th);
    RingSplit(v.rq, v.tail, v.tail + k.pc.ringed, v.tail + k.pc.avail, th);
  }

  /** Publishing the victim's tail hands over exactly the threads that were copied. */
  lemma PublishHandsOver(k: Kthread, v: Kthread)
    requires k.pc.Copying? && LocalOk(k) && LocalOk(v) && CopyOk(k, v) && !MidSteal(v.pc)
    requires k.pc.ringed + k.pc.spilled == k.pc.avail
    ensures var k' := k.(pc := TailPublished(k.pc.victim, k.pc.ringed, k.pc.spilled));
      var v' := v.(tail := v.tail + k.pc.avail, qTail := v.qTail + k.pc.avail);
      && LocalOk(k') && LocalOk(v')
      && forall th :: Owned(k', th) + Owned(v', th) == Owned(k, th) + Owned(v, th)
  {
    hide Slot, InRing, Count;
    var k' := k.(pc := TailPublished(k.pc.victim, k.pc.ringed, k.pc.spilled));
    var v' := v.(tail := v.tail + k.pc.avail, qTail := v.qTail + k.pc.avail);
    forall th ensures Owned(k', th) + Owned(v', th) == Owned(k, th) + Owned(v, th) {
      StolenCounts(k, v, th);
      RingSplit(v.rq, v.tail, v.tail + k.pc.avail, v.head, th);
    }
  }

  lemma PublishVictimTailStep(s: State, l: nat)
    requires Inv(s) && l < |s.ks| && AllShaped(s) && Enabled(s, l, PublishVictimTail)
    ensures Inv(Do(s, l, PublishVictimTail))
  {
    hide Slot, InRing, Count, Owned;
    var r := s.ks[l].pc.victim;
    var s', k, v := Do(s, l, PublishVictimTail), s.ks[l], s.ks[r];
    assert LocalOk(k) && LocalOk(v) && LocksOk(s, l) && LocksOk(s, r) && CopyOk(k, v);
    PublishHandsOver(k, v);
    PairStep(s, l, s'.ks[l], r, s'.ks[r], s'.runnable);
  }

  lemma AdoptStep(s: State, l: nat)
    requires Inv(s) && l < |s.ks| && AllShaped(s) && Enabled(s, l, Adopt)
    ensures Inv(Do(s, l, Adopt))
  {
    hide Slot;
    var s', k := Do(s, l, Adopt), s.ks[l];
    var k' := s'.ks[l];
    assert LocalOk(k) && LocksOk(s, l);
    forall th ensures CountsMove(Owned(k, th), Owned(k', th), s, s'.runnable, th) {
      RingSplit(k.rq, k.tail, k.head, k.head + k.pc.ringed, th);
    }
    LocalStep(s, l, k', s'.runnable);
  }

  lemma LockFrame(v: Kthread, lock: Lock)
    requires LocalOk(v)
    ensures LocalOk(v.(lock := lock)) && forall th :: Owned(v.(lock := lock), th) == Owned(v, th)
  {
  }

  lemma LockVictimStep(s: State, l: nat, r: nat)
    requires Inv(s) && l < |s.ks| && AllShaped(s) && Enabled(s, l, LockVictim(r))
    ensures Inv(Do(s, l, LockVictim(r)))
  {
    hide Slot, InRing;
    var s', k, v := Do(s, l, LockVictim(r)), s.ks[l], s.ks[r];
    assert LocalOk(k) && LocalOk(v) && LocksOk(s, l) && LocksOk(s, r);
    var k', v' := k.(pc := VictimLocked(r)), v.(lock := HeldBy(l));
    assert forall th :: Owned(k', th) == Owned(k, th) && Owned(v', th) == Owned(v, th);
    PairStep(s, l, k', r, v', s.runnable);
  }

  lemma UnlockVictimStep(s: State, l: nat)
    requires Inv(s) && l < |s.ks| && AllShaped(s) && Enabled(s, l, UnlockVictim)
    ensures Inv(Do(s, l, UnlockVictim))
  {
    hide Slot, InRing;
    var r := s.ks[l].pc.victim;
    var k, v := s.ks[l], s.ks[r];
    assert LocalOk(k) && LocalOk(v) && LocksOk(s, l) && LocksOk(s, r);
    var k', v' := k.(pc := Adopting(k.pc.ringed, k.pc.spilled)), v.(lock := Free);
    assert forall th :: Owned(k', th) == Owned(k, th) && Owned(v', th) == Owned(v, th);
    PairStep(s, l, k', r, v', s.runnable);
  }

  lemma GiveUpStep(s: State, l: nat)
    requires Inv(s) && l < |s.ks| && AllShaped(s) && Enabled(s, l, GiveUp)
    ensures Inv(Do(s, l, GiveUp))
  {
    hide Slot, InRing;
    var r := s.ks[l].pc.victim;
    var k, v := s.ks[l], s.ks[r];
    assert LocalOk(k) && LocalOk(v) && LocksOk(s, l) && LocksOk(s, r);
    var k', v' := k.(pc := Scheduling), v.(lock := Free);
    assert forall th :: Owned(k', th) == Owned(k, th) && Owned(v', th) == Owned(v, th);
    PairStep(s, l, k', r, v', s.runnable);
  }

  lemma LoadVictimHeadStep(s: State, l: nat)
    requires Inv(s) && l < |s.ks| && AllShaped(s) && Enabled(s, l, LoadVictimHead)
    ensures Inv(Do(s, l, LoadVictimHead))
  {
    hide Slot;
    var s', k, v := Do(s, l, LoadVictimHead), s.ks[l], s.ks[s.ks[l].pc.victim];
    var k' := s'.ks[l];
    assert LocalOk(k) && LocalOk(v) && LocksOk(s, l);
    assert k.overflow[..|k.overflow|] == k.overflow;
    LocalStep(s, l, k', s'.runnable);
  }

  /** The thief's record after it queued one more thread. */
  function Taken(k: Kthread, x: Uthread): Kthread
    requires Shaped(k)
  {
    Push(k, x).(qHead := k.qHead + 1, pc := Scheduling)
  }

  lemma TakenCounts(k: Kthread, x: Uthread)
    requires LocalOk(k) && k.pc.VictimEmpty?
    ensures LocalOk(Taken(k, x)) && forall th :: Owned(Taken(k, x), th) == Owned(k, th) + One(x == th)
  {
    hide Slot;
    PushCounts(k, x, x);
    forall th ensures Owned(Taken(k, x), th) == Owned(k, th) + One(x == th) {
      PushCounts(k, x, th);
    }
  }

  function Robbed(v: Kthread): Kthread
    requires v.overflow != []
  {
    v.(overflow := v.overflow[1..], qTail := v.qTail + 1, lock := Free)
  }

  lemma RobbedCounts(v: Kthread)
    requires LocalOk(v) && !HoldsOwnLock(v.pc) && v.overflow != []
    ensures LocalOk(Robbed(v))
    ensures forall th :: Owned(Robbed(v), th) == Owned(v, th) - One(v.overflow[0] == th)
  {
    hide Slot, InRing;
    forall th ensures Owned(Robbed(v), th) == Owned(v, th) - One(v.overflow[0] == th) {
      SeqFirst(v.overflow, th);
    }
  }

  lemma TakeOverflowStep(s: State, l: nat)
    requires Inv(s) && l < |s.ks| && AllShaped(s) && Enabled(s, l, TakeOverflow)
    ensures Inv(Do(s, l, TakeOverflow))
  {
    hide Slot, InRing, Count, Owned;
    var r := s.ks[l].pc.victim;
    var k, v := s.ks[l], s.ks[r];
    assert LocalOk(k) && LocalOk(v) && LocksOk(s, l) && LocksOk(s, r);
    TakenCounts(k, v.overflow[0]);
    RobbedCounts(v);
    PairStep(s, l, Taken(k, v.overflow[0]), r, Robbed(v), s.runnable);
  }

  lemma TakeSoftirqStep(s: State, l: nat, x: Uthread)
    requires Inv(s) && l < |s.ks| && AllShaped(s) && Enabled(s, l, TakeSoftirq(x))
    ensures Inv(Do(s, l, TakeSoftirq(x)))
  {
    hide Slot, InRing, Count, Owned;
    var r := s.ks[l].pc.victim;
    var k, v := s.ks[l], s.ks[r];
    assert LocalOk(k) && LocalOk(v) && LocksOk(s, l) && LocksOk(s, r);
    TakenCounts(k, x);
    LockFrame(v, Free);
    PairStep(s, l, Taken(k, x), r, v.(lock := Free), s.runnable + {x});
  }

  /** Every step of every kthread keeps the invariant. */
  lemma StepKeepsInv(s: State, l: nat, a: Action)
    requires Inv(s) && l < |s.ks| && AllShaped(s) && Enabled(s, l, a)
    ensures Inv(Do(s, l, a)) && |Do(s, l, a).ks| == |s.ks|
  {
    match a
    case LoadTail(x) => LoadTailStep(s, l, x);
    case WriteSlot => WriteSlotStep(s, l);
    case PublishHead => PublishHeadStep(s, l);
    case Spill => SpillStep(s, l);
    case LockVictim(r) => LockVictimStep(s, l, r);
    case LoadVictimHead => LoadVictimHeadStep(s, l);
    case CopySlot => CopySlotStep(s, l);
    case PublishVictimTail => PublishVictimTailStep(s, l);
    case UnlockVictim => UnlockVictimStep(s, l);
    case Adopt => AdoptStep(s, l);
    case TakeOverflow => TakeOverflowStep(s, l);
    case TakeSoftirq(x) => TakeSoftirqStep(s, l, x);
    case GiveUp => GiveUpStep(s, l);
    case Drain => DrainStep(s, l);
    case Pop => PopStep(s, l);
    case Reset => ResetStep(s, l);
    case _ => LockSelfStep(s, l, a);
  }

  // ---------------------------------------------------------------- whole runs

  function Boot(n: nat): State {
    State(seq(n, _ => Kthread(seq(RQ_SIZE, _ => 0), 0, 0, [], 0, 0, Free, Running)), {})
  }

  datatype Event = Event(kthread: nat, action: Action)

  /** `run` starts at boot and each state follows by one enabled step of one kthread. */
  ghost predicate IsRun(run: seq<State>, events: seq<Event>, n: nat) {
    && |run| == |events| + 1 && run[0] == Boot(n)
    && forall i :: 0 <= i < |events| ==> IsStep(run[i], events[i], run[i + 1])
  }

  ghost predicate IsStep(s: State, e: Event, s': State) {
    && e.kthread < |s.ks| && AllShaped(s) && Enabled(s, e.kthread, e.action)
    && s' == Do(s, e.kthread, e.action)
  }

  lemma {:induction false} BootInv(n: nat)
    ensures Inv(Boot(n))
  {
    forall th ensures Total(Boot(n).ks, th) == 0 {
      if n > 0 {
        BootInv(n - 1);
        assert Boot(n).ks[1..] == Boot(n - 1).ks;
        assert Total(Boot(n - 1).ks, th) == One(th in Boot(n - 1).runnable);
      }
    }
  }

  lemma {:induction false} RunKeepsInv(run: seq<State>, events: seq<Event>, n: nat, i: nat)
    requires IsRun(run, events, n) && i < |run|
    ensures Inv(run[i]) && |run[i].ks| == n
  {
    if i == 0 {
      BootInv(n);
    } else {
      RunKeepsInv(run, events, n, i - 1);
      assert IsStep(run[i - 1], events[i - 1], run[i]);
      StepKeepsInv(run[i - 1], events[i - 1].kthread, events[i - 1].action);
    }
  }

  predicate AtRest(k: Kthread) {
    k.pc.Running? || k.pc.Scheduling?
  }

  /** The rings and overflow lists of all kthreads, as one count. */
  function QueuedAnywhere(ks: seq<Kthread>, th: Uthread): nat
    requires forall i :: 0 <= i < |ks| ==> Shaped(ks[i])
  {
    if ks == [] then 0 else Queued(ks[0], th) + QueuedAnywhere(ks[1..], th)
  }

  lemma {:induction false} RestCounts(ks: seq<Kthread>, th: Uthread)
    requires AllLocal(ks) && forall i :: 0 <= i < |ks| ==> AtRest(ks[i])
    ensures forall i :: 0 <= i < |ks| ==> Shaped(ks[i])
    ensures Total(ks, th) == QueuedAnywhere(ks, th)
  {
    if ks != [] {
      assert LocalOk(ks[0]) && AtRest(ks[0]);
      RestCounts(ks[1..], th);
    }
  }

  /** In every reachable state no ring holds more than 32 threads.  In every reachable state where
      no push or steal is in progress, each runnable thread is queued exactly once and nothing else
      is queued, and every kthread shows the IOKernel the length of its queue. */
  lemma QueuesAreExact(run: seq<State>, events: seq<Event>, n: nat, i: nat)
    requires IsRun(run, events, n) && i < |run|
    ensures |run[i].ks| == n && AllShaped(run[i])
    ensures (forall l :: 0 <= l < n ==> AtRest(run[i].ks[l])) ==>
      && (forall th :: QueuedAnywhere(run[i].ks, th) == One(th in run[i].runnable))
      && (forall l :: 0 <= l < n ==> var k := run[i].ks[l];
            k.qHead - k.qTail == (k.head - k.tail) + |k.overflow|)
  {
    RunKeepsInv(run, events, n, i);
    var s := run[i];
    assert forall l :: 0 <= l < n ==> LocalOk(s.ks[l]);
    if forall l :: 0 <= l < n ==> AtRest(s.ks[l]) {
      forall th ensures QueuedAnywhere(s.ks, th) == One(th in s.runnable) {
        RestCounts(s.ks, th);
      }
    }
  }

  /** In every run, a slot write by an owner leaves every unread slot of its ring alone, whatever
      thieves are doing. */
  lemma UnreadSlotsSurvive(run: seq<State>, events: seq<Event>, n: nat, i: nat)
    requires IsRun(run, events, n) && i < |events| && events[i].action.WriteSlot?
    ensures var l := events[i].kthread;
      && l < |run[i].ks| && Shaped(run[i].ks[l]) && KeepsUnread(run[i].ks[l], run[i + 1].ks[l])
  {
    RunKeepsInv(run, events, n, i);
    assert IsStep(run[i], events[i], run[i + 1]);
    var k := run[i].ks[events[i].kthread];
    assert LocalOk(k);
    WriteKeepsUnread(k.rq, k.tail, k.head, k.pc.th);
  }


  /** With 32-bit indices the slot and the occupancy test are the ones of the model. */
  lemma WrapAround(head: nat, tail: nat)
    requires tail <= head <= tail + RQ_SIZE
    ensures (head % TWO32) % RQ_SIZE == Slot(head)
    ensures (head % TWO32 - tail % TWO32) % TWO32 == head - tail
  {
    hide Slot;
    SlotIsModulo(head);
    NestedModulo(head);
    var q, p := head / TWO32, tail / TWO32;
    assert head % TWO32 - tail % TWO32 == head - tail - TWO32 * (q - p);
    ShiftedModulo(head - tail, p - q);
  }

  lemma NestedModulo(x: nat)
    ensures (x % TWO32) % RQ_SIZE == x % RQ_SIZE
  {
    var q := x / TWO32;
    assert x == 32 * (0x800_0000 * q) + x % TWO32;
  }

  lemma ShiftedModulo(d: nat, k: int)
    requires d < TWO32
    ensures (d + TWO32 * k) % TWO32 == d
  {
  }

  // ---------------------------------------------------------------- the loops, in place

  lemma CopyStarts(k: Kthread, avail: nat)
    requires LocalOk(k) && k.pc.Scheduling?
    ensures var c := k.(pc := Copying(0, avail, 0, 0));
      LocalOk(c) && forall th :: Owned(c, th) == Owned(k, th) == Queued(k, th)
  {
    hide Slot;
    assert k.overflow[..|k.overflow|] == k.overflow;
  }

  lemma NothingCopied(c: Kthread, v: Kthread)
    requires c.pc.Copying? && c.pc.ringed == c.pc.spilled == 0 && LocalOk(c)
    requires v.tail + c.pc.avail <= v.head
    ensures CopyOk(c, v)
  {
  }

  /** A finished copy, adopted: the two queues still hold what they held. */
  lemma CopyEnds(c: Kthread, v: Kthread)
    requires c.pc.Copying? && LocalOk(c) && LocalOk(v) && CopyOk(c, v) && v.pc.Scheduling?
    requires c.pc.ringed + c.pc.spilled == c.pc.avail
    ensures var k := c.(head := c.head + c.pc.ringed, qHead := c.qHead + c.pc.avail, pc := Scheduling);
      var w := v.(tail := v.tail + c.pc.avail, qTail := v.qTail + c.pc.avail);
      && LocalOk(k) && LocalOk(w)
      && forall th :: Queued(k, th) + Queued(w, th) == Owned(c, th) + Queued(v, th)
  {
    hide Slot;
    var k := c.(head := c.head + c.pc.ringed, qHead := c.qHead + c.pc.avail, pc := Scheduling);
    var w := v.(tail := v.tail + c.pc.avail, qTail := v.qTail + c.pc.avail);
    PublishHandsOver(c, v);
    forall th ensures Queued(k, th) + Queued(w, th) == Owned(c, th) + Queued(v, th) {
      RingSplit(c.rq, c.tail, c.head, c.head + c.pc.ringed, th);
      CopyStarts(v, 0);
      CopyStarts(w, 0);
    }
  }

  /** A kthread's queue as the scheduler's loops see it: its lock held, so nothing else moves. */
  class Queue {
    const rq: array<Uthread>
    var head: nat
    var tail: nat
    var overflow: seq<Uthread>
    var qHead: nat
    var qTail: nat

    ghost predicate Valid()
      reads this, rq
    {
      rq.Length == RQ_SIZE && LocalOk(View())
    }

    ghost function View(): Kthread
      reads this, rq
      requires rq.Length == RQ_SIZE
    {
      Kthread(rq[..], head, tail, overflow, qHead, qTail, Free, Scheduling)
    }

    constructor ()
      ensures Valid() && fresh(rq) && View() == Boot(1).ks[0].(pc := Scheduling)
    {
      rq := new Uthread[RQ_SIZE](_ => 0);
      head, tail, overflow, qHead, qTail := 0, 0, [], 0, 0;
      new;
      assert rq[..] == seq(RQ_SIZE, _ => 0);
    }

    method DrainOverflow()
      requires Valid()
      modifies this`head, this`overflow, rq
      ensures Valid() && View() == DrainAll(old(View()))
    {
      while head - tail < RQ_SIZE && overflow != []
        invariant Valid() && DrainAll(View()) == DrainAll(old(View()))
        decreases |overflow|
      {
        ghost var k := View();
        SlotIsModulo(head);
        var th := overflow[0];
        overflow := overflow[1..];
        rq[head % RQ_SIZE] := th;
        head := head + 1;
        assert View() == Push(k.(overflow := k.overflow[1..]), k.overflow[0]);
      }
    }

    /** The pop of schedule and enter_schedule. */
    method PopHead() returns (th: Uthread)
      requires Valid() && head != tail
      modifies this`tail, this`qTail
      ensures Valid() && View() == old(View()).(tail := old(tail) + 1, qTail := old(qTail) + 1)
      ensures th == old(View()).rq[Slot(old(tail))]
    {
      SlotIsModulo(tail);
      th := rq[tail % RQ_SIZE];
      tail, qTail := tail + 1, qTail + 1;
    }
  
    /** The two copying loops of steal_work: the first `avail` threads of `r`'s ring go to the
        free slots past `head`, and to the overflow list when those run out. */
    method CopyHalf(r: Queue, avail: nat) returns (lrqHead: nat, ghost c: Kthread)
      requires r != this && r.rq != rq && Valid() && r.Valid() && avail <= r.head - r.tail
      modifies this`overflow, rq
      ensures c.pc.Copying? && c.pc.avail == c.pc.ringed + c.pc.spilled == avail
      ensures c == old(View()).(rq := rq[..], overflow := overflow, pc := c.pc)
      ensures lrqHead == head + c.pc.ringed && r.View() == old(r.View())
      ensures LocalOk(c) && CopyOk(c, r.View()) && forall th :: Owned(c, th) == old(Owned(View(), th))
    {
      hide Slot, InRing, Count, Owned, CopyOk;
      ghost var k0, v := View(), r.View();
      var rqTail, i := r.tail, 0;
      lrqHead := head;
      c := k0.(pc := Copying(0, avail, 0, 0));
      CopyStarts(k0, avail);
      NothingCopied(c, v);
      while i < avail && lrqHead - tail < RQ_SIZE
        invariant r.View() == v && i <= avail && lrqHead == head + i && rqTail == v.tail + i
        invariant c == k0.(rq := rq[..], pc := Copying(0, avail, i, 0)) && overflow == k0.overflow
        invariant LocalOk(c) && CopyOk(c, v) && forall th :: Owned(c, th) == Owned(k0, th)
      {
        CopyToRing(c, v);
        SlotIsModulo(lrqHead);
        SlotIsModulo(rqTail);
        c := CopyOne(c, v);
        rq[lrqHead % RQ_SIZE] := r.rq[rqTail % RQ_SIZE];
        lrqHead, rqTail, i := lrqHead + 1, rqTail + 1, i + 1;
      }
      ghost var n := i;
      while i < avail
        invariant r.View() == v && n <= i <= avail && lrqHead == head + n && rqTail == v.tail + i
        invariant n < avail ==> lrqHead - tail == RQ_SIZE
        invariant c == k0.(rq := rq[..], overflow := overflow, pc := Copying(0, avail, n, i - n))
        invariant LocalOk(c) && CopyOk(c, v) && forall th :: Owned(c, th) == Owned(k0, th)
      {
        CopyToOverflow(c, v);
        SlotIsModulo(rqTail);
        c := CopyOne(c, v);
        overflow := overflow + [r.rq[rqTail % RQ_SIZE]];
        rqTail, i := rqTail + 1, i + 1;
      }
    }

    /** The first half of steal_work, run without interference: take half of `r`'s ring. */
    method StealRing(r: Queue) returns (stolen: bool)
      requires r != this && r.rq != rq && Valid() && r.Valid()
      modifies this, rq, r`tail, r`qTail
      ensures Valid() && r.Valid()
      ensures stolen == (old(r.head) != old(r.tail))
      ensures !stolen ==> View() == old(View()) && r.View() == old(r.View())
      ensures stolen ==> r.tail == old(r.tail) + (old(r.head) - old(r.tail) + 1) / 2
      ensures forall th :: Queued(View(), th) + Queued(r.View(), th)
                        == old(Queued(View(), th)) + old(Queued(r.View(), th))
    {
      hide Slot, InRing, Count, Owned, Queued, CopyOk;
      var avail := r.head - r.tail;
      if avail == 0 {
        return false;
      }
      avail := (avail + 1) / 2;
      ghost var k0, v := View(), r.View();
      CopyStarts(k0, avail);
      var lrqHead, c := CopyHalf(r, avail);
      CopyEnds(c, v);
      r.tail, r.qTail := r.tail + avail, r.qTail + avail;
      head, qHead := lrqHead, qHead + avail;
      return true;
    }
  }
}
