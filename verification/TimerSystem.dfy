/**
 The timer heaps of all kthreads together, over any sequence of starts, cancellations, expiries and
 merges.  The steps are what the methods of Timer.Kthread promise.

 A timer that fires stays armed.  So one that is cancelled after it fired takes another timer with it:
 the heaps hold what is pending exactly as long as no such cancellation occurs.
 */
module TimerSystem {
  import opened Prelude
  import opened Timer

  /** The heaps of all kthreads with their next_timer_tsc, and the fields of all timers. */
  datatype State = State(heaps: seq<seq<Slot>>, next: seq<nat>,
                         idx: map<nat, nat>, localk: map<nat, nat>, armed: set<nat>)

  datatype Clock = Clock(cyclesPerUs: nat, startTsc: nat)

  datatype Event =
    | Inits(e: nat)                         // timer_init
    | Starts(k: nat, e: nat, deadline: nat)
    | Cancels(e: nat)
    | Fires(k: nat, now: nat, was: Slot)
    | Merges(k: nat, r: nat)

  // ---------------------------------------------------------------- what should be the case

  /** The timers that were started and have neither fired nor been cancelled, with their deadlines. */
  function Pending(events: seq<Event>, n: nat): map<nat, nat>
    requires n <= |events|
  {
    if n == 0 then map[] else After(Pending(events, n - 1), events[n - 1])
  }

  function After(p: map<nat, nat>, ev: Event): map<nat, nat> {
    match ev
    case Starts(_, e, deadline) => p[e := deadline]
    case Cancels(e) => p - {e}
    case Fires(_, _, was) => p - {was.e}
    case _ => p
  }

  /** The timers that have fired and have been neither cancelled nor initialised again since. */
  function Fired(events: seq<Event>, n: nat): set<nat>
    requires n <= |events|
  {
    if n == 0 then {} else FiredAfter(Fired(events, n - 1), events[n - 1])
  }

  function FiredAfter(f: set<nat>, ev: Event): set<nat> {
    match ev
    case Fires(_, _, was) => f + {was.e}
    case Cancels(e) => f - {e}
    case Inits(e) => f - {e}
    case _ => f
  }

  /** How often a slot is in some heap. */
  function Held(heaps: seq<seq<Slot>>, x: Slot): nat {
    if heaps == [] then 0 else Held(heaps[..|heaps| - 1], x) + multiset(heaps[|heaps| - 1])[x]
  }

  /** The heaps together hold exactly the timers `p`, each once and with its deadline. */
  ghost predicate Holds(s: State, p: map<nat, nat>) {
    forall x: Slot :: Held(s.heaps, x) == One(IsIn(x, p))
  }

  predicate IsIn(x: Slot, p: map<nat, nat>) {
    x.e in p && p[x.e] == x.deadline
  }

  /** What update_q_ptrs writes. */
  function NextOf(clock: Clock, h: seq<Slot>): nat {
    if h == [] then 0 else h[0].deadline * clock.cyclesPerUs + clock.startTsc
  }

  // ---------------------------------------------------------------- steps

  /** Only the heap of kthread `k` changes, and its next_timer_tsc is brought up to date. */
  ghost predicate OneHeap(clock: Clock, s: State, k: nat, s': State) {
    && k < |s.heaps| == |s'.heaps| == |s.next| && s'.heaps == s.heaps[k := s'.heaps[k]]
    && s'.next == s.next[k := NextOf(clock, s'.heaps[k])]
  }

  /** Slot `was` is taken out of the heap of kthread `k`. */
  ghost predicate TakesOut(clock: Clock, s: State, k: nat, was: Slot, s': State) {
    && OneHeap(clock, s, k, s') && was in s.heaps[k] && s'.localk == s.localk
    && IsTake(s.heaps[k], s.idx, s.localk, k, was, s'.heaps[k], s'.idx)
  }

  ghost predicate IsStep(clock: Clock, s: State, ev: Event, s': State) {
    match ev
    case Inits(e) => (forall i :: 0 <= i < |s.heaps| ==> !HasTimer(s.heaps[i], e)) && s' == s.(armed := s.armed - {e})
    case Starts(k, e, deadline) =>
      && e !in s.armed && s'.armed == s.armed + {e} && OneHeap(clock, s, k, s')
      && IsStart(s.heaps[k], s.idx, s.localk, k, e, deadline, s'.heaps[k], s'.idx, s'.localk)
    case Cancels(e) =>
      && e in s.localk && s.localk[e] < |s.heaps|
      && if e !in s.armed then s' == s
         else
           && s'.armed == s.armed - {e}
           && if IsStale(s, ev) then LosesOne(clock, s, s.localk[e], s') else CancelsOwn(clock, s, e, s')
    case Fires(k, now, was) =>
      && s'.armed == s.armed && TakesOut(clock, s, k, was, s')
      && was.deadline <= now && forall j :: 0 <= j < |s.heaps[k]| ==> was.deadline <= s.heaps[k][j].deadline
    case Merges(k, r) =>
      && k < |s.heaps| == |s'.heaps| == |s.next| && r < |s.heaps| && r != k && s'.armed == s.armed
      && s'.heaps == s.heaps[k := s'.heaps[k]][r := []]
      && s'.next == s.next[r := 0][k := NextOf(clock, s'.heaps[k])]
      && IsMerge(s.heaps[k], s.heaps[r], s.idx, s.localk, k, s'.heaps[k], s'.idx, s'.localk)
  }

  /** A timer is cancelled that is armed, but not in the heap of the kthread it names. */
  ghost predicate IsStale(s: State, ev: Event) {
    && ev.Cancels? && ev.e in s.armed
    && ev.e in s.localk && s.localk[ev.e] < |s.heaps| && !HasTimer(s.heaps[s.localk[ev.e]], ev.e)
  }

  ghost predicate CancelsOwn(clock: Clock, s: State, e: nat, s': State)
    requires e in s.localk && s.localk[e] < |s.heaps|
  {
    var h := s.heaps[s.localk[e]];
    e in s.idx && s.idx[e] < |h| && h[s.idx[e]].e == e && TakesOut(clock, s, s.localk[e], h[s.idx[e]], s')
  }

  /** A slot goes that should not; nothing else is needed of such a step. */
  ghost predicate LosesOne(clock: Clock, s: State, k: nat, s': State) {
    OneHeap(clock, s, k, s') && |s'.heaps[k]| == |s.heaps[k]| - 1
  }

  // ---------------------------------------------------------------- invariant

  ghost predicate HeapOk(clock: Clock, s: State, i: nat)
    requires i < |s.heaps| == |s.next|
  {
    && HeapFrom(s.heaps[i], 0) && Indexed(s.heaps[i], s.idx) && Mine(s.heaps[i], s.localk, i)
    && AllArmed(s.heaps[i], s.armed) && s.next[i] == NextOf(clock, s.heaps[i])
  }

  ghost predicate Inv(clock: Clock, s: State) {
    |s.next| == |s.heaps| && forall i :: 0 <= i < |s.heaps| ==> HeapOk(clock, s, i)
  }

  lemma {:induction false} HeldUpdate(heaps: seq<seq<Slot>>, k: nat, h: seq<Slot>, x: Slot)
    requires k < |heaps|
    ensures Held(heaps[k := h], x) + multiset(heaps[k])[x] == Held(heaps, x) + multiset(h)[x]
  {
    var n := |heaps| - 1;
    if k == n {
      assert heaps[k := h][..n] == heaps[..n];
    } else {
      assert heaps[k := h][..n] == heaps[..n][k := h];
      HeldUpdate(heaps[..n], k, h, x);
    }
  }

  lemma {:induction false} HeldSome(heaps: seq<seq<Slot>>, k: nat, x: Slot)
    requires k < |heaps| && x in heaps[k]
    ensures Held(heaps, x) > 0
  {
    if k < |heaps| - 1 {
      HeldSome(heaps[..|heaps| - 1], k, x);
    }
  }

  lemma {:induction false} WhoHolds(heaps: seq<seq<Slot>>, x: Slot) returns (k: nat)
    requires Held(heaps, x) > 0
    ensures k < |heaps| && x in heaps[k]
  {
    k := |heaps| - 1;
    if multiset(heaps[k])[x] == 0 {
      k := WhoHolds(heaps[..|heaps| - 1], x);
    } else {
      assert x in multiset(heaps[k]);
    }
  }

  /** What is pending is in some heap, and armed. */
  lemma PendingIsArmed(clock: Clock, s: State, p: map<nat, nat>, e: nat)
    requires Inv(clock, s) && Holds(s, p) && e in p
    ensures e in s.armed && e in s.localk && s.localk[e] < |s.heaps| && HasTimer(s.heaps[s.localk[e]], e)
  {
    hide Held, HeapFrom;
    var x := Slot(p[e], e);
    assert Held(s.heaps, x) == One(IsIn(x, p));
    var k := WhoHolds(s.heaps, x);
    var j :| 0 <= j < |s.heaps[k]| && s.heaps[k][j] == x;
    assert HeapOk(clock, s, k);
  }

  /** What is in some heap is pending. */
  lemma HeldIsPending(s: State, p: map<nat, nat>, k: nat, x: Slot)
    requires Holds(s, p) && k < |s.heaps| && x in s.heaps[k]
    ensures IsIn(x, p)
  {
    hide Held;
    HeldSome(s.heaps, k, x);
    assert Held(s.heaps, x) == One(IsIn(x, p));
  }

  lemma SlotOf(h: seq<Slot>, e: nat) returns (x: Slot)
    requires HasTimer(h, e)
    ensures x in h && x.e == e
  {
    var j :| 0 <= j < |h| && h[j].e == e;
    x := h[j];
  }

  /** An operation on kthread `k` leaves the timers of kthread `i` in place. */
  lemma Elsewhere(h: seq<Slot>, es: set<nat>, idx: map<nat, nat>, idx': map<nat, nat>, other: seq<Slot>,
                  localk: map<nat, nat>, localk': map<nat, nat>, i: nat)
    requires OthersKept(h, es, idx, idx') && Indexed(other, idx) && Mine(other, localk, i)
    requires forall e :: HasTimer(other, e) ==>
      e !in es && !HasTimer(h, e) && e in localk && e in localk' && localk'[e] == localk[e]
    ensures Indexed(other, idx') && Mine(other, localk', i)
  {
    forall j | 0 <= j < |other| ensures HasTimer(other, other[j].e) {
    }
    OtherHeapsStay(h, es, idx, idx', other);
  }

  /** Timers of different kthreads differ. */
  lemma Disjoint(clock: Clock, s: State, i: nat, k: nat, e: nat)
    requires Inv(clock, s) && i < |s.heaps| && k < |s.heaps| && i != k && HasTimer(s.heaps[i], e)
    ensures !HasTimer(s.heaps[k], e) && e in s.localk && s.localk[e] == i && e in s.armed
  {
    assert HeapOk(clock, s, i) && HeapOk(clock, s, k);
    hide HeapFrom, Indexed;
  }

  lemma StartsOk(clock: Clock, s: State, ev: Event, s': State)
    requires Inv(clock, s) && ev.Starts? && IsStep(clock, s, ev, s')
    ensures Inv(clock, s')
    ensures forall x :: Held(s'.heaps, x) == Held(s.heaps, x) + One(x == Slot(ev.deadline, ev.e))
  {
    hide HeapFrom, Indexed, Mine, OthersKept, Held, HasTimer, OneMore, NextOf, AllArmed;
    var h := s.heaps[ev.k];
    assert HeapOk(clock, s, ev.k);
    ArmedMore(h, s.armed, Slot(ev.deadline, ev.e), s'.heaps[ev.k]);
    forall i | 0 <= i < |s.heaps| && i != ev.k ensures HeapOk(clock, s', i) {
      assert HeapOk(clock, s, i);
      forall e | HasTimer(s.heaps[i], e)
        ensures e != ev.e && !HasTimer(h, e) && e in s.localk && e in s'.localk && s'.localk[e] == s.localk[e]
      {
        Disjoint(clock, s, i, ev.k, e);
      }
      Elsewhere(h, {ev.e}, s.idx, s'.idx, s.heaps[i], s.localk, s'.localk, i);
      ArmedGrows(s.heaps[i], s.armed, s'.armed);
    }
    forall x ensures Held(s'.heaps, x) == Held(s.heaps, x) + One(x == Slot(ev.deadline, ev.e)) {
      HeldUpdate(s.heaps, ev.k, s'.heaps[ev.k], x);
      MoreByOne(h, Slot(ev.deadline, ev.e), s'.heaps[ev.k], x);
    }
  }

  lemma ArmedGrows(h: seq<Slot>, armed: set<nat>, armed': set<nat>)
    requires AllArmed(h, armed) && armed <= armed'
    ensures AllArmed(h, armed')
  {
  }

  lemma MoreByOne(h: seq<Slot>, s: Slot, h': seq<Slot>, x: Slot)
    requires OneMore(h, s, h')
    ensures multiset(h')[x] == multiset(h)[x] + One(x == s)
  {
  }

  lemma TakesOutOk(clock: Clock, s: State, k: nat, was: Slot, s': State, gone: set<nat>)
    requires Inv(clock, s) && TakesOut(clock, s, k, was, s') && s'.armed == s.armed - gone && gone <= {was.e}
    ensures Inv(clock, s')
    ensures forall x :: Held(s'.heaps, x) + One(x == was) == Held(s.heaps, x)
  {
    hide HeapFrom, Indexed, Mine, OthersKept, Held, HasTimer, OneMore, NextOf, AllArmed;
    var h := s.heaps[k];
    assert HeapOk(clock, s, k);
    Gone(h, s.idx, was, s'.heaps[k]);
    ArmedLess(h, s.armed, was, s'.heaps[k], gone);
    forall i | 0 <= i < |s.heaps| && i != k ensures HeapOk(clock, s', i) {
      assert HeapOk(clock, s, i);
      forall e | HasTimer(s.heaps[i], e) ensures !HasTimer(h, e) && e in s.localk {
        Disjoint(clock, s, i, k, e);
      }
      Elsewhere(h, {}, s.idx, s'.idx, s.heaps[i], s.localk, s.localk, i);
      InHeap(h, was);
      ArmedBut(s.heaps[i], s.armed, gone, was.e);
    }
    forall x ensures Held(s'.heaps, x) + One(x == was) == Held(s.heaps, x) {
      HeldUpdate(s.heaps, k, s'.heaps[k], x);
      MoreByOne(s'.heaps[k], was, h, x);
    }
  }

  lemma InHeap(h: seq<Slot>, x: Slot)
    requires x in h
    ensures HasTimer(h, x.e)
  {
  }

  lemma ArmedBut(h: seq<Slot>, armed: set<nat>, gone: set<nat>, e: nat)
    requires AllArmed(h, armed) && gone <= {e} && !HasTimer(h, e)
    ensures AllArmed(h, armed - gone)
  {
  }

  lemma MergesOk(clock: Clock, s: State, ev: Event, s': State)
    requires Inv(clock, s) && ev.Merges? && IsStep(clock, s, ev, s')
    ensures Inv(clock, s') && s'.heaps[ev.r] == []
    ensures forall x :: Held(s'.heaps, x) == Held(s.heaps, x)
  {
    hide HeapFrom, Indexed, Mine, OthersKept, Held, HasTimer, SameSlots, AllArmed;
    var h, rh := s.heaps[ev.k], s.heaps[ev.r];
    assert HeapOk(clock, s, ev.k) && HeapOk(clock, s, ev.r);
    ArmedBoth(h, rh, s.armed, s'.heaps[ev.k]);
    forall i | 0 <= i < |s.heaps| && i != ev.k ensures HeapOk(clock, s', i) {
      assert HeapOk(clock, s, i);
      if i == ev.r {
        NothingLeft(s'.idx, s'.localk, i);
        NothingArmed(s'.armed);
      } else {
        forall e | HasTimer(s.heaps[i], e)
          ensures !HasTimer(h + rh, e) && e in s.localk && e in s'.localk && s'.localk[e] == s.localk[e]
        {
          Disjoint(clock, s, i, ev.k, e);
          Disjoint(clock, s, i, ev.r, e);
          Neither(h, rh, e, s.localk, s'.localk);
        }
        Elsewhere(h + rh, {}, s.idx, s'.idx, s.heaps[i], s.localk, s'.localk, i);
      }
    }
    forall x ensures Held(s'.heaps, x) == Held(s.heaps, x) {
      HeldUpdate(s.heaps, ev.k, s'.heaps[ev.k], x);
      HeldUpdate(s.heaps[ev.k := s'.heaps[ev.k]], ev.r, [], x);
      SameCounts(h, rh, s'.heaps[ev.k], x);
    }
  }

  lemma SameCounts(h: seq<Slot>, rh: seq<Slot>, h': seq<Slot>, x: Slot)
    requires SameSlots(h + rh, h')
    ensures multiset(h')[x] == multiset(h)[x] + multiset(rh)[x]
  {
  }

  lemma NothingArmed(armed: set<nat>)
    ensures AllArmed([], armed)
  {
  }

  lemma Neither(h: seq<Slot>, rh: seq<Slot>, e: nat, localk: map<nat, nat>, localk': map<nat, nat>)
    requires !HasTimer(h, e) && !HasTimer(rh, e) && OthersKept(rh, {}, localk, localk') && e in localk
    ensures !HasTimer(h + rh, e) && e in localk' && localk'[e] == localk[e]
  {
    forall j | 0 <= j < |h + rh| ensures (h + rh)[j].e != e {
      assert (h + rh)[j] == if j < |h| then h[j] else rh[j - |h|];
    }
  }

  lemma InitsOk(clock: Clock, s: State, ev: Event, s': State)
    requires Inv(clock, s) && ev.Inits? && IsStep(clock, s, ev, s')
    ensures Inv(clock, s')
  {
    hide HeapFrom, Indexed, Mine, AllArmed, NextOf;
    forall i | 0 <= i < |s.heaps| ensures HeapOk(clock, s', i) {
      assert HeapOk(clock, s, i);
      ArmedBut(s.heaps[i], s.armed, {ev.e}, ev.e);
    }
  }

  // ---------------------------------------------------------------- one step

  /** Every step keeps the heaps in order and holding what is pending, unless it cancels a timer that is
      armed but not in the heap. */
  lemma StepHolds(clock: Clock, s: State, ev: Event, s': State, p: map<nat, nat>)
    requires Inv(clock, s) && Holds(s, p) && IsStep(clock, s, ev, s') && !IsStale(s, ev)
    ensures Inv(clock, s') && Holds(s', After(p, ev))
  {
    hide HeapOk, IsStart, IsTake, IsMerge, HasTimer, Held;
    match ev
    case Inits(e) => InitsOk(clock, s, ev, s');
    case Starts(k, e, deadline) =>
      StartsOk(clock, s, ev, s');
      if e in p {
        PendingIsArmed(clock, s, p, e);
      }
      Adds(s, s', p, e, deadline);
    case Fires(k, now, was) =>
      assert s.armed - {} == s.armed;
      TakesOutOk(clock, s, k, was, s', {});
      HeldIsPending(s, p, k, was);
      Drops(s, s', p, was);
    case Merges(_, _) =>
      MergesOk(clock, s, ev, s');
    case Cancels(e) =>
      if e in s.armed {
        var was := s.heaps[s.localk[e]][s.idx[e]];
        TakesOutOk(clock, s, s.localk[e], was, s', {e});
        HeldIsPending(s, p, s.localk[e], was);
        Drops(s, s', p, was);
      } else if e in p {
        PendingIsArmed(clock, s, p, e);
      } else {
        assert p - {e} == p;
      }
  }

  lemma Adds(s: State, s': State, p: map<nat, nat>, e: nat, deadline: nat)
    requires Holds(s, p) && e !in p
    requires forall x :: Held(s'.heaps, x) == Held(s.heaps, x) + One(x == Slot(deadline, e))
    ensures Holds(s', p[e := deadline])
  {
    hide Held;
  }

  lemma Drops(s: State, s': State, p: map<nat, nat>, was: Slot)
    requires Holds(s, p) && IsIn(was, p)
    requires forall x :: Held(s'.heaps, x) + One(x == was) == Held(s.heaps, x)
    ensures Holds(s', p - {was.e})
  {
    hide Held;
    forall x: Slot ensures Held(s'.heaps, x) == One(IsIn(x, p - {was.e})) {
      assert Held(s.heaps, x) == One(IsIn(x, p));
      assert x.e == was.e && IsIn(x, p) ==> x == was;
    }
  }

  /** Cancelling a timer that is armed but not in the heap leaves the heaps short of what is pending. */
  lemma StaleBreaks(clock: Clock, s: State, ev: Event, s': State, p: map<nat, nat>)
    requires Inv(clock, s) && Holds(s, p) && IsStep(clock, s, ev, s') && IsStale(s, ev)
    ensures ev.e !in p && After(p, ev) == p && !Holds(s', p)
  {
    hide HeapOk, Held;
    if ev.e in p {
      PendingIsArmed(clock, s, p, ev.e);
    }
    assert p - {ev.e} == p;
    var k := s.localk[ev.e];
    var h, h' := s.heaps[k], s'.heaps[k];
    var x := Differ(h, h');
    HeldUpdate(s.heaps, k, h', x);
    assert Held(s.heaps, x) == One(IsIn(x, p));
  }

  lemma Differ(h: seq<Slot>, h': seq<Slot>) returns (x: Slot)
    requires |h| != |h'|
    ensures multiset(h)[x] != multiset(h')[x]
  {
    assert multiset(h) != multiset(h') by {
      assert |multiset(h)| == |h| && |multiset(h')| == |h'|;
    }
    x :| multiset(h)[x] != multiset(h')[x];
  }

  // ---------------------------------------------------------------- runs

  ghost predicate IsRun(clock: Clock, run: seq<State>, events: seq<Event>) {
    && |run| == |events| + 1 && run[0].armed == {} && run[0].next == seq(|run[0].heaps|, _ => 0)
    && (forall i :: 0 <= i < |run[0].heaps| ==> run[0].heaps[i] == [])
    && forall i :: 0 <= i < |events| ==> IsStep(clock, run[i], events[i], run[i + 1])
  }

  /** The first `n` events cancel no timer that fired and was not initialised again. */
  predicate NoneStale(events: seq<Event>, n: nat)
    requires n <= |events|
  {
    forall i :: 0 <= i < n && events[i].Cancels? ==> events[i].e !in Fired(events, i)
  }

  lemma {:induction false} NothingHeld(heaps: seq<seq<Slot>>, x: Slot)
    requires forall i :: 0 <= i < |heaps| ==> heaps[i] == []
    ensures Held(heaps, x) == 0
  {
    if heaps != [] {
      NothingHeld(heaps[..|heaps| - 1], x);
    }
  }

  lemma Empty(clock: Clock, s: State, i: nat)
    requires |s.next| == |s.heaps| && i < |s.heaps| && s.heaps[i] == [] && s.next[i] == 0
    ensures HeapOk(clock, s, i)
  {
    NothingLeft(s.idx, s.localk, i);
  }

  /** The armed timers are those pending and those that fired. */
  ghost predicate ArmedAre(s: State, p: map<nat, nat>, f: set<nat>) {
    && (forall e :: e in s.armed <==> e in p || e in f) && (forall e :: e in p ==> e !in f)
    && (forall e :: e in f ==> e in s.localk)
  }

  lemma StaleIsFired(clock: Clock, s: State, ev: Event, p: map<nat, nat>, f: set<nat>)
    requires Inv(clock, s) && Holds(s, p) && ArmedAre(s, p, f) && ev.Cancels?
    requires ev.e in s.localk && s.localk[ev.e] < |s.heaps|
    ensures IsStale(s, ev) <==> ev.e in f
  {
    hide HeapOk, Held;
    if ev.e in p {
      PendingIsArmed(clock, s, p, ev.e);
    }
    if HasTimer(s.heaps[s.localk[ev.e]], ev.e) {
      var x := SlotOf(s.heaps[s.localk[ev.e]], ev.e);
      HeldIsPending(s, p, s.localk[ev.e], x);
    }
  }

  /** Positions are only ever given to timers of a heap, and stay on record. */
  lemma LocalkGrows(clock: Clock, s: State, ev: Event, s': State, p: map<nat, nat>)
    requires Inv(clock, s) && Holds(s, p) && IsStep(clock, s, ev, s') && !IsStale(s, ev)
    ensures forall e :: e in s.localk ==> e in s'.localk
  {
    hide HeapFrom, Indexed, OneMore, Held;
    if ev.Merges? {
      assert HeapOk(clock, s, ev.r);
      forall e | e in s.localk ensures e in s'.localk {
        if HasTimer(s.heaps[ev.r], e) {
          var j :| 0 <= j < |s.heaps[ev.r]| && s.heaps[ev.r][j].e == e;
          MergedIn(s.heaps[ev.k], s.heaps[ev.r], s'.heaps[ev.k], j);
        }
      }
    }
  }

  lemma MergedIn(h: seq<Slot>, rh: seq<Slot>, h': seq<Slot>, j: nat)
    requires SameSlots(h + rh, h') && j < |rh|
    ensures exists i :: 0 <= i < |h'| && h'[i].e == rh[j].e
  {
    assert (h + rh)[|h| + j] == rh[j];
    assert rh[j] in multiset(h + rh) && rh[j] in multiset(h') && rh[j] in h';
  }

  lemma ArmedStep(clock: Clock, s: State, ev: Event, s': State, p: map<nat, nat>, f: set<nat>)
    requires Inv(clock, s) && Holds(s, p) && ArmedAre(s, p, f) && IsStep(clock, s, ev, s') && !IsStale(s, ev)
    ensures ArmedAre(s', After(p, ev), FiredAfter(f, ev))
  {
    hide Inv, Holds, IsStart, IsTake, IsMerge, HasTimer, IsStale, CancelsOwn, LosesOne, NextOf;
    LocalkGrows(clock, s, ev, s', p);
    match ev
    case Inits(e) =>
      if e in p {
        PendingIsArmed(clock, s, p, e);
      }
    case Fires(k, now, was) =>
      HeldIsPending(s, p, k, was);
      PendingIsArmed(clock, s, p, was.e);
    case Starts(_, _, _) =>
    case Cancels(_) =>
    case Merges(_, _) =>
  }

  /** After any sequence of events that cancels no timer after it fired: every kthread's array is a heap at
      every index, every timer in it knows its index and its kthread, next_timer_tsc is up to date, and
      the heaps together hold exactly the timers started that have neither fired nor been cancelled. */
  lemma {:induction false} HeapsHoldPending(clock: Clock, run: seq<State>, events: seq<Event>, n: nat)
    requires IsRun(clock, run, events) && n < |run| && NoneStale(events, n)
    ensures Inv(clock, run[n]) && Holds(run[n], Pending(events, n))
    ensures ArmedAre(run[n], Pending(events, n), Fired(events, n))
  {
    hide HeapOk, Held, IsStep, IsStale, After, FiredAfter;
    if n == 0 {
      forall i | 0 <= i < |run[0].heaps| ensures HeapOk(clock, run[0], i) {
        Empty(clock, run[0], i);
      }
      forall x: Slot ensures Held(run[0].heaps, x) == 0 {
        NothingHeld(run[0].heaps, x);
      }
    } else {
      HeapsHoldPending(clock, run, events, n - 1);
      var s, ev := run[n - 1], events[n - 1];
      assert IsStep(clock, s, ev, run[n - 1 + 1]);
      var p, f := Pending(events, n - 1), Fired(events, n - 1);
      assert !IsStale(s, ev) by { NotStale(clock, s, ev, run[n], p, f); }
      StepHolds(clock, s, ev, run[n], p);
      ArmedStep(clock, s, ev, run[n], p, f);
    }
  }

  lemma NotStale(clock: Clock, s: State, ev: Event, s': State, p: map<nat, nat>, f: set<nat>)
    requires Inv(clock, s) && Holds(s, p) && ArmedAre(s, p, f) && IsStep(clock, s, ev, s')
    requires ev.Cancels? ==> ev.e !in f
    ensures !IsStale(s, ev)
  {
    hide HeapOk, Held, Holds, IsStart, IsTake, IsMerge;
    if ev.Cancels? {
      StaleIsFired(clock, s, ev, p, f);
    }
  }

  /** And exactly then: as long as none was, the next event leaves the heaps holding what is pending if and
      only if it does not cancel a timer that has fired. */
  lemma HoldsIff(clock: Clock, run: seq<State>, events: seq<Event>, n: nat)
    requires IsRun(clock, run, events) && n < |events| && NoneStale(events, n)
    ensures Holds(run[n + 1], Pending(events, n + 1)) <==> !(events[n].Cancels? && events[n].e in Fired(events, n))
  {
    hide HeapOk, Held, IsStep, Holds, ArmedAre, After, Inv;
    HeapsHoldPending(clock, run, events, n);
    var s, ev, p, f := run[n], events[n], Pending(events, n), Fired(events, n);
    assert IsStep(clock, s, ev, run[n + 1]);
    if ev.Cancels? && ev.e in f {
      assert IsStale(s, ev) by { Stale(clock, s, ev, run[n + 1], p, f); }
      StaleBreaks(clock, s, ev, run[n + 1], p);
    } else {
      NotStale(clock, s, ev, run[n + 1], p, f);
      StepHolds(clock, s, ev, run[n + 1], p);
    }
  }

  lemma Stale(clock: Clock, s: State, ev: Event, s': State, p: map<nat, nat>, f: set<nat>)
    requires Inv(clock, s) && Holds(s, p) && ArmedAre(s, p, f) && IsStep(clock, s, ev, s') && ev.Cancels? && ev.e in f
    ensures IsStale(s, ev)
  {
    hide HeapOk, Held, Holds, IsStart, IsTake, IsMerge;
    StaleIsFired(clock, s, ev, p, f);
  }

  /** In such runs the IOKernel is told when the first timer of each kthread is due, or 0 if it has none. */
  lemma NextIsEarliest(clock: Clock, run: seq<State>, events: seq<Event>, n: nat, k: nat)
    requires IsRun(clock, run, events) && n < |run| && NoneStale(events, n) && k < |run[n].heaps|
    ensures |run[n].next| == |run[n].heaps|
    ensures var h := run[n].heaps[k];
      if h == [] then run[n].next[k] == 0
      else
        && run[n].next[k] == h[0].deadline * clock.cyclesPerUs + clock.startTsc
        && forall j :: 0 <= j < |h| ==> h[0].deadline <= h[j].deadline
  {
    hide Held, IsRun, ArmedAre, Holds;
    HeapsHoldPending(clock, run, events, n);
    assert HeapOk(clock, run[n], k);
    hide HeapFrom, Indexed, Mine, AllArmed;
    var h := run[n].heaps[k];
    forall j | 0 <= j < |h| ensures h[0].deadline <= h[j].deadline {
      RootIsLeast(h, j);
    }
  }

  // ---------------------------------------------------------------- order of expiry

  /** The event adds no timer to the heap of kthread `k`. */
  predicate AddsNoneTo(ev: Event, k: nat) {
    !(ev.Starts? && ev.k == k) && !(ev.Merges? && ev.k == k)
  }

  ghost predicate AllFrom(h: seq<Slot>, deadline: nat) {
    forall j :: 0 <= j < |h| ==> deadline <= h[j].deadline
  }

  lemma LessFrom(h: seq<Slot>, was: Slot, h': seq<Slot>, deadline: nat)
    requires OneMore(h', was, h) && AllFrom(h, deadline)
    ensures AllFrom(h', deadline)
  {
    forall j | 0 <= j < |h'| ensures deadline <= h'[j].deadline {
      assert h'[j] in multiset(h') && h'[j] in multiset(h) && h'[j] in h;
    }
  }

  lemma StepFrom(clock: Clock, s: State, ev: Event, s': State, k: nat, deadline: nat)
    requires IsStep(clock, s, ev, s') && !IsStale(s, ev) && AddsNoneTo(ev, k)
    requires k < |s.heaps| && AllFrom(s.heaps[k], deadline)
    ensures k < |s'.heaps| && AllFrom(s'.heaps[k], deadline)
  {
    hide HeapFrom, Indexed, Mine, OthersKept, OneMore, SameSlots, NextOf;
    match ev
    case Fires(i, _, was) =>
      if i == k {
        LessFrom(s.heaps[k], was, s'.heaps[k], deadline);
      }
    case Cancels(e) =>
      if e in s.armed && s.localk[e] == k {
        LessFrom(s.heaps[k], s.heaps[k][s.idx[e]], s'.heaps[k], deadline);
      }
    case _ =>
  }

  lemma {:induction false} StaysFrom(clock: Clock, run: seq<State>, events: seq<Event>, i: nat, j: nat,
                                     k: nat, deadline: nat)
    requires IsRun(clock, run, events) && i <= j < |run| && NoneStale(events, j)
    requires forall x :: i <= x < j ==> AddsNoneTo(events[x], k)
    requires k < |run[i].heaps| && AllFrom(run[i].heaps[k], deadline)
    ensures k < |run[j].heaps| && AllFrom(run[j].heaps[k], deadline)
    decreases j
  {
    hide AllFrom, IsStep, IsStale, Holds, ArmedAre, Inv, Pending, Fired;
    if i < j {
      StaysFrom(clock, run, events, i, j - 1, k, deadline);
      HeapsHoldPending(clock, run, events, j - 1);
      var s, ev := run[j - 1], events[j - 1];
      assert IsStep(clock, s, ev, run[j - 1 + 1]);
      NotStale(clock, s, ev, run[j], Pending(events, j - 1), Fired(events, j - 1));
      StepFrom(clock, s, ev, run[j], k, deadline);
    }
  }

  /** Timers of one kthread fire in the order of their deadlines, whatever happens in between, as long as
      no timer is added to its heap. */
  lemma FireInOrder(clock: Clock, run: seq<State>, events: seq<Event>, i: nat, j: nat)
    requires IsRun(clock, run, events) && i < j < |events| && NoneStale(events, j)
    requires events[i].Fires? && events[j].Fires? && events[i].k == events[j].k
    requires forall x :: i < x < j ==> AddsNoneTo(events[x], events[i].k)
    ensures events[i].was.deadline <= events[j].was.deadline
  {
    hide HeapFrom, Indexed, Mine, OthersKept, OneMore, SameSlots, NextOf;
    var k, d := events[i].k, events[i].was.deadline;
    assert IsStep(clock, run[i], events[i], run[i + 1]) && IsStep(clock, run[j], events[j], run[j + 1]);
    LessFrom(run[i].heaps[k], events[i].was, run[i + 1].heaps[k], d);
    StaysFrom(clock, run, events, i + 1, j, k, d);
  }

  // ---------------------------------------------------------------- a timer is lost

  /** Two timers and one kthread: what each of four events does. */
  function Lost(clock: Clock, n: nat): State {
    var a, b := Slot(10, 1), Slot(20, 2);
    if n == 0 then State([[]], [0], map[], map[], {})
    else if n == 1 then State([[a]], [NextOf(clock, [a])], map[1 := 0], map[1 := 0], {1})
    else if n == 2 then State([[a, b]], [NextOf(clock, [a, b])], map[1 := 0, 2 := 1], map[1 := 0, 2 := 0], {1, 2})
    else if n == 3 then State([[b]], [NextOf(clock, [b])], map[1 := 0, 2 := 0], map[1 := 0, 2 := 0], {1, 2})
    else State([[]], [0], map[1 := 0, 2 := 0], map[1 := 0, 2 := 0], {2})
  }

  lemma BothStart(clock: Clock)
    ensures IsStep(clock, Lost(clock, 0), Starts(0, 1, 10), Lost(clock, 1))
    ensures IsStep(clock, Lost(clock, 1), Starts(0, 2, 20), Lost(clock, 2))
  {
    hide NextOf;
    assert [Slot(10, 1), Slot(20, 2)] == [Slot(10, 1)] + [Slot(20, 2)];
  }

  lemma FirstFires(clock: Clock)
    ensures IsStep(clock, Lost(clock, 2), Fires(0, 10, Slot(10, 1)), Lost(clock, 3))
  {
    hide NextOf;
    assert [Slot(10, 1), Slot(20, 2)] == [Slot(10, 1)] + [Slot(20, 2)];
  }

  lemma FirstIsCancelled(clock: Clock)
    ensures IsStep(clock, Lost(clock, 3), Cancels(1), Lost(clock, 4))
  {
  }

  /** Timers 1 and 2 are started, timer 1 fires, and is then cancelled: timer 2 is gone from the heap,
      though it is pending and armed, and next_timer_tsc is 0. */
  lemma CancelLosesAnother(clock: Clock) returns (run: seq<State>, events: seq<Event>)
    ensures IsRun(clock, run, events)
    ensures events == [Starts(0, 1, 10), Starts(0, 2, 20), Fires(0, 10, Slot(10, 1)), Cancels(1)]
    ensures run[4].heaps == [[]] && run[4].next == [0] && Pending(events, 4) == map[2 := 20] && 2 in run[4].armed
  {
    BothStart(clock);
    FirstFires(clock);
    FirstIsCancelled(clock);
    hide IsStep;
    run := [Lost(clock, 0), Lost(clock, 1), Lost(clock, 2), Lost(clock, 3), Lost(clock, 4)];
    events := [Starts(0, 1, 10), Starts(0, 2, 20), Fires(0, 10, Slot(10, 1)), Cancels(1)];
    assert Pending(events, 1) == map[1 := 10] && Pending(events, 2) == map[1 := 10, 2 := 20];
    assert Pending(events, 3) == map[2 := 20];
  }
}
