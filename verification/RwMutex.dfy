/**
 The reader/writer lock of the runtime.  Every operation is one step under the lock's spin lock,
 except that the threads an unlock lets in are woken one by one afterwards, interleaved with
 everything else.

 The unlocking thread hands the lock over: threads let in hold it from that moment, while they are
 still parked.
 */
module RwMutex {
  import opened Prelude

  type Tid = nat

  /** struct rwmutex */
  datatype Lock = Lock(count: int, readWaiterCount: int, readWaiters: seq<Tid>, writeWaiters: seq<Tid>)

  /** What a thread is doing.  A thread that waits is parked; one that was let in holds the lock and
      is parked until it is woken; one that unlocked may still have threads to wake. */
  datatype Th = Out | Reads | Writes | WaitsRead | WaitsWrite | LetInRead | LetInWrite | Wakes(rest: seq<Tid>)

  datatype State = State(lock: Lock, th: seq<Th>)

  // ---------------------------------------------------------------- the lock

  /** rwmutex_rdlock; the lock is taken exactly if `count >= 0`. */
  function RdLock(l: Lock, t: Tid): Lock {
    if l.count >= 0 then l.(count := l.count + 1)
    else l.(readWaiterCount := l.readWaiterCount + 1, readWaiters := l.readWaiters + [t])
  }

  /** rwmutex_wrlock; the lock is taken exactly if `count == 0`. */
  function WrLock(l: Lock, t: Tid): Lock {
    if l.count == 0 then l.(count := -1) else l.(writeWaiters := l.writeWaiters + [t])
  }

  datatype Released = Released(lock: Lock, wake: seq<Tid>)

  /** rwmutex_unlock: all waiting readers are let in if there are any, else the first writer. */
  function Unlock(l: Lock): Released {
    var count := if l.count < 0 then 0 else l.count - 1;
    if count == 0 && l.readWaiterCount > 0 then
      Released(l.(count := l.readWaiterCount, readWaiterCount := 0, readWaiters := []), l.readWaiters)
    else if count == 0 && l.writeWaiters != [] then
      Released(l.(count := -1, writeWaiters := l.writeWaiters[1..]), [l.writeWaiters[0]])
    else Released(l.(count := count), [])
  }

  // ---------------------------------------------------------------- steps

  datatype Event =
    | RdLocks(t: Tid)
    | TriesRd(t: Tid)
    | WrLocks(t: Tid)
    | TriesWr(t: Tid)
    | Unlocks(t: Tid)
    | WakesOne(t: Tid)

  predicate IsEvent(s: State, e: Event) {
    && e.t < |s.th|
    && match e
       case Unlocks(t) => s.th[t] in {Reads, Writes}
       case WakesOne(t) => s.th[t].Wakes? && s.th[t].rest != []
       case _ => s.th[e.t] == Out
  }

  /** The threads in `wake` are let in. */
  function LetIn(th: seq<Th>, wake: seq<Tid>): (r: seq<Th>)
    ensures |r| == |th|
    ensures forall i :: 0 <= i < |th| ==> r[i] == if i !in wake then th[i] else Entered(th[i])
  {
    seq(|th|, i requires 0 <= i < |th| => if i !in wake then th[i] else Entered(th[i]))
  }

  function Entered(a: Th): Th {
    if a == WaitsRead then LetInRead else if a == WaitsWrite then LetInWrite else a
  }

  function Woken(a: Th): Th {
    if a == LetInRead then Reads else if a == LetInWrite then Writes else a
  }

  function Do(s: State, e: Event): State
    requires IsEvent(s, e)
  {
    var l := s.lock;
    match e
    case RdLocks(t) => State(RdLock(l, t), s.th[t := if l.count >= 0 then Reads else WaitsRead])
    case TriesRd(t) => if l.count >= 0 then State(RdLock(l, t), s.th[t := Reads]) else s
    case WrLocks(t) => State(WrLock(l, t), s.th[t := if l.count == 0 then Writes else WaitsWrite])
    case TriesWr(t) => if l.count == 0 then State(WrLock(l, t), s.th[t := Writes]) else s
    case Unlocks(t) =>
      var r := Unlock(l);
      State(r.lock, LetIn(s.th, r.wake)[t := if r.wake == [] then Out else Wakes(r.wake)])
    case WakesOne(t) =>
      var rest := s.th[t].rest;
      var th := if rest[0] < |s.th| then s.th[rest[0] := Woken(s.th[rest[0]])] else s.th;
      State(l, th[t := if rest[1..] == [] then Out else Wakes(rest[1..])])
  }

  // ---------------------------------------------------------------- invariant

  function Readers(th: seq<Th>): nat {
    if th == [] then 0 else Readers(th[..|th| - 1]) + One(IsReader(th[|th| - 1]))
  }

  function Writers(th: seq<Th>): nat {
    if th == [] then 0 else Writers(th[..|th| - 1]) + One(IsWriter(th[|th| - 1]))
  }

  predicate IsReader(a: Th) { a == Reads || a == LetInRead }

  predicate IsWriter(a: Th) { a == Writes || a == LetInWrite }

  /** How many times `x` is on some thread's list of threads to wake. */
  function Owed(th: seq<Th>, x: Tid): nat {
    if th == [] then 0 else Owed(th[..|th| - 1], x) + OwedBy(th[|th| - 1], x)
  }

  function OwedBy(a: Th, x: Tid): nat {
    if a.Wakes? then Count(a.rest, x) else 0
  }

  /** The lock's fields and lists say who holds it and who waits. */
  ghost predicate LockOk(s: State) {
    var l := s.lock;
    && l.count >= -1
    && Readers(s.th) == (if l.count >= 0 then l.count else 0) && Writers(s.th) == One(l.count < 0)
    && l.readWaiterCount == |l.readWaiters|
    && Distinct(l.readWaiters) && Distinct(l.writeWaiters)
    && (forall t :: t in l.readWaiters <==> 0 <= t < |s.th| && s.th[t] == WaitsRead)
    && (forall t :: t in l.writeWaiters <==> 0 <= t < |s.th| && s.th[t] == WaitsWrite)
    && (l.readWaiters != [] ==> l.count == -1)
    && (l.writeWaiters != [] ==> l.count != 0)
  }

  predicate IsLetIn(th: seq<Th>, x: Tid) {
    x < |th| && th[x] in {LetInRead, LetInWrite}
  }

  /** Whoever was let in is on exactly one thread's list to be woken, and nobody else is. */
  ghost predicate WakesOk(th: seq<Th>) {
    && (forall x :: Owed(th, x) == One(IsLetIn(th, x)))
    && (forall t :: 0 <= t < |th| && th[t].Wakes? ==> th[t].rest != [])
  }

  ghost predicate Inv(s: State) {
    LockOk(s) && WakesOk(s.th)
  }

  // ---------------------------------------------------------------- counting threads

  lemma {:induction false} Change(th: seq<Th>, t: Tid, a: Th, x: Tid)
    requires t < |th|
    ensures Readers(th[t := a]) + One(IsReader(th[t])) == Readers(th) + One(IsReader(a))
    ensures Writers(th[t := a]) + One(IsWriter(th[t])) == Writers(th) + One(IsWriter(a))
    ensures Owed(th[t := a], x) + OwedBy(th[t], x) == Owed(th, x) + OwedBy(a, x)
  {
    hide OwedBy, IsReader, IsWriter;
    var n := |th| - 1;
    if t == n {
      assert th[t := a][..n] == th[..n];
    } else {
      assert th[t := a][..n] == th[..n][t := a];
      Change(th[..n], t, a, x);
    }
  }

  lemma {:induction false} LetInCounts(th: seq<Th>, wake: seq<Tid>, x: Tid)
    requires Distinct(wake) && forall i :: 0 <= i < |wake| ==> wake[i] < |th| && th[wake[i]] in {WaitsRead, WaitsWrite}
    requires wake == [] || forall i :: 0 <= i < |wake| ==> th[wake[i]] == th[wake[0]]
    ensures Readers(LetIn(th, wake)) == Readers(th) + if wake != [] && th[wake[0]] == WaitsRead then |wake| else 0
    ensures Writers(LetIn(th, wake)) == Writers(th) + if wake != [] && th[wake[0]] == WaitsWrite then |wake| else 0
    ensures Owed(LetIn(th, wake), x) == Owed(th, x)
  {
    if wake == [] {
      assert LetIn(th, wake) == th;
    } else {
      hide Readers, Writers, Owed, Distinct;
      var w, rest := wake[0], wake[1..];
      ConsDistinct(wake);
      var th1 := LetIn(th, rest);
      assert forall i :: 0 <= i < |rest| ==> rest[i] == wake[i + 1];
      assert LetIn(th, wake) == th1[w := Entered(th[w])] by {
        assert forall i :: i in wake <==> i == w || i in rest;
      }
      LetInCounts(th, rest, x);
      Change(th1, w, Entered(th[w]), x);
    }
  }

  lemma {:induction false} SomeReader(th: seq<Th>, t: Tid)
    requires t < |th|
    ensures IsReader(th[t]) ==> Readers(th) > 0
    ensures IsWriter(th[t]) ==> Writers(th) > 0
  {
    if t < |th| - 1 {
      SomeReader(th[..|th| - 1], t);
    }
  }

  /** Two writers cannot hide in one. */
  lemma {:induction false} OneWriter(th: seq<Th>, t: Tid, u: Tid)
    requires t < u < |th| && IsWriter(th[t]) && IsWriter(th[u])
    ensures Writers(th) >= 2
  {
    if u == |th| - 1 {
      SomeReader(th[..|th| - 1], t);
    } else {
      OneWriter(th[..|th| - 1], t, u);
    }
  }

  // ---------------------------------------------------------------- steps keep the invariant

  /** A thread that owes no wake-up, and is not owed one, turns into another such. */
  lemma QuietChange(th: seq<Th>, t: Tid, a: Th)
    requires WakesOk(th) && t < |th| && !th[t].Wakes? && !a.Wakes? && !IsLetIn(th, t) && a !in {LetInRead, LetInWrite}
    ensures WakesOk(th[t := a])
  {
    hide Owed, Readers, Writers;
    var th' := th[t := a];
    forall x ensures Owed(th', x) == One(IsLetIn(th', x)) {
      Change(th, t, a, x);
      assert Owed(th, x) == One(IsLetIn(th, x));
    }
  }

  lemma AppendDistinct(xs: seq<Tid>, x: Tid)
    requires Distinct(xs) && x !in xs
    ensures Distinct(xs + [x]) && forall y :: y in xs + [x] <==> y in xs || y == x
  {
  }

  lemma RdLocksOk(s: State, t: Tid)
    requires Inv(s) && t < |s.th| && s.th[t] == Out
    ensures Inv(Do(s, RdLocks(t)))
  {
    hide Owed, Readers, Writers, WakesOk, Distinct;
    var a := if s.lock.count >= 0 then Reads else WaitsRead;
    Change(s.th, t, a, 0);
    QuietChange(s.th, t, a);
    AppendDistinct(s.lock.readWaiters, t);
  }

  lemma WrLocksOk(s: State, t: Tid)
    requires Inv(s) && t < |s.th| && s.th[t] == Out
    ensures Inv(Do(s, WrLocks(t)))
  {
    hide Owed, Readers, Writers, WakesOk, Distinct;
    var a := if s.lock.count == 0 then Writes else WaitsWrite;
    Change(s.th, t, a, 0);
    QuietChange(s.th, t, a);
    AppendDistinct(s.lock.writeWaiters, t);
  }

  /** The threads in `wake` wait, all of them for the same thing. */
  ghost predicate Waiting(th: seq<Th>, wake: seq<Tid>, a: Th) {
    Distinct(wake) && a in {WaitsRead, WaitsWrite} && forall i :: 0 <= i < |wake| ==> wake[i] < |th| && th[wake[i]] == a
  }

  /** Thread `t` lets in the threads in `wake` and now owes them their wake-up. */
  function HandOver(th: seq<Th>, wake: seq<Tid>, t: Tid): seq<Th>
    requires t < |th|
  {
    LetIn(th, wake)[t := if wake == [] then Out else Wakes(wake)]
  }

  lemma HandOverWakes(th: seq<Th>, wake: seq<Tid>, a: Th, t: Tid)
    requires WakesOk(th) && Waiting(th, wake, a) && t < |th| && th[t] in {Reads, Writes}
    ensures WakesOk(HandOver(th, wake, t))
  {
    hide Owed, Readers, Writers, Distinct;
    var th1, th' := LetIn(th, wake), HandOver(th, wake, t);
    assert t !in wake;
    forall x ensures Owed(th', x) == One(IsLetIn(th', x)) {
      LetInCounts(th, wake, x);
      Change(th1, t, th'[t], x);
      DistinctCounts(wake, x);
      assert Owed(th, x) == One(IsLetIn(th, x));
      assert x in wake ==> !IsLetIn(th, x) && IsLetIn(th', x);
      assert x !in wake ==> IsLetIn(th', x) == IsLetIn(th, x);
    }
  }

  lemma HandOverCounts(th: seq<Th>, wake: seq<Tid>, a: Th, t: Tid)
    requires Waiting(th, wake, a) && t < |th| && th[t] in {Reads, Writes}
    ensures var th' := HandOver(th, wake, t);
      && Readers(th') + One(th[t] == Reads) == Readers(th) + (if a == WaitsRead then |wake| else 0)
      && Writers(th') + One(th[t] == Writes) == Writers(th) + (if a == WaitsWrite then |wake| else 0)
      && |th'| == |th| && (forall i :: 0 <= i < |th| && i !in wake && i != t ==> th'[i] == th[i])
      && (forall i :: 0 <= i < |th| && (i in wake || i == t) ==> th'[i] !in {WaitsRead, WaitsWrite})
  {
    hide Owed, Readers, Writers, Distinct;
    var th1, th' := LetIn(th, wake), HandOver(th, wake, t);
    assert t !in wake;
    LetInCounts(th, wake, 0);
    Change(th1, t, th'[t], 0);
  }

  /** What the threads that are woken wait for. */
  function WaitFor(l: Lock): Th {
    if l.count == -1 && l.readWaiters != [] then WaitsRead else WaitsWrite
  }

  lemma WhoIsWoken(s: State, t: Tid)
    requires LockOk(s) && t < |s.th| && s.th[t] in {Reads, Writes}
    ensures (s.th[t] == Writes <==> s.lock.count == -1) && (s.th[t] == Reads <==> s.lock.count > 0)
    ensures Waiting(s.th, Unlock(s.lock).wake, WaitFor(s.lock))
  {
    SomeReader(s.th, t);
    hide Owed, Readers, Writers;
    var l := s.lock;
    assert forall i :: 0 <= i < |l.readWaiters| ==> l.readWaiters[i] in l.readWaiters;
    assert forall i :: 0 <= i < |l.writeWaiters| ==> l.writeWaiters[i] in l.writeWaiters;
  }

  /** Threads not woken go on waiting, and those woken do not. */
  ghost predicate WaitOn(th: seq<Th>, wake: seq<Tid>, th': seq<Th>) {
    && |th'| == |th|
    && forall i :: 0 <= i < |th| ==>
         && (th'[i] == WaitsRead <==> th[i] == WaitsRead && i !in wake)
         && (th'[i] == WaitsWrite <==> th[i] == WaitsWrite && i !in wake)
  }

  lemma UnlockedLists(s: State, th': seq<Th>)
    requires LockOk(s) && s.lock.count != 0 && WaitOn(s.th, Unlock(s.lock).wake, th')
    ensures var l' := Unlock(s.lock).lock;
      && l'.readWaiterCount == |l'.readWaiters| && Distinct(l'.readWaiters) && Distinct(l'.writeWaiters)
      && (forall t :: t in l'.readWaiters <==> 0 <= t < |th'| && th'[t] == WaitsRead)
      && (forall t :: t in l'.writeWaiters <==> 0 <= t < |th'| && th'[t] == WaitsWrite)
      && (l'.readWaiters != [] ==> l'.count == -1) && (l'.writeWaiters != [] ==> l'.count != 0)
  {
    hide Readers, Writers;
    var l := s.lock;
    if l.writeWaiters != [] {
      ConsDistinct(l.writeWaiters);
      assert forall i :: i in l.writeWaiters <==> i == l.writeWaiters[0] || i in l.writeWaiters[1..];
    }
  }

  lemma UnlocksOk(s: State, t: Tid)
    requires Inv(s) && t < |s.th| && s.th[t] in {Reads, Writes}
    ensures s.lock.count != 0 && Inv(Do(s, Unlocks(t)))
  {
    hide Owed, Readers, Writers, WakesOk, HandOver, Waiting, Distinct;
    WhoIsWoken(s, t);
    var l, r, a := s.lock, Unlock(s.lock), WaitFor(s.lock);
    HandOverWakes(s.th, r.wake, a, t);
    HandOverCounts(s.th, r.wake, a, t);
    HandOverIs(s, t);
    var th' := HandOver(s.th, r.wake, t);
    assert WaitOn(s.th, r.wake, th');
    UnlockedLists(s, th');
    hide WaitOn;
  }

  lemma HandOverIs(s: State, t: Tid)
    requires IsEvent(s, Unlocks(t))
    ensures Do(s, Unlocks(t)).th == HandOver(s.th, Unlock(s.lock).wake, t)
  {
  }

  /** Thread `t` wakes the first thread it owes it. */
  function WakeFirst(th: seq<Th>, t: Tid): seq<Th>
    requires t < |th| && th[t].Wakes? && th[t].rest != []
  {
    var rest := th[t].rest;
    var th1 := if rest[0] < |th| then th[rest[0] := Woken(th[rest[0]])] else th;
    th1[t := if rest[1..] == [] then Out else Wakes(rest[1..])]
  }

  lemma FirstIsLetIn(th: seq<Th>, t: Tid)
    requires WakesOk(th) && t < |th| && th[t].Wakes?
    ensures th[t].rest != [] && IsLetIn(th, th[t].rest[0])
  {
    OwedSome(th, t, th[t].rest[0]);
    hide Owed;
    assert Owed(th, th[t].rest[0]) == One(IsLetIn(th, th[t].rest[0]));
  }

  lemma WakeFirstOk(th: seq<Th>, t: Tid)
    requires WakesOk(th) && t < |th| && th[t].Wakes?
    ensures th[t].rest != [] && WakesOk(WakeFirst(th, t))
  {
    hide Owed, Readers, Writers;
    FirstIsLetIn(th, t);
    var rest, x, th' := th[t].rest, th[t].rest[0], WakeFirst(th, t);
    var th1 := th[x := Woken(th[x])];
    forall y ensures Owed(th', y) == One(IsLetIn(th', y)) {
      Change(th, x, Woken(th[x]), y);
      Change(th1, t, th'[t], y);
      assert Owed(th, y) == One(IsLetIn(th, y));
      assert Count(rest, y) == One(x == y) + Count(rest[1..], y);
    }
  }

  lemma WakeFirstCounts(th: seq<Th>, t: Tid)
    requires WakesOk(th) && t < |th| && th[t].Wakes?
    ensures var th' := WakeFirst(th, t);
      && |th'| == |th| && Readers(th') == Readers(th) && Writers(th') == Writers(th)
      && th[t].rest[0] < |th| && th'[th[t].rest[0]] in {Reads, Writes}
      && (forall i :: 0 <= i < |th| ==>
            (th'[i] == WaitsRead <==> th[i] == WaitsRead) && (th'[i] == WaitsWrite <==> th[i] == WaitsWrite))
  {
    hide Owed, Readers, Writers;
    FirstIsLetIn(th, t);
    var x, th' := th[t].rest[0], WakeFirst(th, t);
    Change(th, x, Woken(th[x]), 0);
    Change(th[x := Woken(th[x])], t, th'[t], 0);
  }

  lemma WakesOneOk(s: State, t: Tid)
    requires Inv(s) && IsEvent(s, WakesOne(t))
    ensures Inv(Do(s, WakesOne(t)))
    ensures IsLetIn(s.th, s.th[t].rest[0]) && Do(s, WakesOne(t)).th[s.th[t].rest[0]] in {Reads, Writes}
  {
    hide WakesOk, Readers, Writers, Distinct;
    FirstIsLetIn(s.th, t);
    WakeFirstOk(s.th, t);
    WakeFirstCounts(s.th, t);
    assert Do(s, WakesOne(t)) == State(s.lock, WakeFirst(s.th, t));
    hide WakeFirst;
  }

  lemma {:induction false} OwedSome(th: seq<Th>, t: Tid, x: Tid)
    requires t < |th| && th[t].Wakes? && x in th[t].rest
    ensures Owed(th, x) > 0
  {
    if t < |th| - 1 {
      OwedSome(th[..|th| - 1], t, x);
    } else {
      CountIn(th[t].rest, x);
    }
  }

  lemma DoKeepsInv(s: State, e: Event)
    requires Inv(s) && IsEvent(s, e)
    ensures Inv(Do(s, e))
  {
    match e
    case RdLocks(t) => RdLocksOk(s, t);
    case TriesRd(t) =>
      RdLocksOk(s, t);
      hide Inv;
    case WrLocks(t) => WrLocksOk(s, t);
    case TriesWr(t) =>
      WrLocksOk(s, t);
      hide Inv;
    case Unlocks(t) => UnlocksOk(s, t);
    case WakesOne(t) => WakesOneOk(s, t);
  }

  // ---------------------------------------------------------------- runs

  /** A run of any number of threads on a fresh lock. */
  ghost predicate IsRun(run: seq<State>, events: seq<Event>) {
    && |run| == |events| + 1
    && run[0].lock == Lock(0, 0, [], []) && (forall t :: 0 <= t < |run[0].th| ==> run[0].th[t] == Out)
    && forall i :: 0 <= i < |events| ==> IsStep(run[i], events[i], run[i + 1])
  }

  predicate IsStep(s: State, e: Event, s': State) {
    IsEvent(s, e) && s' == Do(s, e)
  }

  lemma {:induction false} AllOut(th: seq<Th>, x: Tid)
    requires forall t :: 0 <= t < |th| ==> th[t] == Out
    ensures Readers(th) == 0 && Writers(th) == 0 && Owed(th, x) == 0
  {
    if th != [] {
      AllOut(th[..|th| - 1], x);
    }
  }

  lemma {:induction false} RunKeepsInv(run: seq<State>, events: seq<Event>, i: nat)
    requires IsRun(run, events) && i < |run|
    ensures Inv(run[i])
  {
    if i == 0 {
      var th := run[0].th;
      AllOut(th, 0);
      forall x ensures Owed(th, x) == One(IsLetIn(th, x)) {
        AllOut(th, x);
      }
    } else {
      hide Inv, Do;
      RunKeepsInv(run, events, i - 1);
      assert IsStep(run[i - 1], events[i - 1], run[i - 1 + 1]);
      DoKeepsInv(run[i - 1], events[i - 1]);
    }
  }

  /** In every run: -1 means one writer and no reader, n means n readers and no writer; so a thread
      that writes, or was let in to write, is alone. */
  lemma Exclusion(run: seq<State>, events: seq<Event>, i: nat, t: Tid, u: Tid)
    requires IsRun(run, events) && i < |run| && t < |run[i].th| && u < |run[i].th| && t != u
    ensures var s := run[i];
      && s.lock.count >= -1
      && Readers(s.th) == (if s.lock.count >= 0 then s.lock.count else 0) && Writers(s.th) == One(s.lock.count < 0)
      && !(IsWriter(s.th[t]) && (IsWriter(s.th[u]) || IsReader(s.th[u])))
  {
    RunKeepsInv(run, events, i);
    hide IsRun, Readers, Writers, WakesOk;
    var th := run[i].th;
    SomeReader(th, t);
    SomeReader(th, u);
    if IsWriter(th[t]) && IsWriter(th[u]) {
      if t < u {
        OneWriter(th, t, u);
      } else {
        OneWriter(th, u, t);
      }
    }
  }

  /** In every run: readers wait only under a writer, nobody waits for a free lock, the counter of
      waiting readers is exact, and each thread that waits is on exactly the list it should be on. */
  lemma WaitersInOrder(run: seq<State>, events: seq<Event>, i: nat)
    requires IsRun(run, events) && i < |run|
    ensures var l, th := run[i].lock, run[i].th;
      && l.readWaiterCount == |l.readWaiters|
      && (l.readWaiters != [] ==> l.count == -1)
      && (l.count == 0 ==> l.readWaiters == [] && l.writeWaiters == [])
      && Distinct(l.readWaiters) && Distinct(l.writeWaiters)
      && (forall t :: t in l.readWaiters <==> 0 <= t < |th| && th[t] == WaitsRead)
      && (forall t :: t in l.writeWaiters <==> 0 <= t < |th| && th[t] == WaitsWrite)
  {
    RunKeepsInv(run, events, i);
    hide IsRun, Readers, Writers, WakesOk, Distinct;
  }

  /** No wake-up is lost: as long as any thread is parked, some thread holds the lock awake, and will
      unlock it, or is about to wake one up. */
  lemma NoLostWakeup(run: seq<State>, events: seq<Event>, i: nat, t: Tid)
    requires IsRun(run, events) && i < |run| && t < |run[i].th|
    requires run[i].th[t] in {WaitsRead, WaitsWrite, LetInRead, LetInWrite}
    ensures exists u :: 0 <= u < |run[i].th| && IsBusy(run[i].th[u])
  {
    RunKeepsInv(run, events, i);
    hide IsRun, Readers, Writers, Owed, Distinct;
    var th := run[i].th;
    if IsLetIn(th, t) {
      assert Owed(th, t) == 1;
      var u := WhoOwes(th, t);
    } else {
      var l := run[i].lock;
      assert t in l.readWaiters || t in l.writeWaiters;
      assert l.count != 0;
      var u := WhoHolds(th);
      if IsLetIn(th, u) {
        assert Owed(th, u) == 1;
        var w := WhoOwes(th, u);
      }
    }
  }

  /** Holding the lock and running, or waking others. */
  predicate IsBusy(a: Th) {
    a == Reads || a == Writes || a.Wakes?
  }

  lemma {:induction false} WhoOwes(th: seq<Th>, x: Tid) returns (u: Tid)
    requires Owed(th, x) > 0
    ensures u < |th| && th[u].Wakes?
  {
    if OwedBy(th[|th| - 1], x) > 0 {
      u := |th| - 1;
    } else {
      u := WhoOwes(th[..|th| - 1], x);
    }
  }

  lemma {:induction false} WhoHolds(th: seq<Th>) returns (u: Tid)
    requires Readers(th) + Writers(th) > 0
    ensures u < |th| && (IsReader(th[u]) || IsWriter(th[u]))
  {
    if IsReader(th[|th| - 1]) || IsWriter(th[|th| - 1]) {
      u := |th| - 1;
    } else {
      u := WhoHolds(th[..|th| - 1]);
    }
  }

  // ---------------------------------------------------------------- the mutex

  /** Thread `u` holds the lock, or was handed it. */
  predicate Holds(a: Th) {
    IsReader(a) || IsWriter(a)
  }

  predicate NobodyWrites(th: seq<Th>) {
    forall u :: 0 <= u < |th| ==> !IsWriter(th[u])
  }

  predicate NobodyHolds(th: seq<Th>) {
    forall u :: 0 <= u < |th| ==> !Holds(th[u])
  }

  /** Nobody holds the lock but perhaps `self`. */
  predicate NobodyElseHolds(th: seq<Th>, self: Tid) {
    forall u :: 0 <= u < |th| && u != self ==> !Holds(th[u])
  }

  predicate SomeoneWaits(th: seq<Th>, a: Th) {
    exists u :: 0 <= u < |th| && th[u] == a
  }

  lemma {:induction false} WhoWrites(th: seq<Th>) returns (u: Tid)
    requires Writers(th) > 0
    ensures u < |th| && IsWriter(th[u])
  {
    if IsWriter(th[|th| - 1]) {
      u := |th| - 1;
    } else {
      u := WhoWrites(th[..|th| - 1]);
    }
  }

  /** The counts say whether anyone holds the lock. */
  lemma CountsSay(th: seq<Th>)
    ensures Writers(th) == 0 <==> NobodyWrites(th)
    ensures Readers(th) + Writers(th) == 0 <==> NobodyHolds(th)
  {
    hide Readers, Writers;
    if Writers(th) > 0 {
      var u := WhoWrites(th);
    }
    if Readers(th) + Writers(th) > 0 {
      var u := WhoHolds(th);
    }
    forall u | 0 <= u < |th| ensures IsReader(th[u]) ==> Readers(th) > 0 ensures IsWriter(th[u]) ==> Writers(th) > 0 {
      SomeReader(th, u);
    }
  }

  /** The counter tells who may have the lock. */
  lemma CounterSays(s: State)
    requires LockOk(s)
    ensures s.lock.count >= 0 <==> NobodyWrites(s.th)
    ensures s.lock.count == 0 <==> NobodyHolds(s.th)
  {
    hide Readers, Writers, Distinct;
    CountsSay(s.th);
  }

  /** A holder is the last one exactly if the counter says so. */
  lemma LastHolder(s: State, self: Tid)
    requires LockOk(s) && self < |s.th| && s.th[self] in {Reads, Writes}
    ensures s.lock.count in {-1, 1} <==> NobodyElseHolds(s.th, self)
  {
    hide Readers, Writers, Owed, Distinct;
    var th := s.th[self := Out];
    Change(s.th, self, Out, 0);
    CountsSay(th);
    SomeReader(s.th, self);
    assert NobodyHolds(th) <==> NobodyElseHolds(s.th, self) by {
      assert forall u :: 0 <= u < |th| && u != self ==> th[u] == s.th[u];
    }
  }

  /** struct rwmutex.  What its fields stand for is kept as a ghost: what each thread is doing. */
  class Mutex {
    var count: int
    var readWaiterCount: int
    var readWaiters: seq<Tid>
    var writeWaiters: seq<Tid>
    ghost var th: seq<Th>

    ghost function Fields(): State
      reads this
    {
      State(Lock(count, readWaiterCount, readWaiters, writeWaiters), th)
    }

    ghost predicate Valid()
      reads this
    {
      Inv(Fields())
    }

    constructor (ghost threads: nat)
      ensures Valid() && th == seq(threads, _ => Out)
    {
      count, readWaiterCount, readWaiters, writeWaiters := 0, 0, [], [];
      th := seq(threads, _ => Out);
      new;
      AllOut(th, 0);
      forall x ensures Owed(th, x) == One(IsLetIn(th, x)) {
        AllOut(th, x);
      }
    }

    /** rwmutex_rdlock: the lock is taken exactly if nobody has it for writing; otherwise the caller parks
        behind the readers that wait already. */
    method ReadLock(self: Tid) returns (taken: bool)
      requires Valid() && self < |th| && th[self] == Out
      modifies this
      ensures Valid() && taken == NobodyWrites(old(th))
      ensures th == old(th)[self := if taken then Reads else WaitsRead]
      ensures readWaiters == old(readWaiters) + (if taken then [] else [self]) && writeWaiters == old(writeWaiters)
    {
      hide LockOk, WakesOk, NobodyWrites;
      CounterSays(Fields());
      RdLocksOk(Fields(), self);
      taken := count >= 0;
      if taken {
        count := count + 1;
        th := th[self := Reads];
      } else {
        readWaiterCount := readWaiterCount + 1;
        readWaiters := readWaiters + [self];
        th := th[self := WaitsRead];
      }
    }

    /** rwmutex_try_rdlock: as above, but the caller does not wait. */
    method TryReadLock(self: Tid) returns (taken: bool)
      requires Valid() && self < |th| && th[self] == Out
      modifies this`count, this`th
      ensures Valid() && taken == NobodyWrites(old(th))
      ensures th == if taken then old(th)[self := Reads] else old(th)
    {
      hide LockOk, WakesOk, NobodyWrites;
      CounterSays(Fields());
      RdLocksOk(Fields(), self);
      taken := count >= 0;
      if taken {
        count := count + 1;
        th := th[self := Reads];
      }
    }

    /** rwmutex_wrlock: the lock is taken exactly if nobody has it; otherwise the caller parks behind the
        writers that wait already. */
    method WriteLock(self: Tid) returns (taken: bool)
      requires Valid() && self < |th| && th[self] == Out
      modifies this
      ensures Valid() && taken == NobodyHolds(old(th))
      ensures th == old(th)[self := if taken then Writes else WaitsWrite]
      ensures writeWaiters == old(writeWaiters) + (if taken then [] else [self]) && readWaiters == old(readWaiters)
    {
      hide LockOk, WakesOk, NobodyHolds;
      CounterSays(Fields());
      WrLocksOk(Fields(), self);
      taken := count == 0;
      if taken {
        count := -1;
        th := th[self := Writes];
      } else {
        writeWaiters := writeWaiters + [self];
        th := th[self := WaitsWrite];
      }
    }

    /** rwmutex_try_wrlock */
    method TryWriteLock(self: Tid) returns (taken: bool)
      requires Valid() && self < |th| && th[self] == Out
      modifies this`count, this`th
      ensures Valid() && taken == NobodyHolds(old(th))
      ensures th == if taken then old(th)[self := Writes] else old(th)
    {
      hide LockOk, WakesOk, NobodyHolds;
      CounterSays(Fields());
      WrLocksOk(Fields(), self);
      taken := count == 0;
      if taken {
        count := -1;
        th := th[self := Writes];
      }
    }

    /** rwmutex_unlock, up to the release of the spin lock.  If the caller was the last holder, the lock
        is handed to all the readers that wait, or if there are none to the writer that has waited
        longest; and these are to be woken. */
    method ReleaseLock(ghost self: Tid) returns (wake: seq<Tid>)
      requires Valid() && self < |th| && th[self] in {Reads, Writes}
      modifies this
      ensures Valid() && th == HandOver(old(th), wake, self)
      ensures !NobodyElseHolds(old(th), self) ==> wake == []
      ensures NobodyElseHolds(old(th), self) && SomeoneWaits(old(th), WaitsRead) ==>
        Distinct(wake) && forall u :: u in wake <==> 0 <= u < |old(th)| && old(th)[u] == WaitsRead
      ensures NobodyElseHolds(old(th), self) && !SomeoneWaits(old(th), WaitsRead) ==>
        if SomeoneWaits(old(th), WaitsWrite) then old(writeWaiters) != [] && wake == [old(writeWaiters)[0]]
        else wake == []
    {
      ghost var s := Fields();
      UnlocksOk(s, self);
      HandOverIs(s, self);
      LastHolder(s, self);
      WhoWaits(s);
      WhoIsWoken(s, self);
      hide LockOk, WakesOk, NobodyElseHolds, SomeoneWaits, HandOver, Waiting, Distinct;
      wake := [];
      if count < 0 {
        count := 0;
      } else {
        count := count - 1;
      }
      if count == 0 && readWaiterCount > 0 {
        count := readWaiterCount;
        readWaiterCount := 0;
        wake, readWaiters := readWaiters, [];
      } else if count == 0 && writeWaiters != [] {
        wake, writeWaiters := [writeWaiters[0]], writeWaiters[1..];
        count := -1;
      }
      assert Released(Fields().lock, wake) == Unlock(s.lock);
      th := HandOver(th, wake, self);
    }
  }

  /** The lists say who waits. */
  lemma WhoWaits(s: State)
    requires LockOk(s)
    ensures Distinct(s.lock.readWaiters) && s.lock.readWaiterCount == |s.lock.readWaiters|
    ensures forall u :: u in s.lock.readWaiters <==> 0 <= u < |s.th| && s.th[u] == WaitsRead
    ensures s.lock.readWaiters != [] <==> SomeoneWaits(s.th, WaitsRead)
    ensures s.lock.writeWaiters != [] <==> SomeoneWaits(s.th, WaitsWrite)
    ensures s.lock.readWaiters != [] ==> s.lock.count == -1
  {
    hide Readers, Writers, Distinct;
    var l := s.lock;
    if l.readWaiters != [] {
      assert l.readWaiters[0] in l.readWaiters;
    }
    if l.writeWaiters != [] {
      assert l.writeWaiters[0] in l.writeWaiters;
    }
  }
}
