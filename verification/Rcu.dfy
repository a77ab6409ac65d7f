/**
 Read-copy-update on top of the user-level scheduler.

 Every kthread has a counter that is odd while it runs a thread and even while it is in the
 scheduler or parked.  The reclaim thread takes the list of objects to free, reads all counters,
 and then re-reads them until none is odd and unchanged; only then does it run the callbacks.
 Each counter access is one step, interleaved with everything the kthreads do.

 Callbacks are numbered in the order of their rcu_free; `openAt[c]` records the read sections
 that were open when callback `c` was queued.
 */
module Rcu {

  datatype Section = Section(kthread: nat, id: nat)

  type Callback = nat

  /** rcu_worker; `head` is its private list of callbacks, `last` its snapshot so far. */
  datatype Worker =
    | Looking
    | Snapshotting(head: seq<Callback>, last: seq<nat>)
    | Sleeping(head: seq<Callback>, last: seq<nat>)
    | Checking(head: seq<Callback>, last: seq<nat>, next: nat)
    | Freeing(head: seq<Callback>)

  /** The kthreads: `gen` has an entry for all maxks of them, of which `nrks` are attached. */
  datatype Kthreads = Kthreads(gen: seq<nat>, nrks: nat, open: set<Section>, nextId: nat)

  datatype State = State(
    k: Kthreads,
    queue: seq<Callback>,           // the rcu_head list, newest first
    worker: Worker,
    freed: seq<Callback>,
    openAt: seq<set<Section>>)

  datatype Action =
    | Attach
    | Switch(kthread: nat, inc: nat)   // rcu_gen += 1 (enter or leave the scheduler) or 2 (fast switch)
    | ReadLock(kthread: nat)
    | ReadUnlock(section: Section)
    | Free                            // rcu_free, and the queueing half of synchronize_rcu
    | TakeHead
    | Snapshot
    | EndSnapshot
    | Awake
    | Check(junk: nat)                // `junk`: what an unwritten snapshot slot holds
    | EndCheck
    | RunCallback
    | EndCallbacks

  predicate InSection(k: Kthreads, i: nat) {
    exists sec :: sec in k.open && sec.kthread == i
  }

  ghost predicate Enabled(s: State, a: Action) {
    match a
    case Attach => s.k.nrks < |s.k.gen|
    // read sections disable preemption, so a kthread switches only outside of them
    case Switch(i, inc) =>
      && i < s.k.nrks <= |s.k.gen| && !InSection(s.k, i)
      && (inc == 1 || (inc == 2 && s.k.gen[i] % 2 == 1))
    case ReadLock(i) => i < s.k.nrks <= |s.k.gen| && s.k.gen[i] % 2 == 1
    case ReadUnlock(sec) => sec in s.k.open
    case Free => true
    case TakeHead => s.worker.Looking? && s.queue != []
    case Snapshot => s.worker.Snapshotting? && |s.worker.last| < s.k.nrks <= |s.k.gen|
    case EndSnapshot => s.worker.Snapshotting? && |s.worker.last| >= s.k.nrks
    case Awake => s.worker.Sleeping?
    case Check(_) => s.worker.Checking? && s.worker.next < s.k.nrks <= |s.k.gen|
    case EndCheck => s.worker.Checking? && s.worker.next >= s.k.nrks
    case RunCallback => s.worker.Freeing? && s.worker.head != []
    case EndCallbacks => s.worker.Freeing? && s.worker.head == []
  }

  ghost function Do(s: State, a: Action): State
    requires Enabled(s, a)
  {
    var k := s.k;
    match a
    case Attach => s.(k := k.(nrks := k.nrks + 1))
    case Switch(i, inc) => s.(k := k.(gen := k.gen[i := k.gen[i] + inc]))
    case ReadLock(i) => s.(k := k.(open := k.open + {Section(i, k.nextId)}, nextId := k.nextId + 1))
    case ReadUnlock(sec) => s.(k := k.(open := k.open - {sec}))
    case Free => s.(queue := [|s.openAt|] + s.queue, openAt := s.openAt + [k.open])
    case TakeHead => s.(queue := [], worker := Snapshotting(s.queue, []))
    case Snapshot => s.(worker := Snapshotting(s.worker.head, s.worker.last + [k.gen[|s.worker.last|]]))
    case EndSnapshot => s.(worker := Sleeping(s.worker.head, s.worker.last))
    case Awake => s.(worker := Checking(s.worker.head, s.worker.last, 0))
    case Check(junk) =>
      var w := s.worker;
      var last := if w.next < |w.last| then w.last[w.next] else junk;
      // an odd, unchanged counter: give up this round
      if k.gen[w.next] % 2 == 1 && k.gen[w.next] == last then
        s.(worker := Sleeping(w.head, w.last))
      else s.(worker := Checking(w.head, w.last, w.next + 1))
    case EndCheck =>
      // free only if the loop ran over all maxks kthreads
      if s.worker.next != |k.gen| then s.(worker := Sleeping(s.worker.head, s.worker.last))
      else s.(worker := Freeing(s.worker.head))
    case RunCallback =>
      s.(worker := Freeing(s.worker.head[1..]), freed := s.freed + [s.worker.head[0]])
    case EndCallbacks => s.(worker := Looking)
  }

  // ---------------------------------------------------------------- the invariant

  function Head(w: Worker): seq<Callback> {
    if w.Looking? then [] else w.head
  }

  /** A section some callback of `head` has to wait for is still open on kthread `i`. */
  ghost predicate Blocked(s: State, i: nat) {
    exists c, sec :: Blocks(s, c, sec, i)
  }

  predicate Blocks(s: State, c: Callback, sec: Section, i: nat) {
    c in Head(s.worker) && c < |s.openAt| && sec in s.openAt[c] && sec in s.k.open && sec.kthread == i
  }

  predicate KthreadsOk(k: Kthreads) {
    && k.nrks <= |k.gen|
    && forall sec :: sec in k.open ==>
         sec.kthread < k.nrks && k.gen[sec.kthread] % 2 == 1 && sec.id < k.nextId
  }

  predicate LogOk(s: State) {
    && (forall c :: 0 <= c < |s.openAt| ==> forall sec :: sec in s.openAt[c] ==>
          sec.kthread < s.k.nrks && sec.id < s.k.nextId)
    && (forall c :: c in Head(s.worker) ==> c < |s.openAt|)
    && (forall c :: c in s.queue ==> c < |s.openAt|)
  }

  ghost predicate WorkerOk(s: State) {
    match s.worker
    case Looking => true
    case Snapshotting(_, last) => SnapshotOk(s, last)
    case Sleeping(head, last) => SnapshotOk(s, last) && Covers(s, head, |last|)
    case Checking(head, last, next) =>
      SnapshotOk(s, last) && Covers(s, head, |last|) && forall i: nat :: i < next ==> !Blocked(s, i)
    case Freeing(_) => forall i: nat :: i < |s.k.gen| ==> !Blocked(s, i)
  }

  /** A kthread that still blocks has not switched since the snapshot. */
  ghost predicate SnapshotOk(s: State, last: seq<nat>) {
    && |last| <= |s.k.gen|
    && forall i: nat :: i < |last| && Blocked(s, i) ==> last[i] == s.k.gen[i]
  }

  /** Every section to wait for is on one of the first `n` kthreads. */
  predicate Covers(s: State, head: seq<Callback>, n: nat) {
    forall c, sec :: c in head && c < |s.openAt| && sec in s.openAt[c] ==> sec.kthread < n
  }

  /** All callbacks ever queued: those run, those the worker holds, those it has not seen. */
  function Callbacks(s: State): seq<Callback> {
    s.freed + Head(s.worker) + s.queue
  }

  /** Each callback is in exactly one place, once. */
  predicate NoneLost(cs: seq<Callback>, n: nat) {
    && |cs| == n
    && (forall i :: 0 <= i < |cs| ==> cs[i] < n)
    && (forall i, j :: 0 <= i < j < |cs| ==> cs[i] != cs[j])
  }

  ghost predicate Inv(s: State) {
    KthreadsOk(s.k) && LogOk(s) && WorkerOk(s) && NoneLost(Callbacks(s), |s.openAt|)
  }

  lemma QueueOne(cs: seq<Callback>, m: nat)
    requires NoneLost(cs, |cs|) && m <= |cs|
    ensures NoneLost(cs[..m] + [|cs|] + cs[m..], |cs| + 1)
  {
    var ds := cs[..m] + [|cs|] + cs[m..];
    assert forall i :: 0 <= i < |ds| ==> ds[i] == (if i < m then cs[i] else if i == m then |cs| else cs[i - 1]);
  }

  lemma CallbacksStep(s: State, a: Action)
    requires Enabled(s, a) && NoneLost(Callbacks(s), |s.openAt|)
    ensures NoneLost(Callbacks(Do(s, a)), |Do(s, a).openAt|)
  {
    var s', cs := Do(s, a), Callbacks(s);
    assert |cs| == |s.openAt|;
    hide NoneLost;
    if a.Free? {
      var m := |s.freed + Head(s.worker)|;
      QueueOne(cs, m);
      assert cs[..m] == s.freed + Head(s.worker) && cs[m..] == s.queue;
      assert Callbacks(s') == cs[..m] + [|cs|] + cs[m..];
    } else {
      assert Callbacks(s') == cs;
    }
  }

  /** Nothing newly blocks while the worker keeps its list. */
  lemma BlockedShrinks(s: State, s': State)
    requires Inv(s) && s.openAt <= s'.openAt && Head(s'.worker) == Head(s.worker)
    requires forall sec :: sec in s'.k.open && sec !in s.k.open ==> sec.id >= s.k.nextId
    ensures forall i: nat :: Blocked(s', i) ==> Blocked(s, i)
  {
    forall i: nat | Blocked(s', i) ensures Blocked(s, i) {
      var c, sec :| Blocks(s', c, sec, i);
      assert Blocks(s, c, sec, i);
    }
  }

  lemma KthreadStep(s: State, a: Action)
    requires Inv(s) && Enabled(s, a) && (a.Attach? || a.Switch? || a.ReadLock? || a.ReadUnlock? || a.Free?)
    ensures Inv(Do(s, a))
  {
    hide NoneLost;
    CallbacksStep(s, a);
    var s' := Do(s, a);
    BlockedShrinks(s, s');
    if a.Switch? {
      forall i: nat | Blocked(s', i) ensures i != a.kthread {
        var c, sec :| Blocks(s', c, sec, i);
        assert sec in s.k.open && sec.kthread == i;
      }
    }
  }

  lemma WorkerStep(s: State, a: Action)
    requires Inv(s) && Enabled(s, a)
    requires a.TakeHead? || a.Snapshot? || a.EndSnapshot? || a.Awake? || a.EndCheck? || a.EndCallbacks?
    ensures Inv(Do(s, a))
  {
    hide NoneLost;
    CallbacksStep(s, a);
    var s' := Do(s, a);
    if !a.TakeHead? {
      BlockedShrinks(s, s');
    }
  }

  lemma CheckStep(s: State, junk: nat)
    requires Inv(s) && Enabled(s, Check(junk))
    ensures Inv(Do(s, Check(junk)))
  {
    hide NoneLost;
    CallbacksStep(s, Check(junk));
    var s', w := Do(s, Check(junk)), s.worker;
    BlockedShrinks(s, s');
    if Blocked(s, w.next) {
      var c, sec :| Blocks(s, c, sec, w.next);
      assert sec.kthread < |w.last| && w.last[w.next] == s.k.gen[w.next];
    }
  }

  /** When the worker frees, none of its callbacks is blocked. */
  lemma FreeingIsSafe(s: State, c: Callback)
    requires Inv(s) && s.worker.Freeing? && c in s.worker.head
    ensures c < |s.openAt| && s.openAt[c] !! s.k.open
  {
    forall sec | sec in s.openAt[c] && sec in s.k.open ensures false {
      assert Blocks(s, c, sec, sec.kthread);
      assert Blocked(s, sec.kthread);
    }
  }

  lemma CallbackStep(s: State)
    requires Inv(s) && Enabled(s, RunCallback)
    ensures Inv(Do(s, RunCallback))
  {
    hide NoneLost;
    CallbacksStep(s, RunCallback);
    var s' := Do(s, RunCallback);
    assert forall c :: c in s'.worker.head ==> c in s.worker.head;
    forall i: nat | Blocked(s', i) ensures Blocked(s, i) {
      var c, sec :| Blocks(s', c, sec, i);
      assert Blocks(s, c, sec, i);
    }
  }

  lemma StepKeepsInv(s: State, a: Action)
    requires Inv(s) && Enabled(s, a)
    ensures Inv(Do(s, a)) && s.openAt <= Do(s, a).openAt
  {
    if a.Check? {
      CheckStep(s, a.junk);
    } else if a.RunCallback? {
      CallbackStep(s);
    } else if a.Attach? || a.Switch? || a.ReadLock? || a.ReadUnlock? || a.Free? {
      KthreadStep(s, a);
    } else {
      WorkerStep(s, a);
    }
  }

  // ---------------------------------------------------------------- whole runs

  function Boot(maxks: nat): State {
    State(Kthreads(seq(maxks, _ => 0), 0, {}, 0), [], Looking, [], [])
  }

  ghost predicate IsStep(s: State, a: Action, s': State) {
    Enabled(s, a) && s' == Do(s, a)
  }

  ghost predicate IsRun(run: seq<State>, actions: seq<Action>, maxks: nat) {
    && |run| == |actions| + 1 && run[0] == Boot(maxks)
    && forall i :: 0 <= i < |actions| ==> IsStep(run[i], actions[i], run[i + 1])
  }

  lemma {:induction false} RunKeepsInv(run: seq<State>, actions: seq<Action>, maxks: nat, i: nat)
    requires IsRun(run, actions, maxks) && i < |run|
    ensures Inv(run[i])
  {
    if i > 0 {
      RunKeepsInv(run, actions, maxks, i - 1);
      assert IsStep(run[i - 1], actions[i - 1], run[i]);
      StepKeepsInv(run[i - 1], actions[i - 1]);
    }
  }

  lemma {:induction false} LogGrows(run: seq<State>, actions: seq<Action>, maxks: nat, i: nat, j: nat)
    requires IsRun(run, actions, maxks) && i <= j < |run|
    ensures run[i].openAt <= run[j].openAt
  {
    if i < j {
      LogGrows(run, actions, maxks, i, j - 1);
      RunKeepsInv(run, actions, maxks, j - 1);
      assert IsStep(run[j - 1], actions[j - 1], run[j]);
      StepKeepsInv(run[j - 1], actions[j - 1]);
    }
  }

  /** RCU safety.  If step `i` is the rcu_free of a callback and step `j` runs it, then no read
      section that was open at step `i` is still open at step `j`, whatever happened between,
      on any number of kthreads. */
  lemma GracePeriod(run: seq<State>, actions: seq<Action>, maxks: nat, i: nat, j: nat)
    requires IsRun(run, actions, maxks) && i < |actions| && j < |actions|
    requires actions[i].Free? && actions[j].RunCallback?
    requires run[j].worker.Freeing? && run[j].worker.head != []
    requires run[j].worker.head[0] == |run[i].openAt|
    ensures i < j && run[i].k.open !! run[j].k.open
  {
    var c := |run[i].openAt|;
    assert IsStep(run[i], actions[i], run[i + 1]);
    RunKeepsInv(run, actions, maxks, j);
    FreeingIsSafe(run[j], c);
    if j <= i {
      LogGrows(run, actions, maxks, j, i);
    } else {
      LogGrows(run, actions, maxks, i + 1, j);
    }
  }

  /** No callback is lost and none is run twice. */
  lemma CallbacksRunOnce(run: seq<State>, actions: seq<Action>, maxks: nat, i: nat)
    requires IsRun(run, actions, maxks) && i < |run|
    ensures NoneLost(run[i].freed + Head(run[i].worker) + run[i].queue, |run[i].openAt|)
  {
    RunKeepsInv(run, actions, maxks, i);
  }
}
