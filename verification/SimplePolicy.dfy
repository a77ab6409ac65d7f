/**
 The simple core-allocation policy, on top of the core scheduler.

 The policy keeps its own table of which process owns each core, a count of cores per process, the
 last owners of each core, the unowned cores, and the list of processes waiting for a core.  The
 main results say that its table agrees with what the scheduler was last asked to run, that its
 counts are right, and that it never takes a core from a process that is within its guarantee.
 */
module SimplePolicy {
  import opened Scheduler
  import opened Prelude
  import SwapArray

  const NHIST := 4

  /** struct simple_data */
  datatype Sd = Sd(guaranteed: int, max: int, active: int, priority: int, congested: bool, waking: bool)

  /** cores[], hist[][], simple_idle_cores and congested_procs */
  datatype Policy = Policy(sds: map<nat, Sd>, owner: seq<Option<nat>>, hist: seq<seq<Option<nat>>>,
                           idle: set<nat>, waiting: seq<nat>)

  datatype System = System(sched: State, pol: Policy)

  // ---------------------------------------------------------------- invariant

  /** How many cores belong to process `p`. */
  function Owned(owner: seq<Option<nat>>, p: nat): nat {
    if owner == [] then 0
    else Owned(owner[..|owner| - 1], p) + One(owner[|owner| - 1] == Some(p))
  }

  predicate OwnersOk(pol: Policy, m: Machine) {
    && |pol.owner| == NCPU
    && (forall c :: 0 <= c < NCPU && pol.owner[c].Some? ==> pol.owner[c].value in pol.sds && c in m.allowed)
    && (forall c :: c in pol.idle ==> c in m.allowed && c < NCPU && pol.owner[c].None?)
  }

  predicate CountsOk(pol: Policy) {
    forall p :: p in pol.sds ==> pol.sds[p].active == Owned(pol.owner, p)
  }

  predicate HistOk(pol: Policy) {
    && |pol.hist| == NCPU
    && (forall c :: 0 <= c < NCPU ==> RowOk(pol, pol.hist[c]))
  }

  predicate RowOk(pol: Policy, row: seq<Option<nat>>) {
    |row| == NHIST && forall j :: 0 <= j < NHIST && row[j].Some? ==> row[j].value in pol.sds
  }

  predicate WaitingOk(pol: Policy) {
    && Distinct(pol.waiting)
    && (forall p :: p in pol.waiting ==> p in pol.sds && pol.sds[p].congested)
    && (forall p :: p in pol.sds && pol.sds[p].congested ==> p in pol.waiting)
  }

  predicate PolOk(pol: Policy, m: Machine) {
    OwnersOk(pol, m) && CountsOk(pol) && HistOk(pol) && WaitingOk(pol)
  }

  /** The thread last requested on a core belongs to the process that owns the core. */
  predicate AgreesAt(s: System, c: nat)
    requires c < |s.pol.owner| && c < |s.sched.cores|
  {
    s.pol.owner[c].Some? ==>
      && Latest(s.sched.cores[c]).Some?
      && Latest(s.sched.cores[c]).value.p == s.pol.owner[c].value
  }

  /** The two layers agree on every core but those in `open`, which were just reported idle. */
  predicate Agrees(s: System, open: set<nat>) {
    && |s.pol.owner| == |s.sched.cores| == NCPU
    && (forall c :: 0 <= c < NCPU && c !in open ==> AgreesAt(s, c))
  }

  /** Each layer is in order by itself. */
  ghost predicate Ordered(s: System, m: Machine) {
    && MachineOk(m) && Scheduler.Inv(s.sched, m) && PolOk(s.pol, m)
    && s.pol.sds.Keys <= s.sched.procs.Keys
  }

  ghost predicate SysOk(s: System, m: Machine, open: set<nat>) {
    Ordered(s, m) && Agrees(s, open)
  }

  lemma AgreesMore(s: System, open: set<nat>, more: set<nat>)
    requires Agrees(s, open) && open <= more
    ensures Agrees(s, more)
  {
    hide AgreesAt;
  }

  // ---------------------------------------------------------------- counting

  lemma {:induction false} OwnedUpdate(owner: seq<Option<nat>>, c: nat, v: Option<nat>, p: nat)
    requires c < |owner|
    ensures Owned(owner[c := v], p) + One(owner[c] == Some(p)) == Owned(owner, p) + One(v == Some(p))
  {
    var n := |owner| - 1;
    if c == n {
      assert owner[c := v][..n] == owner[..n];
    } else {
      assert owner[c := v][..n] == owner[..n][c := v];
      OwnedUpdate(owner[..n], c, v, p);
    }
  }

  lemma {:induction false} OwnedZero(owner: seq<Option<nat>>, p: nat)
    requires forall c :: 0 <= c < |owner| ==> owner[c] != Some(p)
    ensures Owned(owner, p) == 0
  {
    if owner != [] {
      OwnedZero(owner[..|owner| - 1], p);
    }
  }

  // ---------------------------------------------------------------- bookkeeping

  /** simple_cleanup_core: the owner, if any, loses the core and becomes its latest past owner. */
  function Cleanup(pol: Policy, m: Machine, c: nat): Policy
    requires PolOk(pol, m) && c < NCPU
  {
    if pol.owner[c].None? then pol
    else
      var p := pol.owner[c].value;
      pol.(sds := pol.sds[p := pol.sds[p].(active := pol.sds[p].active - 1)],
           owner := pol.owner[c := None],
           hist := pol.hist[c := [Some(p)] + pol.hist[c][..NHIST - 1]])
  }

  /** simple_mark_congested */
  function Mark(pol: Policy, p: nat): Policy
    requires p in pol.sds
  {
    if pol.sds[p].congested then pol
    else pol.(sds := pol.sds[p := pol.sds[p].(congested := true)], waiting := [p] + pol.waiting)
  }

  /** simple_unmark_congested */
  function Unmark(pol: Policy, p: nat): Policy
    requires p in pol.sds
  {
    if !pol.sds[p].congested then pol
    else pol.(sds := pol.sds[p := pol.sds[p].(congested := false)], waiting := Without(pol.waiting, p))
  }

  /** The second half of simple_run_kthread_on_core: process `p` gets the unowned core `c`. */
  function Assign(pol: Policy, p: nat, c: nat): Policy
    requires p in pol.sds && c < |pol.owner|
  {
    pol.(sds := pol.sds[p := pol.sds[p].(active := pol.sds[p].active + 1, waking := true)],
         owner := pol.owner[c := Some(p)], idle := pol.idle - {c})
  }

  lemma MarkOk(pol: Policy, m: Machine, p: nat)
    requires PolOk(pol, m) && p in pol.sds
    ensures PolOk(Mark(pol, p), m) && Mark(pol, p).sds.Keys == pol.sds.Keys
  {
    hide RowOk;
    assert forall c :: 0 <= c < NCPU ==> RowOk(pol, pol.hist[c]) ==> RowOk(Mark(pol, p), pol.hist[c]) by {
      RowsFrame(pol, Mark(pol, p));
    }
  }

  lemma UnmarkOk(pol: Policy, m: Machine, p: nat)
    requires PolOk(pol, m) && p in pol.sds
    ensures PolOk(Unmark(pol, p), m) && Unmark(pol, p).sds.Keys == pol.sds.Keys
    ensures Unmark(pol, p).owner == pol.owner
  {
    WithoutDrops(pol.waiting, p);
    RowsFrame(pol, Unmark(pol, p));
    hide RowOk;
  }

  lemma RowsFrame(pol: Policy, pol': Policy)
    requires pol.sds.Keys <= pol'.sds.Keys
    ensures forall row :: RowOk(pol, row) ==> RowOk(pol', row)
  {
  }

  lemma CleanupOk(pol: Policy, m: Machine, c: nat)
    requires PolOk(pol, m) && c < NCPU
    ensures var pol' := Cleanup(pol, m, c);
      PolOk(pol', m) && pol'.sds.Keys == pol.sds.Keys && pol'.owner == pol.owner[c := None]
  {
    if pol.owner[c].Some? {
      var pol' := Cleanup(pol, m, c);
      RowsFrame(pol, pol');
      assert RowOk(pol', pol'.hist[c]);
      forall p | p in pol'.sds ensures pol'.sds[p].active == Owned(pol'.owner, p) {
        OwnedUpdate(pol.owner, c, None, p);
      }
      hide Owned, RowOk;
    }
  }

  lemma AssignOk(pol: Policy, m: Machine, p: nat, c: nat)
    requires PolOk(pol, m) && p in pol.sds && c in m.allowed && c < NCPU && pol.owner[c].None?
    ensures PolOk(Assign(pol, p, c), m) && Assign(pol, p, c).sds.Keys == pol.sds.Keys
  {
    var pol' := Assign(pol, p, c);
    RowsFrame(pol, pol');
    forall q | q in pol'.sds ensures pol'.sds[q].active == Owned(pol'.owner, q) {
      OwnedUpdate(pol.owner, c, Some(p), q);
    }
    hide Owned, RowOk;
  }

  /** `p` is wiped from a table. */
  function Erase(xs: seq<Option<nat>>, p: nat): (r: seq<Option<nat>>)
    ensures |r| == |xs| && forall i :: 0 <= i < |xs| ==> r[i] == if xs[i] == Some(p) then None else xs[i]
  {
    seq(|xs|, i requires 0 <= i < |xs| => if xs[i] == Some(p) then None else xs[i])
  }

  lemma {:induction false} OwnedErase(owner: seq<Option<nat>>, p: nat, q: nat)
    ensures Owned(Erase(owner, p), q) == if q == p then 0 else Owned(owner, q)
  {
    if owner != [] {
      var n := |owner| - 1;
      assert Erase(owner, p)[..n] == Erase(owner[..n], p);
      OwnedErase(owner[..n], p, q);
    }
  }

  /** simple_attach */
  function AttachPol(pol: Policy, p: nat, guaranteed: int, max: int, priority: int): Policy {
    pol.(sds := pol.sds[p := Sd(guaranteed, max, 0, priority, false, false)])
  }

  /** simple_detach */
  function DetachPol(pol: Policy, p: nat): Policy
    requires p in pol.sds
  {
    var u := Unmark(pol, p);
    u.(sds := u.sds - {p}, owner := Erase(u.owner, p),
       hist := seq(|u.hist|, c requires 0 <= c < |u.hist| => Erase(u.hist[c], p)))
  }

  lemma AttachPolOk(pol: Policy, m: Machine, p: nat, guaranteed: int, max: int, priority: int)
    requires PolOk(pol, m) && p !in pol.sds
    ensures PolOk(AttachPol(pol, p, guaranteed, max, priority), m)
  {
    var pol' := AttachPol(pol, p, guaranteed, max, priority);
    RowsFrame(pol, pol');
    OwnedZero(pol.owner, p);
    hide Owned, RowOk;
  }

  lemma DetachPolOk(pol: Policy, m: Machine, p: nat)
    requires PolOk(pol, m) && p in pol.sds
    ensures PolOk(DetachPol(pol, p), m)
    ensures DetachPol(pol, p).owner == Erase(pol.owner, p) && DetachPol(pol, p).sds.Keys == pol.sds.Keys - {p}
  {
    UnmarkOk(pol, m, p);
    var u, pol' := Unmark(pol, p), DetachPol(pol, p);
    assert WaitingOk(pol') by {
      assert !u.sds[p].congested;
      hide OwnersOk, CountsOk, HistOk;
    }
    assert HistOk(pol') by {
      hide OwnersOk, CountsOk, WaitingOk;
      assert forall c :: 0 <= c < NCPU ==> RowOk(u, u.hist[c]);
      assert forall c :: 0 <= c < NCPU ==> pol'.hist[c] == Erase(u.hist[c], p);
    }
    forall q | q in pol'.sds ensures pol'.sds[q].active == Owned(pol'.owner, q) {
      OwnedErase(u.owner, p, q);
    }
    assert OwnersOk(pol', m) by {
      hide HistOk, CountsOk, WaitingOk, Owned;
    }
  }

  // ---------------------------------------------------------------- choosing a core

  /** simple_proc_is_preemptible */
  predicate Preemptible(cur: Sd, next: Sd) {
    && cur.active > cur.guaranteed
    && (next.active < next.guaranteed || next.priority > cur.priority)
  }

  /** Process `p` may have core `c`: it is not its own already, and free or preemptible. */
  predicate CanTake(pol: Policy, m: Machine, p: nat, c: nat)
    requires OwnersOk(pol, m) && p in pol.sds && c < NCPU
  {
    && pol.owner[c] != Some(p)
    && (pol.owner[c].None? || Preemptible(pol.sds[pol.owner[c].value], pol.sds[p]))
  }

  /** Process `p` owns core `c` and may have its hyperthread sibling. */
  predicate HasSibling(pol: Policy, m: Machine, p: nat, c: nat)
    requires MachineOk(m) && OwnersOk(pol, m) && p in pol.sds && c < NCPU
  {
    && c in m.allowed && pol.owner[c] == Some(p)
    && CanTake(pol, m, p, m.siblings[c]) && m.siblings[c] in m.allowed
  }

  /** The first usable hyperthread sibling of a core of `p`, from core `k` on. */
  function HyperCore(pol: Policy, m: Machine, p: nat, k: nat): (r: Option<nat>)
    requires MachineOk(m) && OwnersOk(pol, m) && p in pol.sds && k <= NCPU
    ensures r.Some? ==> r.value in m.allowed && CanTake(pol, m, p, r.value)
    ensures r.Some? ==> exists c :: k <= c < NCPU && HasSibling(pol, m, p, c) && r.value == m.siblings[c]
    ensures r.None? ==> forall c :: k <= c < NCPU ==> !HasSibling(pol, m, p, c)
    decreases NCPU - k
  {
    if k == NCPU then None
    else if HasSibling(pol, m, p, k) then Some(m.siblings[k])
    else HyperCore(pol, m, p, k + 1)
  }

  /** Every kthread in `list` exists and ran, if at all, on an allowed core. */
  predicate CameFrom(m: Machine, threads: seq<Thread>, list: seq<nat>) {
    forall i :: 0 <= i < |list| ==>
      && list[i] < |threads|
      && (threads[list[i]].core.Some? ==> threads[list[i]].core.value in m.allowed)
  }

  /** A core on which an idle kthread ran before, or its sibling; a kthread that never ran ends the
      search. */
  function PastCore(pol: Policy, m: Machine, p: nat, threads: seq<Thread>, list: seq<nat>): (r: Option<nat>)
    requires MachineOk(m) && OwnersOk(pol, m) && p in pol.sds && CameFrom(m, threads, list)
    ensures r.Some? ==> r.value in m.allowed && CanTake(pol, m, p, r.value)
  {
    if list == [] then None
    else
      var last := threads[list[0]].core;
      if last.None? then None
      else if CanTake(pol, m, p, last.value) then Some(last.value)
      else
        var sib := m.siblings[last.value];
        if CanTake(pol, m, p, sib) && sib in m.allowed then Some(sib)
        else PastCore(pol, m, p, threads, list[1..])
  }

  /** The first unowned core, from core `k` on. */
  function IdleCore(pol: Policy, k: nat): (r: Option<nat>)
    requires k <= NCPU
    ensures r.Some? ==> r.value in pol.idle && k <= r.value < NCPU
    ensures forall c :: k <= c < NCPU && c in pol.idle ==> r.Some? && r.value <= c
    decreases NCPU - k
  {
    if k == NCPU then None else if k in pol.idle then Some(k) else IdleCore(pol, k + 1)
  }

  /** The first core, from core `k` on, whose owner may be preempted. */
  function PreemptCore(pol: Policy, m: Machine, p: nat, k: nat): (r: Option<nat>)
    requires MachineOk(m) && OwnersOk(pol, m) && p in pol.sds && k <= NCPU
    ensures r.Some? ==> k <= r.value < NCPU && r.value in m.allowed && CanTake(pol, m, p, r.value)
    ensures forall c :: k <= c < NCPU && c in m.allowed && pol.owner[c].Some? && CanTake(pol, m, p, c) ==> r.Some?
    decreases NCPU - k
  {
    if k == NCPU then None
    else if k in m.allowed && pol.owner[k].Some? && CanTake(pol, m, p, k) then Some(k)
    else PreemptCore(pol, m, p, k + 1)
  }

  lemma IdleCameFrom(s: State, m: Machine, p: nat)
    requires Scheduler.Inv(s, m) && p in s.procs
    ensures CameFrom(m, s.procs[p].threads, s.procs[p].idle)
  {
    IdleAreThreads(s, p);
    hide ProcOk, FlagsOk;
    var q := s.procs[p];
    forall i | 0 <= i < |q.idle|
      ensures q.idle[i] < |q.threads|
      ensures q.threads[q.idle[i]].core.Some? ==> q.threads[q.idle[i]].core.value in m.allowed
    {
      assert IsThread(s, Th(p, q.idle[i])) && Get(s, Th(p, q.idle[i])) == q.threads[q.idle[i]];
    }
  }

  /** simple_choose_core */
  ghost function ChooseCore(s: System, m: Machine, p: nat): (r: Option<nat>)
    requires Ordered(s, m) && p in s.pol.sds
    ensures r.Some? ==> r.value in m.allowed && CanTake(s.pol, m, p, r.value)
    ensures (exists c :: 0 <= c < NCPU && HasSibling(s.pol, m, p, c)) ==>
      exists c :: 0 <= c < NCPU && HasSibling(s.pol, m, p, c) && r == Some(m.siblings[c])
    ensures r.None? ==> s.pol.idle == {}
    ensures r.None? ==> forall c :: c in m.allowed && s.pol.owner[c].Some? ==> !CanTake(s.pol, m, p, c)
  {
    IdleCameFrom(s.sched, m, p);
    var q := s.sched.procs[p];
    var hyper, past := HyperCore(s.pol, m, p, 0), PastCore(s.pol, m, p, q.threads, q.idle);
    var unowned, preempt := IdleCore(s.pol, 0), PreemptCore(s.pol, m, p, 0);
    if hyper.Some? then hyper else if past.Some? then past else if unowned.Some? then unowned else preempt
  }

  // ---------------------------------------------------------------- giving a core

  /** sched_threads_avail */
  function ThreadsAvail(s: State, p: nat): int
    requires p in s.procs
  {
    |s.procs[p].threads| - |s.procs[p].active.items|
  }

  lemma AvailIsIdle(s: State, m: Machine, p: nat)
    requires Scheduler.Inv(s, m) && p in s.procs
    ensures ThreadsAvail(s, p) == |s.procs[p].idle|
  {
    hide CoresOk;
    assert ProcOk(s.procs[p]);
    Available(s.procs[p]);
  }

  /** simple_run_kthread_on_core; `None` is an error, with nothing changed. */
  ghost function RunKthread(s: System, m: Machine, p: nat, c: nat, drained: bool): Option<System>
    requires Ordered(s, m) && p in s.pol.sds
  {
    if ThreadsAvail(s.sched, p) == 0 then None
    else
      var r := RunOnCore(s.sched, m, p, c, drained);
      if r.None? then None
      else
        var pol := Cleanup(s.pol, m, c);
        Some(System(r.value, Assign(pol, p, c)))
  }

  lemma AgreesGiven(s: System, s': System, open: set<nat>, c: nat, p: nat)
    requires Agrees(s, open) && c < NCPU
    requires s'.pol.owner == s.pol.owner[c := Some(p)]
    requires |s'.sched.cores| == NCPU && s'.sched.cores == s.sched.cores[c := s'.sched.cores[c]]
    requires Latest(s'.sched.cores[c]).Some? && Latest(s'.sched.cores[c]).value.p == p
    ensures Agrees(s', open - {c})
  {
    hide Latest;
    forall k | 0 <= k < NCPU && k !in open - {c} ensures AgreesAt(s', k) {
      assert k != c ==> AgreesAt(s, k);
    }
  }

  /** The policy's half of giving core `c` to `p`. */
  lemma GivenCore(pol: Policy, m: Machine, p: nat, c: nat)
    requires PolOk(pol, m) && p in pol.sds && c in m.allowed && c < NCPU
    ensures var pol' := Cleanup(pol, m, c);
      && p in pol'.sds && |pol'.owner| == NCPU && PolOk(Assign(pol', p, c), m)
      && Assign(pol', p, c).sds.Keys == pol.sds.Keys && Assign(pol', p, c).owner == pol.owner[c := Some(p)]
  {
    CleanupOk(pol, m, c);
    AssignOk(Cleanup(pol, m, c), m, p, c);
    hide Cleanup, HistOk, WaitingOk, CountsOk;
  }

  /** A core is given exactly if the process has a kthread to spare and the core is allowed. */
  lemma RunKthreadIff(s: System, m: Machine, p: nat, c: nat, drained: bool)
    requires Ordered(s, m) && p in s.pol.sds
    ensures RunKthread(s, m, p, c, drained).Some? <==> ThreadsAvail(s.sched, p) != 0 && c in m.allowed
  {
    AvailIsIdle(s.sched, m, p);
    hide Scheduler.Inv, PolOk, RunOnCore, Cleanup;
  }

  lemma RunKthreadOk(s: System, m: Machine, p: nat, c: nat, drained: bool, open: set<nat>)
    requires SysOk(s, m, open) && p in s.pol.sds && RunKthread(s, m, p, c, drained).Some?
    ensures var s' := RunKthread(s, m, p, c, drained).value;
      && c < NCPU && SysOk(s', m, open - {c})
      && s'.pol.owner == s.pol.owner[c := Some(p)] && s'.pol.sds.Keys == s.pol.sds.Keys
  {
    var s' := RunKthread(s, m, p, c, drained).value;
    RunOnCoreOk(s.sched, m, p, c, drained);
    RunOnCoreEffect(s.sched, m, p, c, drained);
    GivenCore(s.pol, m, p, c);
    hide PolOk, Scheduler.Inv, Cleanup, RunOnCore, Agrees, Assign;
    AgreesGiven(s, s', open, c, p);
  }

  lemma RunKthreadKeeps(s: System, m: Machine, p: nat, c: nat, drained: bool, open: set<nat>)
    requires SysOk(s, m, open) && p in s.pol.sds && RunKthread(s, m, p, c, drained).Some?
    ensures var s' := RunKthread(s, m, p, c, drained).value;
      && c < |s.pol.owner| && SysOk(s', m, open)
      && s'.pol.owner == s.pol.owner[c := Some(p)] && s'.pol.sds.Keys == s.pol.sds.Keys
  {
    RunKthreadOk(s, m, p, c, drained, open);
    assert |s.pol.owner| == NCPU;
    hide Ordered, Agrees, RunKthread;
    AgreesMore(RunKthread(s, m, p, c, drained).value, open - {c}, open);
  }

  // ---------------------------------------------------------------- asking for a core

  datatype Added = Added(s: System, ok: bool)

  /** simple_add_kthread, which is also simple_notify_core_needed */
  ghost function AddKthread(s: System, m: Machine, p: nat, drained: bool): Added
    requires Ordered(s, m) && p in s.pol.sds
  {
    if s.pol.sds[p].active >= s.pol.sds[p].max then Added(s, false)
    else
      var c := ChooseCore(s, m, p);
      if c.None? then Added(s, false)
      else
        var r := RunKthread(s, m, p, c.value, drained);
        if r.None? then Added(s, false) else Added(r.value, true)
  }

  lemma AddKthreadOk(s: System, m: Machine, p: nat, drained: bool)
    requires SysOk(s, m, {}) && p in s.pol.sds
    ensures var s' := AddKthread(s, m, p, drained).s; SysOk(s', m, {}) && s'.pol.sds.Keys == s.pol.sds.Keys
  {
    hide OwnersOk, CountsOk, HistOk, WaitingOk, Scheduler.Inv, MachineOk, Agrees, ChooseCore, RunKthread, CanTake;
    if s.pol.sds[p].active < s.pol.sds[p].max {
      var c := ChooseCore(s, m, p);
      if c.Some? && RunKthread(s, m, p, c.value, drained).Some? {
        RunKthreadKeeps(s, m, p, c.value, drained, {});
      }
    }
  }

  /** simple_notify_congested, without the load average; `busy`: some queue of `p` is congested. */
  ghost function NotifyCongested(s: System, m: Machine, p: nat, busy: bool, drained: bool): System
    requires Ordered(s, m) && p in s.pol.sds
  {
    if s.pol.sds[p].waking then
      s.(pol := s.pol.(sds := s.pol.sds[p := s.pol.sds[p].(waking := false)]))
    else if !busy then s.(pol := Unmark(s.pol, p))
    else if s.pol.sds[p].congested then s
    else
      var r := AddKthread(s, m, p, drained);
      if r.ok then r.s else s.(pol := Mark(s.pol, p))
  }

  /** Changing the flags of a process keeps the policy in order. */
  lemma FlagOk(pol: Policy, m: Machine, p: nat)
    requires PolOk(pol, m) && p in pol.sds
    ensures PolOk(pol.(sds := pol.sds[p := pol.sds[p].(waking := false)]), m)
  {
    RowsFrame(pol, pol.(sds := pol.sds[p := pol.sds[p].(waking := false)]));
    hide Owned, RowOk;
  }

  lemma AgreesFrame(s: System, s': System, open: set<nat>)
    requires Agrees(s, open) && s'.pol.owner == s.pol.owner && s'.sched == s.sched
    ensures Agrees(s', open)
  {
    hide Latest;
    assert forall c :: 0 <= c < NCPU ==> (AgreesAt(s, c) <==> AgreesAt(s', c));
  }

  lemma NotifyCongestedOk(s: System, m: Machine, p: nat, busy: bool, drained: bool)
    requires SysOk(s, m, {}) && p in s.pol.sds
    ensures SysOk(NotifyCongested(s, m, p, busy, drained), m, {})
  {
    var s' := NotifyCongested(s, m, p, busy, drained);
    FlagOk(s.pol, m, p);
    UnmarkOk(s.pol, m, p);
    MarkOk(s.pol, m, p);
    AddKthreadOk(s, m, p, drained);
    hide Scheduler.Inv, PolOk, Agrees, AddKthread;
    if s'.sched == s.sched && s'.pol.owner == s.pol.owner {
      AgreesFrame(s, s', {});
    }
  }

  // ---------------------------------------------------------------- an idle core

  /** A process waiting for a core, with a kthread to spare. */
  predicate Ready(s: System, p: nat) {
    && p in s.pol.sds && s.pol.sds[p].congested
    && p in s.sched.procs && ThreadsAvail(s.sched, p) != 0
  }

  predicate IsReady(s: System, p: Option<nat>) {
    p.Some? && Ready(s, p.value)
  }

  /** The first ready process in the histories of a core and its sibling. */
  function PastOwner(s: System, here: seq<Option<nat>>, there: seq<Option<nat>>): (r: Option<nat>)
    requires |here| == |there|
    ensures r.Some? ==> IsReady(s, r)
    decreases |here|
  {
    if here == [] then None
    else if IsReady(s, here[0]) then here[0]
    else if IsReady(s, there[0]) then there[0]
    else PastOwner(s, here[1..], there[1..])
  }

  /** The first process in the waiting list that has a kthread to spare. */
  function FirstWaiting(s: System, list: seq<nat>): (r: Option<nat>)
    requires forall p :: p in list ==> p in s.sched.procs
    ensures r.Some? ==> r.value in list && ThreadsAvail(s.sched, r.value) != 0
    ensures r.None? ==> forall p :: p in list ==> ThreadsAvail(s.sched, p) == 0
  {
    if list == [] then None
    else if ThreadsAvail(s.sched, list[0]) != 0 then Some(list[0])
    else FirstWaiting(s, list[1..])
  }

  /** simple_choose_kthread */
  function ChooseKthread(s: System, m: Machine, c: nat): (r: Option<nat>)
    requires MachineOk(m) && PolOk(s.pol, m) && s.pol.sds.Keys <= s.sched.procs.Keys && c < NCPU
    ensures r.Some? ==> Ready(s, r.value)
    ensures r.None? ==> forall p :: !Ready(s, p)
  {
    var sib := s.pol.owner[m.siblings[c]];
    var past := PastOwner(s, s.pol.hist[c], s.pol.hist[m.siblings[c]]);
    if IsReady(s, sib) then sib
    else if past.Some? then past
    else FirstWaiting(s, s.pol.waiting)
  }

  /** What simple_sched_poll does with one idle core, before it looks for a new process. */
  function Vacate(pol: Policy, m: Machine, c: nat): Policy
    requires PolOk(pol, m) && c < NCPU
  {
    if pol.owner[c].None? then Cleanup(pol, m, c)
    else
      UnmarkOk(pol, m, pol.owner[c].value);
      Cleanup(Unmark(pol, pol.owner[c].value), m, c)
  }

  lemma AgreesVacated(s: System, s': System, open: set<nat>, c: nat)
    requires Agrees(s, open) && c < NCPU && s'.pol.owner == s.pol.owner[c := None] && s'.sched == s.sched
    ensures Agrees(s', open - {c})
  {
    hide Latest;
    forall k | 0 <= k < NCPU && k !in open - {c} ensures AgreesAt(s', k) {
      assert k != c ==> AgreesAt(s, k);
    }
  }

  lemma VacateOk(pol: Policy, m: Machine, c: nat)
    requires PolOk(pol, m) && c < NCPU
    ensures var pol' := Vacate(pol, m, c);
      PolOk(pol', m) && pol'.owner == pol.owner[c := None] && pol'.sds.Keys == pol.sds.Keys
  {
    assert |pol.owner| == NCPU && (pol.owner[c].Some? ==> pol.owner[c].value in pol.sds);
    hide Cleanup, Unmark, PolOk;
    if pol.owner[c].None? {
      CleanupOk(pol, m, c);
    } else {
      UnmarkOk(pol, m, pol.owner[c].value);
      CleanupOk(Unmark(pol, pol.owner[c].value), m, c);
    }
  }

  /** An unowned core is given to a waiting process, if there is one. */
  ghost function Fill(s: System, m: Machine, c: nat, drained: bool): System
    requires Ordered(s, m) && c in m.allowed
  {
    var p := ChooseKthread(s, m, c);
    if p.None? then s.(pol := s.pol.(idle := s.pol.idle + {c}))
    else
      var r := RunKthread(s, m, p.value, c, drained);
      if r.Some? then r.value
      else s.(pol := Mark(s.pol.(idle := s.pol.idle + {c}), p.value))
  }

  /** The body of the loop of simple_sched_poll. */
  ghost function AtIdle(s: System, m: Machine, c: nat, drained: bool): System
    requires Ordered(s, m) && c in m.allowed
  {
    VacateOk(s.pol, m, c);
    Fill(s.(pol := Vacate(s.pol, m, c)), m, c, drained)
  }

  lemma FreedOk(pol: Policy, m: Machine, c: nat)
    requires PolOk(pol, m) && c in m.allowed && c < NCPU && pol.owner[c].None?
    ensures PolOk(pol.(idle := pol.idle + {c}), m)
  {
    RowsFrame(pol, pol.(idle := pol.idle + {c}));
    hide Owned, RowOk;
  }

  lemma StaysUnowned(s: System, m: Machine, c: nat, open: set<nat>)
    requires SysOk(s, m, open) && c in m.allowed && c < NCPU && s.pol.owner[c].None?
    ensures SysOk(s.(pol := s.pol.(idle := s.pol.idle + {c})), m, open)
    ensures forall q :: Ready(s.(pol := s.pol.(idle := s.pol.idle + {c})), q) ==> Ready(s, q)
  {
    FreedOk(s.pol, m, c);
    hide PolOk, Scheduler.Inv, Agrees, ThreadsAvail;
    AgreesFrame(s, s.(pol := s.pol.(idle := s.pol.idle + {c})), open);
  }

  lemma FillOk(s: System, m: Machine, c: nat, drained: bool, open: set<nat>)
    requires SysOk(s, m, open) && c in m.allowed && c < NCPU && c !in open && s.pol.owner[c].None?
    ensures var s' := Fill(s, m, c, drained);
      && SysOk(s', m, open) && |s'.pol.owner| == |s.pol.owner| && s'.pol.owner == s.pol.owner[c := s'.pol.owner[c]]
      && (s'.pol.owner[c].None? ==> c in s'.pol.idle && forall p :: !Ready(s', p))
  {
    hide Scheduler.Inv, CountsOk, HistOk, WaitingOk, MachineOk, Agrees, ChooseKthread, RunKthread, ThreadsAvail;
    var p := ChooseKthread(s, m, c);
    if p.None? {
      StaysUnowned(s, m, c, open);
    } else {
      assert Ready(s, p.value);
      RunKthreadIff(s, m, p.value, c, drained);
      RunKthreadKeeps(s, m, p.value, c, drained, open);
    }
  }

  /** A process picked for an idle core always gets it, so the warning in simple_sched_poll is never
      reached; only this core changes hands; and if it stays unowned, no process was ready for it. */
  lemma AtIdleOk(s: System, m: Machine, c: nat, drained: bool, open: set<nat>)
    requires SysOk(s, m, open) && c in m.allowed
    ensures var s' := AtIdle(s, m, c, drained);
      && SysOk(s', m, open - {c})
      && |s'.pol.owner| == |s.pol.owner| && c < |s.pol.owner| && s'.pol.owner == s.pol.owner[c := s'.pol.owner[c]]
      && (s'.pol.owner[c].None? ==> c in s'.pol.idle && forall p :: !Ready(s', p))
  {
    hide CountsOk, HistOk, WaitingOk, Scheduler.Inv, Agrees, Vacate, Fill, Ready;
    VacateOk(s.pol, m, c);
    var s1 := s.(pol := Vacate(s.pol, m, c));
    AgreesVacated(s, s1, open, c);
    FillOk(s1, m, c, drained, open - {c});
  }

  // ---------------------------------------------------------------- polling

  /** The scheduler after the fast pass of sched_poll, and the cores it reports idle. */
  datatype Swept = Swept(s: State, idle: set<nat>)

  ghost function FastPass(s: State, m: Machine, reports: seq<Report>, k: nat): Swept
    requires Scheduler.Inv(s, m) && |reports| == NCPU && k <= NCPU
    decreases NCPU - k
  {
    if k == NCPU then Swept(s, {})
    else if k !in m.allowed then FastPass(s, m, reports, k + 1)
    else
      PollCoreOk(s, m, k, reports[k]);
      var r := PollCore(s, m, k, reports[k]);
      var rest := FastPass(r.s, m, reports, k + 1);
      if r.wentIdle then rest.(idle := rest.idle + {k}) else rest
  }

  predicate SameLatest(s: State, s': State, c: nat) {
    c < |s.cores| && c < |s'.cores| && Latest(s.cores[c]) == Latest(s'.cores[c])
  }

  /** A pass from core `k` on reports allowed cores only, and leaves what was last requested on all
      others. */
  predicate IsSweep(s: State, f: Swept, m: Machine, k: nat) {
    && (forall c :: c in f.idle ==> c in m.allowed && k <= c < NCPU)
    && (forall c :: 0 <= c < NCPU && c !in f.idle ==> SameLatest(s, f.s, c))
  }

  lemma SweepStep(s: State, s1: State, f: Swept, m: Machine, k: nat, wentIdle: bool)
    requires IsSweep(s1, f, m, k + 1) && k in m.allowed && k < NCPU && |s.cores| == |s1.cores| == NCPU
    requires s1.cores == s.cores[k := s1.cores[k]] && (wentIdle || SameLatest(s, s1, k))
    ensures IsSweep(s, if wentIdle then f.(idle := f.idle + {k}) else f, m, k)
  {
    hide Latest;
    forall c | 0 <= c < NCPU && (c != k || !wentIdle) && c !in f.idle ensures SameLatest(s, f.s, c) {
      assert SameLatest(s1, f.s, c);
    }
  }

  lemma {:induction false} FastPassOk(s: State, m: Machine, reports: seq<Report>, k: nat)
    requires Scheduler.Inv(s, m) && |reports| == NCPU && k <= NCPU
    ensures var f := FastPass(s, m, reports, k);
      Scheduler.Inv(f.s, m) && f.s.procs.Keys == s.procs.Keys && IsSweep(s, f, m, k)
    decreases NCPU - k
  {
    hide Scheduler.Inv, PollCore, Latest;
    CoresLength(s, m);
    if k == NCPU {
      assert IsSweep(s, Swept(s, {}), m, k);
    } else if k !in m.allowed {
      FastPassOk(s, m, reports, k + 1);
    } else {
      hide IsSweep;
      PollCoreOk(s, m, k, reports[k]);
      PollCoreEffect(s, m, k, reports[k]);
      var r := PollCore(s, m, k, reports[k]);
      FastPassOk(r.s, m, reports, k + 1);
      SweepStep(s, r.s, FastPass(r.s, m, reports, k + 1), m, k, r.wentIdle);
    }
  }

  /** The cores just reported idle are the only ones on which the layers may disagree. */
  lemma SweptOk(s: System, m: Machine, reports: seq<Report>)
    requires SysOk(s, m, {}) && |reports| == NCPU
    ensures var f := FastPass(s.sched, m, reports, 0);
      && SysOk(System(f.s, s.pol), m, f.idle) && f.idle <= m.allowed
  {
    hide Scheduler.Inv, CountsOk, HistOk, WaitingOk, FastPass, Latest, MachineOk;
    FastPassOk(s.sched, m, reports, 0);
    var s' := System(FastPass(s.sched, m, reports, 0).s, s.pol);
    assert |s'.sched.cores| == NCPU by { CoresLength(s'.sched, m); }
    forall c | 0 <= c < NCPU && c !in FastPass(s.sched, m, reports, 0).idle ensures AgreesAt(s', c) {
      assert AgreesAt(s, c) && SameLatest(s.sched, s'.sched, c);
    }
  }

  lemma CoresLength(s: State, m: Machine)
    requires Scheduler.Inv(s, m)
    ensures |s.cores| == NCPU
  {
  }

  /** simple_sched_poll, from core `k` on; `idle` are the cores still to be looked at. */
  ghost function PolicyPoll(s: System, m: Machine, idle: set<nat>, drained: seq<bool>, k: nat): System
    requires SysOk(s, m, idle) && idle <= m.allowed && |drained| == NCPU && k <= NCPU
    decreases NCPU - k
  {
    if k == NCPU then s
    else if k !in idle then PolicyPoll(s, m, idle, drained, k + 1)
    else
      AtIdleOk(s, m, k, drained[k], idle);
      PolicyPoll(AtIdle(s, m, k, drained[k]), m, idle - {k}, drained, k + 1)
  }

  lemma {:induction false} PolicyPollOk(s: System, m: Machine, idle: set<nat>, drained: seq<bool>, k: nat)
    requires SysOk(s, m, idle) && idle <= m.allowed && |drained| == NCPU && k <= NCPU
    requires forall c :: c in idle ==> c >= k
    ensures SysOk(PolicyPoll(s, m, idle, drained, k), m, {})
    ensures |PolicyPoll(s, m, idle, drained, k).pol.owner| == |s.pol.owner|
    ensures forall c :: 0 <= c < |s.pol.owner| && c !in idle ==>
      PolicyPoll(s, m, idle, drained, k).pol.owner[c] == s.pol.owner[c]
    decreases NCPU - k
  {
    hide Scheduler.Inv, CountsOk, HistOk, WaitingOk, Agrees, AtIdle;
    if k == NCPU {
      assert idle == {};
    } else if k !in idle {
      PolicyPollOk(s, m, idle, drained, k + 1);
    } else {
      AtIdleOk(s, m, k, drained[k], idle);
      PolicyPollOk(AtIdle(s, m, k, drained[k]), m, idle - {k}, drained, k + 1);
    }
  }

  /** sched_poll: the fast pass, then the policy. */
  ghost function PollAll(s: System, m: Machine, reports: seq<Report>, drained: seq<bool>): System
    requires SysOk(s, m, {}) && |reports| == |drained| == NCPU
  {
    SweptOk(s, m, reports);
    var f := FastPass(s.sched, m, reports, 0);
    PolicyPoll(System(f.s, s.pol), m, f.idle, drained, 0)
  }

  /** A poll leaves the layers in agreement, and takes from no process a core not reported idle. */
  lemma PollAllOk(s: System, m: Machine, reports: seq<Report>, drained: seq<bool>)
    requires SysOk(s, m, {}) && |reports| == |drained| == NCPU
    ensures var s' := PollAll(s, m, reports, drained);
      && SysOk(s', m, {}) && |s'.pol.owner| == |s.pol.owner| == NCPU
      && (forall c :: 0 <= c < NCPU && c !in FastPass(s.sched, m, reports, 0).idle ==>
            s'.pol.owner[c] == s.pol.owner[c])
  {
    hide Scheduler.Inv, CountsOk, HistOk, WaitingOk, Agrees, FastPass, PolicyPoll;
    SweptOk(s, m, reports);
    var f := FastPass(s.sched, m, reports, 0);
    PolicyPollOk(System(f.s, s.pol), m, f.idle, drained, 0);
  }

  // ---------------------------------------------------------------- runs

  datatype Event =
    | Attach(p: nat, threads: nat, guaranteed: int, max: int, priority: int)
    | Detach(p: nat)
    | NeedCore(p: nat, drained: bool)
    | Congestion(p: nat, busy: bool, drained: bool)
    | Poll(reports: seq<Report>, drops: seq<bool>)
    | StopPolling(th: Th)

  predicate IsEvent(s: System, e: Event) {
    match e
    case Attach(p, _, _, _, _) => p !in s.sched.procs
    case Detach(p) => p in s.pol.sds
    case NeedCore(p, _) => p in s.pol.sds
    case Congestion(p, _, _) => p in s.pol.sds
    case Poll(reports, drops) => |reports| == |drops| == NCPU
    case StopPolling(_) => true
  }

  ghost function Do(s: System, m: Machine, e: Event): System
    requires SysOk(s, m, {}) && IsEvent(s, e)
  {
    match e
    case Attach(p, threads, guaranteed, max, priority) =>
      System(AttachProc(s.sched, p, threads), AttachPol(s.pol, p, guaranteed, max, priority))
    case Detach(p) => s.(pol := DetachPol(s.pol, p))
    case NeedCore(p, drained) => AddKthread(s, m, p, drained).s
    case Congestion(p, busy, drained) => NotifyCongested(s, m, p, busy, drained)
    case Poll(reports, drops) => PollAll(s, m, reports, drops)
    case StopPolling(th) => s.(sched := Unpoll(s.sched, th))
  }

  /** Fewer owners, and a scheduler that was asked for nothing new: agreement stays. */
  lemma AgreesLess(s: System, s': System)
    requires Agrees(s, {}) && s'.sched.cores == s.sched.cores && |s'.pol.owner| == |s.pol.owner|
    requires forall c :: 0 <= c < |s.pol.owner| ==> s'.pol.owner[c].None? || s'.pol.owner[c] == s.pol.owner[c]
    ensures Agrees(s', {})
  {
    hide Latest;
    forall c | 0 <= c < NCPU ensures AgreesAt(s', c) {
      assert AgreesAt(s, c);
    }
  }

  lemma AttachOk(s: System, m: Machine, p: nat, threads: nat, guaranteed: int, max: int, priority: int)
    requires SysOk(s, m, {}) && p !in s.sched.procs
    ensures SysOk(System(AttachProc(s.sched, p, threads), AttachPol(s.pol, p, guaranteed, max, priority)), m, {})
  {
    hide Scheduler.Inv, MachineOk, CountsOk, HistOk, WaitingOk, OwnersOk, Agrees, FreshProc;
    AttachProcOk(s.sched, m, p, threads);
    AttachPolOk(s.pol, m, p, guaranteed, max, priority);
    AgreesLess(s, System(AttachProc(s.sched, p, threads), AttachPol(s.pol, p, guaranteed, max, priority)));
  }

  lemma DetachOk(s: System, m: Machine, p: nat)
    requires SysOk(s, m, {}) && p in s.pol.sds
    ensures SysOk(s.(pol := DetachPol(s.pol, p)), m, {})
  {
    hide Scheduler.Inv, MachineOk, CountsOk, HistOk, WaitingOk, OwnersOk, Agrees, DetachPol, Erase;
    DetachPolOk(s.pol, m, p);
    AgreesLess(s, s.(pol := DetachPol(s.pol, p)));
  }

  lemma StopPollingOk(s: System, m: Machine, th: Th)
    requires SysOk(s, m, {})
    ensures SysOk(s.(sched := Unpoll(s.sched, th)), m, {})
  {
    hide MachineOk, ProcsOk, CoresOk, CountsOk, HistOk, WaitingOk, OwnersOk, Agrees;
    UnpollOk(s.sched, m, th);
    AgreesLess(s, s.(sched := Unpoll(s.sched, th)));
  }

  lemma DoKeepsOk(s: System, m: Machine, e: Event)
    requires SysOk(s, m, {}) && IsEvent(s, e)
    ensures SysOk(Do(s, m, e), m, {})
  {
    hide SysOk, AddKthread, NotifyCongested, PollAll, DetachPol, Unpoll, AttachProc, AttachPol;
    match e
    case Attach(p, threads, guaranteed, max, priority) => AttachOk(s, m, p, threads, guaranteed, max, priority);
    case Detach(p) => DetachOk(s, m, p);
    case NeedCore(p, drained) => AddKthreadOk(s, m, p, drained);
    case Congestion(p, busy, drained) => NotifyCongestedOk(s, m, p, busy, drained);
    case Poll(reports, drops) => PollAllOk(s, m, reports, drops);
    case StopPolling(th) => StopPollingOk(s, m, th);
  }

  /** simple_init: every allowed core is unowned. */
  function Boot(m: Machine): System {
    System(Scheduler.Boot(), Policy(map[], seq(NCPU, _ => None), seq(NCPU, _ => seq(NHIST, _ => None)), m.allowed, []))
  }

  lemma BootOk(m: Machine)
    requires MachineOk(m)
    ensures SysOk(Boot(m), m, {})
  {
    var s := Boot(m);
    assert Scheduler.Inv(s.sched, m);
    assert forall c :: 0 <= c < NCPU ==> RowOk(s.pol, s.pol.hist[c]);
    hide Scheduler.Inv;
  }

  ghost predicate IsStep(s: System, e: Event, s': System, m: Machine) {
    SysOk(s, m, {}) ==> IsEvent(s, e) && s' == Do(s, m, e)
  }

  /** A run from boot; outside the invariant, where the operations are not defined, anything may
      follow. */
  ghost predicate IsRun(run: seq<System>, events: seq<Event>, m: Machine) {
    && MachineOk(m) && |run| == |events| + 1 && run[0] == Boot(m)
    && forall i :: 0 <= i < |events| ==> IsStep(run[i], events[i], run[i + 1], m)
  }

  lemma {:induction false} RunKeepsOk(run: seq<System>, events: seq<Event>, m: Machine, i: nat)
    requires IsRun(run, events, m) && i < |run|
    ensures SysOk(run[i], m, {})
  {
    hide SysOk, Do, Boot;
    if i == 0 {
      BootOk(m);
    } else {
      RunKeepsOk(run, events, m, i - 1);
      assert IsStep(run[i - 1], events[i - 1], run[i - 1 + 1], m);
      DoKeepsOk(run[i - 1], m, events[i - 1]);
    }
  }

  // ---------------------------------------------------------------- main results

  /** An active kthread of `p` that is placed on core `c`. */
  predicate IsSeat(s: System, p: nat, c: nat, i: nat) {
    IsThread(s.sched, Th(p, i)) && Get(s.sched, Th(p, i)) == Thread(true, Some(c))
  }

  lemma SeatAt(s: System, m: Machine, p: nat, c: nat)
    requires SysOk(s, m, {}) && c < NCPU && s.pol.owner[c] == Some(p)
    ensures Latest(s.sched.cores[c]).Some? && IsSeat(s, p, c, Latest(s.sched.cores[c]).value.idx)
  {
    hide ProcsOk, CountsOk, HistOk, WaitingOk, FlagsOk;
    assert AgreesAt(s, c);
    var th := Latest(s.sched.cores[c]).value;
    assert th in Occupants(s.sched.cores[c]);
    assert th == Th(p, th.idx);
  }

  /** The seats on the cores below `k` that `p` owns. */
  function SeatSet(owner: seq<Option<nat>>, seat: seq<nat>, p: nat, k: nat): (r: set<nat>)
    requires k <= |owner| == |seat|
  {
    if k == 0 then {}
    else if owner[k - 1] == Some(p) then SeatSet(owner, seat, p, k - 1) + {seat[k - 1]}
    else SeatSet(owner, seat, p, k - 1)
  }

  lemma {:induction false} SeatFrom(owner: seq<Option<nat>>, seat: seq<nat>, p: nat, k: nat, x: nat) returns (c: nat)
    requires k <= |owner| == |seat| && x in SeatSet(owner, seat, p, k)
    ensures c < k && owner[c] == Some(p) && seat[c] == x
  {
    if owner[k - 1] == Some(p) && seat[k - 1] == x {
      c := k - 1;
    } else {
      c := SeatFrom(owner, seat, p, k - 1, x);
    }
  }

  lemma {:induction false} SeatsCounted(owner: seq<Option<nat>>, seat: seq<nat>, p: nat, k: nat)
    requires k <= |owner| == |seat|
    requires forall c, d :: 0 <= c < d < |owner| && owner[c] == owner[d] == Some(p) ==> seat[c] != seat[d]
    ensures |SeatSet(owner, seat, p, k)| == Owned(owner[..k], p)
  {
    if k > 0 {
      SeatsCounted(owner, seat, p, k - 1);
      assert owner[..k][..k - 1] == owner[..k - 1];
      if owner[k - 1] == Some(p) && seat[k - 1] in SeatSet(owner, seat, p, k - 1) {
        var c := SeatFrom(owner, seat, p, k - 1, seat[k - 1]);
        assert false;
      }
    }
  }

  /** The kthread of `p` last requested on each core that `p` owns. */
  function SeatsOf(s: System, p: nat): (r: seq<nat>) {
    seq(|s.pol.owner|, c requires 0 <= c => if c < |s.sched.cores| && Latest(s.sched.cores[c]).Some?
                                            then Latest(s.sched.cores[c]).value.idx else 0)
  }

  /** The policy's count of cores is the number of cores it gave the process, and no more than the
      number of active kthreads, which is no more than the number of kthreads. */
  lemma CountsOrdered(s: System, m: Machine, p: nat)
    requires SysOk(s, m, {}) && p in s.pol.sds
    ensures p in s.sched.procs
    ensures s.pol.sds[p].active == Owned(s.pol.owner, p)
    ensures Owned(s.pol.owner, p) <= |s.sched.procs[p].active.items| <= |s.sched.procs[p].threads|
  {
    hide ProcsOk, CoresOk, HistOk, WaitingOk, FlowsOk, Owned, Latest;
    var q, seat := s.sched.procs[p], SeatsOf(s, p);
    forall c | 0 <= c < NCPU && s.pol.owner[c] == Some(p) ensures IsSeat(s, p, c, seat[c]) {
      SeatAt(s, m, p, c);
    }
    SeatsCounted(s.pol.owner, seat, p, NCPU);
    assert s.pol.owner[..NCPU] == s.pol.owner;
    var seats := SeatSet(s.pol.owner, seat, p, NCPU);
    forall i | i in seats ensures i < |q.threads| && q.threads[i].active {
      var c := SeatFrom(s.pol.owner, seat, p, NCPU, i);
      assert IsSeat(s, p, c, i);
    }
    ActiveSet(s.sched, p, seats);
  }

  lemma ActiveSet(s: State, p: nat, seats: set<nat>)
    requires ProcsOk(s) && p in s.procs
    requires forall i :: i in seats ==> i < |s.procs[p].threads| && s.procs[p].threads[i].active
    ensures |seats| <= |s.procs[p].active.items| <= |s.procs[p].threads|
  {
    var q := s.procs[p];
    assert ProcOk(q);
    Available(q);
    SwapArray.NoDuplicates(q.active);
    hide FlowsOk;
    SubsetSize(seats, Elements(q.active.items));
  }

  /** In every run, the thread last requested on a core that a process owns is one of its own. */
  lemma LayersAgree(run: seq<System>, events: seq<Event>, m: Machine, i: nat, c: nat, p: nat)
    requires IsRun(run, events, m) && i < |run| && c < NCPU
    ensures |run[i].pol.owner| == |run[i].sched.cores| == NCPU
    ensures run[i].pol.owner[c] == Some(p) ==>
      && Latest(run[i].sched.cores[c]).Some? && Latest(run[i].sched.cores[c]).value.p == p
      && c in m.allowed && p in run[i].pol.sds
  {
    hide IsRun, ProcsOk, CoresOk, CountsOk, HistOk, WaitingOk, Latest;
    RunKeepsOk(run, events, m, i);
    assert AgreesAt(run[i], c);
  }

  /** In every run, threads_active is the number of cores the process owns, and
      threads_active <= active_thread_count <= thread_count. */
  lemma CountsInRuns(run: seq<System>, events: seq<Event>, m: Machine, i: nat, p: nat)
    requires IsRun(run, events, m) && i < |run| && p in run[i].pol.sds
    ensures p in run[i].sched.procs && run[i].pol.sds[p].active == Owned(run[i].pol.owner, p)
    ensures Owned(run[i].pol.owner, p) <= |run[i].sched.procs[p].active.items| <= |run[i].sched.procs[p].threads|
  {
    hide *;
    RunKeepsOk(run, events, m, i);
    CountsOrdered(run[i], m, p);
  }

  /** A request for a core that succeeds is given a core that is allowed and was not the process's
      own, and every other core keeps its owner. */
  lemma ChosenCore(s: System, m: Machine, p: nat, drained: bool) returns (c: nat)
    requires SysOk(s, m, {}) && p in s.pol.sds && AddKthread(s, m, p, drained).ok
    ensures c in m.allowed && c < NCPU && OwnersOk(s.pol, m) && CanTake(s.pol, m, p, c)
    ensures AddKthread(s, m, p, drained).s.pol.owner == s.pol.owner[c := Some(p)]
    ensures s.pol.sds[p].active < s.pol.sds[p].max
  {
    hide CountsOk, HistOk, WaitingOk, Scheduler.Inv, Agrees, ChooseCore, RunKthread, CanTake;
    c := ChooseCore(s, m, p).value;
    RunKthreadKeeps(s, m, p, c, drained, {});
  }

  /** Taking a core from a process leaves it with no fewer than its guarantee. */
  lemma TakenIsSpare(pol: Policy, pol': Policy, m: Machine, p: nat, c: nat, q: nat)
    requires OwnersOk(pol, m) && CountsOk(pol) && CountsOk(pol') && p in pol.sds && q in pol.sds && q in pol'.sds
    requires c < NCPU && CanTake(pol, m, p, c) && pol'.owner == pol.owner[c := Some(p)]
    ensures pol'.sds[q].active >= pol.sds[q].active || pol'.sds[q].active >= pol.sds[q].guaranteed
    ensures pol'.sds[q].active - pol.sds[q].active == One(q == p) - One(pol.owner[c] == Some(q))
  {
    OwnedUpdate(pol.owner, c, Some(p), q);
    hide Owned;
  }

  lemma AddKeepsGuarantee(s: System, m: Machine, p: nat, drained: bool, q: nat)
    requires SysOk(s, m, {}) && p in s.pol.sds && q in s.pol.sds
    ensures var pol' := AddKthread(s, m, p, drained).s.pol;
      && q in pol'.sds
      && (pol'.sds[q].active >= s.pol.sds[q].active || pol'.sds[q].active >= s.pol.sds[q].guaranteed)
  {
    hide HistOk, WaitingOk, Scheduler.Inv, Agrees, AddKthread, CanTake, Owned;
    AddKthreadOk(s, m, p, drained);
    if AddKthread(s, m, p, drained).ok {
      var c := ChosenCore(s, m, p, drained);
      TakenIsSpare(s.pol, AddKthread(s, m, p, drained).s.pol, m, p, c, q);
    } else {
      AddFails(s, m, p, drained);
    }
  }

  lemma AddFails(s: System, m: Machine, p: nat, drained: bool)
    requires Ordered(s, m) && p in s.pol.sds && !AddKthread(s, m, p, drained).ok
    ensures AddKthread(s, m, p, drained).s == s
  {
    hide CountsOk, HistOk, WaitingOk, Scheduler.Inv, RunKthread, ChooseCore, CanTake, OwnersOk, MachineOk;
  }

  lemma NotifyKeepsGuarantee(s: System, m: Machine, p: nat, busy: bool, drained: bool, q: nat)
    requires SysOk(s, m, {}) && p in s.pol.sds && q in s.pol.sds
    ensures var pol' := NotifyCongested(s, m, p, busy, drained).pol;
      && q in pol'.sds
      && (pol'.sds[q].active >= s.pol.sds[q].active || pol'.sds[q].active >= s.pol.sds[q].guaranteed)
  {
    hide PolOk, Scheduler.Inv, Agrees, AddKthread, MachineOk;
    AddKeepsGuarantee(s, m, p, drained, q);
  }

  /** In every run, a process loses a core only if the core was reported idle, or if the process is
      left with no fewer cores than its guarantee. */
  lemma GuaranteeKept(run: seq<System>, events: seq<Event>, m: Machine, i: nat, q: nat)
    requires IsRun(run, events, m) && i < |events| && q in run[i].pol.sds && q in run[i + 1].pol.sds
    ensures SysOk(run[i], m, {}) && IsEvent(run[i], events[i])
    ensures |run[i].pol.owner| == |run[i + 1].pol.owner| == NCPU
    ensures events[i].Poll? ==> forall c :: 0 <= c < NCPU && run[i].pol.owner[c] != run[i + 1].pol.owner[c] ==>
      c in FastPass(run[i].sched, m, events[i].reports, 0).idle
    ensures !events[i].Poll? && run[i + 1].pol.sds[q].active < run[i].pol.sds[q].active ==>
      run[i + 1].pol.sds[q].active >= run[i].pol.sds[q].guaranteed
  {
    hide Scheduler.Inv, HistOk, WaitingOk, CountsOk, Agrees, AddKthread, NotifyCongested, PollAll, FastPass;
    hide Boot, Erase, FreshProc;
    RunKeepsOk(run, events, m, i);
    RunKeepsOk(run, events, m, i + 1);
    assert IsStep(run[i], events[i], run[i + 1], m);
    var s := run[i];
    match events[i]
    case NeedCore(p, drained) => AddKeepsGuarantee(s, m, p, drained, q);
    case Congestion(p, busy, drained) => NotifyKeepsGuarantee(s, m, p, busy, drained, q);
    case Poll(reports, drops) => PollAllOk(s, m, reports, drops);
    case Attach(_, _, _, _, _) =>
    case Detach(p) =>
    case StopPolling(_) =>
  }
}
