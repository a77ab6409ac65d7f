/**
 threads_max under the simple policy: which steps can take a process beyond it, and a run in which one
 does.
 */
module PolicyLimits {
  import opened Prelude
  import opened Scheduler
  import opened SimplePolicy

  /** The limit of process `q` is the same, and it is not waiting for a core unless it was. */
  predicate SameLimit(pol: Policy, pol': Policy, q: nat) {
    && q in pol.sds && q in pol'.sds && pol'.sds[q].max == pol.sds[q].max
    && (pol'.sds[q].congested ==> pol.sds[q].congested)
  }

  // ---------------------------------------------------------------- one core

  lemma RunKthreadLimit(s: System, m: Machine, p: nat, c: nat, drained: bool, q: nat)
    requires Ordered(s, m) && p in s.pol.sds && q in s.pol.sds && RunKthread(s, m, p, c, drained).Some? && c < NCPU
    ensures SameLimit(s.pol, RunKthread(s, m, p, c, drained).value.pol, q)
  {
    hide Scheduler.Inv, RunOnCore, MachineOk, HistOk, WaitingOk, CountsOk, ThreadsAvail;
  }

  lemma VacateCounts(pol: Policy, m: Machine, c: nat, q: nat)
    requires PolOk(pol, m) && c < NCPU && q in pol.sds
    ensures SameLimit(pol, Vacate(pol, m, c), q)
    ensures Vacate(pol, m, c).sds[q].active == pol.sds[q].active - One(pol.owner[c] == Some(q))
  {
    if pol.owner[c].Some? {
      UnmarkOk(pol, m, pol.owner[c].value);
    }
    hide HistOk, WaitingOk, CountsOk;
  }

  lemma FillCounts(s: System, m: Machine, c: nat, drained: bool, open: set<nat>, q: nat)
    requires SysOk(s, m, open) && c in m.allowed && c < NCPU && c !in open && s.pol.owner[c].None? && q in s.pol.sds
    ensures var pol' := Fill(s, m, c, drained).pol;
      && SameLimit(s.pol, pol', q)
      && pol'.sds[q].active == s.pol.sds[q].active + One(ChooseKthread(s, m, c) == Some(q))
  {
    hide Scheduler.Inv, HistOk, WaitingOk, MachineOk, Agrees, ChooseKthread, RunKthread, ThreadsAvail, Owned;
    var p := ChooseKthread(s, m, c);
    if p.Some? {
      assert Ready(s, p.value);
      RunKthreadIff(s, m, p.value, c, drained);
      RunKthreadKeeps(s, m, p.value, c, drained, open);
      RunKthreadLimit(s, m, p.value, c, drained, q);
      OwnedUpdate(s.pol.owner, c, p, q);
    }
  }

  /** Who is given core `c` when it is reported idle. */
  ghost function Chosen(s: System, m: Machine, c: nat): Option<nat>
    requires Ordered(s, m) && c < NCPU
  {
    VacateOk(s.pol, m, c);
    ChooseKthread(s.(pol := Vacate(s.pol, m, c)), m, c)
  }

  /** An idle core is taken from its owner and goes to the process chosen, whatever its threads_max. */
  lemma AtIdleCounts(s: System, m: Machine, c: nat, drained: bool, open: set<nat>, q: nat)
    requires SysOk(s, m, open) && c in m.allowed && c < NCPU && q in s.pol.sds
    ensures var pol' := AtIdle(s, m, c, drained).pol;
      && SameLimit(s.pol, pol', q)
      && pol'.sds[q].active == s.pol.sds[q].active - One(s.pol.owner[c] == Some(q)) + One(Chosen(s, m, c) == Some(q))
  {
    hide CountsOk, HistOk, WaitingOk, Scheduler.Inv, Agrees, Vacate, Fill, Ready;
    VacateOk(s.pol, m, c);
    VacateCounts(s.pol, m, c, q);
    var s1 := s.(pol := Vacate(s.pol, m, c));
    AgreesVacated(s, s1, open, c);
    FillCounts(s1, m, c, drained, open - {c}, q);
  }

  lemma ChosenWaits(s: System, m: Machine, c: nat, q: nat)
    requires Ordered(s, m) && c < NCPU && Chosen(s, m, c) == Some(q)
    ensures q in s.pol.sds && s.pol.sds[q].congested
  {
    hide CountsOk, HistOk, WaitingOk, Scheduler.Inv, Vacate, ThreadsAvail;
    VacateOk(s.pol, m, c);
    assert q in s.pol.sds;
    VacateCounts(s.pol, m, c, q);
  }

  // ---------------------------------------------------------------- a poll

  /** At some core reported idle, from core `k` on, process `q` is chosen although it has reached its
      threads_max. */
  ghost predicate Overfills(s: System, m: Machine, idle: set<nat>, drained: seq<bool>, k: nat, q: nat)
    requires SysOk(s, m, idle) && idle <= m.allowed && |drained| == NCPU && k <= NCPU && q in s.pol.sds
    decreases NCPU - k
  {
    if k == NCPU then false
    else if k !in idle then Overfills(s, m, idle, drained, k + 1, q)
    else
      AtIdleOk(s, m, k, drained[k], idle);
      AtIdleCounts(s, m, k, drained[k], idle, q);
      || (Chosen(s, m, k) == Some(q) && s.pol.sds[q].active - One(s.pol.owner[k] == Some(q)) >= s.pol.sds[q].max)
      || Overfills(AtIdle(s, m, k, drained[k]), m, idle - {k}, drained, k + 1, q)
  }

  /** None of the cores in `idle` belongs to process `q`. */
  predicate OwnsNone(pol: Policy, idle: set<nat>, q: nat) {
    forall c :: c in idle && 0 <= c < |pol.owner| ==> pol.owner[c] != Some(q)
  }

  lemma {:induction false} NeverLoses(s: System, m: Machine, idle: set<nat>, drained: seq<bool>, k: nat, q: nat)
    requires SysOk(s, m, idle) && idle <= m.allowed && |drained| == NCPU && k <= NCPU && q in s.pol.sds
    requires OwnsNone(s.pol, idle, q)
    ensures var pol' := PolicyPoll(s, m, idle, drained, k).pol;
      q in pol'.sds && pol'.sds[q].active >= s.pol.sds[q].active
    decreases NCPU - k
  {
    hide Scheduler.Inv, CountsOk, HistOk, WaitingOk, Agrees, AtIdle, Chosen;
    if k == NCPU {
    } else if k !in idle {
      NeverLoses(s, m, idle, drained, k + 1, q);
    } else {
      AtIdleOk(s, m, k, drained[k], idle);
      AtIdleCounts(s, m, k, drained[k], idle, q);
      NeverLoses(AtIdle(s, m, k, drained[k]), m, idle - {k}, drained, k + 1, q);
    }
  }

  /** A poll takes a process beyond its limit only by overfilling it, and does so exactly then if none of
      the process's own cores is reported idle; only a process that was waiting is overfilled. */
  lemma {:induction false} PollLimit(s: System, m: Machine, idle: set<nat>, drained: seq<bool>, k: nat, q: nat)
    requires SysOk(s, m, idle) && idle <= m.allowed && |drained| == NCPU && k <= NCPU && q in s.pol.sds
    requires s.pol.sds[q].active <= s.pol.sds[q].max
    ensures var pol' := PolicyPoll(s, m, idle, drained, k).pol;
      && SameLimit(s.pol, pol', q)
      && (pol'.sds[q].active > s.pol.sds[q].max ==> Overfills(s, m, idle, drained, k, q))
      && (OwnsNone(s.pol, idle, q) && Overfills(s, m, idle, drained, k, q) ==> pol'.sds[q].active > s.pol.sds[q].max)
      && (Overfills(s, m, idle, drained, k, q) ==> s.pol.sds[q].congested)
    decreases NCPU - k
  {
    hide Scheduler.Inv, CountsOk, HistOk, WaitingOk, Agrees, AtIdle, Chosen;
    if k == NCPU {
    } else if k !in idle {
      PollLimit(s, m, idle, drained, k + 1, q);
    } else {
      AtIdleOk(s, m, k, drained[k], idle);
      AtIdleCounts(s, m, k, drained[k], idle, q);
      var s1 := AtIdle(s, m, k, drained[k]);
      if Chosen(s, m, k) == Some(q) {
        ChosenWaits(s, m, k, q);
      }
      if s1.pol.sds[q].active <= s.pol.sds[q].max {
        PollLimit(s1, m, idle - {k}, drained, k + 1, q);
      } else {
        PollSame(s1, m, idle - {k}, drained, k + 1, q);
        if OwnsNone(s.pol, idle, q) {
          NeverLoses(s1, m, idle - {k}, drained, k + 1, q);
        }
      }
    }
  }

  lemma {:induction false} PollSame(s: System, m: Machine, idle: set<nat>, drained: seq<bool>, k: nat, q: nat)
    requires SysOk(s, m, idle) && idle <= m.allowed && |drained| == NCPU && k <= NCPU && q in s.pol.sds
    ensures SameLimit(s.pol, PolicyPoll(s, m, idle, drained, k).pol, q)
    decreases NCPU - k
  {
    hide Scheduler.Inv, CountsOk, HistOk, WaitingOk, Agrees, AtIdle, Chosen;
    if k == NCPU {
    } else if k !in idle {
      PollSame(s, m, idle, drained, k + 1, q);
    } else {
      AtIdleOk(s, m, k, drained[k], idle);
      AtIdleCounts(s, m, k, drained[k], idle, q);
      PollSame(AtIdle(s, m, k, drained[k]), m, idle - {k}, drained, k + 1, q);
    }
  }

  /** At how many cores reported idle, from core `k` on, process `q` is chosen. */
  ghost function Given(s: System, m: Machine, idle: set<nat>, drained: seq<bool>, k: nat, q: nat): nat
    requires SysOk(s, m, idle) && idle <= m.allowed && |drained| == NCPU && k <= NCPU
    decreases NCPU - k
  {
    if k == NCPU then 0
    else if k !in idle then Given(s, m, idle, drained, k + 1, q)
    else
      AtIdleOk(s, m, k, drained[k], idle);
      One(Chosen(s, m, k) == Some(q)) + Given(AtIdle(s, m, k, drained[k]), m, idle - {k}, drained, k + 1, q)
  }

  /** How many of the cores reported idle, from core `k` on, belong to process `q`. */
  function Lost(pol: Policy, idle: set<nat>, k: nat, q: nat): nat
    requires |pol.owner| == NCPU && k <= NCPU
    decreases NCPU - k
  {
    if k == NCPU then 0 else One(k in idle && pol.owner[k] == Some(q)) + Lost(pol, idle, k + 1, q)
  }

  lemma {:induction false} SameLost(pol: Policy, idle: set<nat>, pol': Policy, idle': set<nat>, k: nat, q: nat)
    requires |pol.owner| == |pol'.owner| == NCPU && k <= NCPU
    requires forall c :: k <= c < NCPU ==> (c in idle <==> c in idle') && pol.owner[c] == pol'.owner[c]
    ensures Lost(pol, idle, k, q) == Lost(pol', idle', k, q)
    decreases NCPU - k
  {
    if k < NCPU {
      SameLost(pol, idle, pol', idle', k + 1, q);
    }
  }

  /** A poll changes threads_active by the cores it gives the process, less those of its own that were
      reported idle. */
  lemma {:induction false} PollCounts(s: System, m: Machine, idle: set<nat>, drained: seq<bool>, k: nat, q: nat)
    requires SysOk(s, m, idle) && idle <= m.allowed && |drained| == NCPU && k <= NCPU && q in s.pol.sds
    ensures |s.pol.owner| == NCPU
    ensures var pol' := PolicyPoll(s, m, idle, drained, k).pol;
      && SameLimit(s.pol, pol', q)
      && pol'.sds[q].active == s.pol.sds[q].active - Lost(s.pol, idle, k, q) + Given(s, m, idle, drained, k, q)
    decreases NCPU - k
  {
    hide Scheduler.Inv, CountsOk, HistOk, WaitingOk, Agrees, AtIdle, Chosen;
    if k == NCPU {
    } else if k !in idle {
      PollCounts(s, m, idle, drained, k + 1, q);
    } else {
      AtIdleOk(s, m, k, drained[k], idle);
      AtIdleCounts(s, m, k, drained[k], idle, q);
      var s1 := AtIdle(s, m, k, drained[k]);
      PollCounts(s1, m, idle - {k}, drained, k + 1, q);
      SameLost(s.pol, idle, s1.pol, idle - {k}, k + 1, q);
    }
  }

  // ---------------------------------------------------------------- the other events

  /** A request never takes a process beyond threads_max. */
  lemma AddStaysWithinMax(s: System, m: Machine, p: nat, drained: bool, q: nat)
    requires SysOk(s, m, {}) && p in s.pol.sds && q in s.pol.sds
    ensures var pol' := AddKthread(s, m, p, drained).s.pol;
      && SameLimit(s.pol, pol', q)
      && (pol'.sds[q].active <= s.pol.sds[q].active || pol'.sds[q].active <= s.pol.sds[q].max)
  {
    hide HistOk, WaitingOk, Scheduler.Inv, Agrees, CanTake, Owned, RunKthread, ChooseCore;
    AddKthreadOk(s, m, p, drained);
    if AddKthread(s, m, p, drained).ok {
      var c := ChosenCore(s, m, p, drained);
      TakenIsSpare(s.pol, AddKthread(s, m, p, drained).s.pol, m, p, c, q);
      RunKthreadLimit(s, m, p, ChooseCore(s, m, p).value, drained, q);
    } else {
      AddFails(s, m, p, drained);
    }
  }

  lemma NotifyStaysWithinMax(s: System, m: Machine, p: nat, busy: bool, drained: bool, q: nat)
    requires SysOk(s, m, {}) && p in s.pol.sds && q in s.pol.sds
    ensures var pol' := NotifyCongested(s, m, p, busy, drained).pol;
      && q in pol'.sds && pol'.sds[q].max == s.pol.sds[q].max
      && (pol'.sds[q].active <= s.pol.sds[q].active || pol'.sds[q].active <= s.pol.sds[q].max)
  {
    hide PolOk, Scheduler.Inv, Agrees, AddKthread, MachineOk;
    AddStaysWithinMax(s, m, p, drained, q);
  }

  /** In every run: a process within its limit is taken beyond it by no event but a poll; by a poll exactly
      if the poll, which does not look at the limit, gives it more idle cores than it has to spare below
      the limit and loses by the poll.  It does so only if it chooses the process when it has reached the
      limit; exactly then if none of its own cores is reported idle; and only if it was waiting. */
  lemma MaxInRuns(run: seq<System>, events: seq<SimplePolicy.Event>, m: Machine, i: nat, q: nat)
    requires SimplePolicy.IsRun(run, events, m) && i < |events| && q in run[i].pol.sds && q in run[i + 1].pol.sds
    requires run[i].pol.sds[q].active <= run[i].pol.sds[q].max
    ensures run[i + 1].pol.sds[q].max == run[i].pol.sds[q].max
    ensures !events[i].Poll? ==> run[i + 1].pol.sds[q].active <= run[i].pol.sds[q].max
    ensures events[i].Poll? ==> PollExceeds(run[i], m, events[i].reports, events[i].drops, q, run[i + 1])
  {
    hide Scheduler.Inv, PolOk, Agrees, AddKthread, NotifyCongested, PollAll, SimplePolicy.Boot, Erase, FreshProc;
    hide PollExceeds;
    RunKeepsOk(run, events, m, i);
    assert SimplePolicy.IsStep(run[i], events[i], run[i + 1], m);
    var s := run[i];
    match events[i]
    case NeedCore(p, drained) => AddStaysWithinMax(s, m, p, drained, q);
    case Congestion(p, busy, drained) => NotifyStaysWithinMax(s, m, p, busy, drained, q);
    case Poll(reports, drops) => PollAllExceeds(s, m, reports, drops, q);
    case Attach(p, _, _, _, _) => assert p != q;
    case Detach(p) =>
    case StopPolling(_) =>
  }

  /** When a poll takes process `q` beyond its limit. */
  ghost predicate PollExceeds(s: System, m: Machine, reports: seq<Report>, drops: seq<bool>, q: nat, s': System) {
    && SysOk(s, m, {}) && |reports| == |drops| == NCPU && q in s.pol.sds && q in s'.pol.sds
    && var f := FastPass(s.sched, m, reports, 0);
       var s1, limit := System(f.s, s.pol), s.pol.sds[q].max;
       && SysOk(s1, m, f.idle) && f.idle <= m.allowed && |s.pol.owner| == NCPU
       && (s'.pol.sds[q].active > limit <==>
             Given(s1, m, f.idle, drops, 0, q) > limit - s.pol.sds[q].active + Lost(s.pol, f.idle, 0, q))
       && (s'.pol.sds[q].active > limit ==> Overfills(s1, m, f.idle, drops, 0, q))
       && (OwnsNone(s.pol, f.idle, q) ==>
             (s'.pol.sds[q].active > limit <==> Overfills(s1, m, f.idle, drops, 0, q)))
       && (Overfills(s1, m, f.idle, drops, 0, q) ==> s.pol.sds[q].congested)
  }

  lemma PollAllExceeds(s: System, m: Machine, reports: seq<Report>, drops: seq<bool>, q: nat)
    requires SysOk(s, m, {}) && |reports| == |drops| == NCPU && q in s.pol.sds
    requires s.pol.sds[q].active <= s.pol.sds[q].max
    ensures var s' := PollAll(s, m, reports, drops);
      PollExceeds(s, m, reports, drops, q, s') && s'.pol.sds[q].max == s.pol.sds[q].max
  {
    hide Scheduler.Inv, PolOk, Agrees, PolicyPoll, FastPass, Overfills, OwnsNone, Given, Lost;
    SweptOk(s, m, reports);
    var f := FastPass(s.sched, m, reports, 0);
    PollLimit(System(f.s, s.pol), m, f.idle, drops, 0, q);
    PollCounts(System(f.s, s.pol), m, f.idle, drops, 0, q);
  }

  // ---------------------------------------------------------------- a run that exceeds the limit

  /** Two cores, each the other's hyperthread sibling. */
  function Pair(): (m: Machine)
    ensures MachineOk(m)
  {
    Machine({0, 1}, seq(NCPU, i => if i == 0 then 1 else 0))
  }

  /** Process 0 has two kthreads and a limit of one core; `taken` says that it has core 0, and core 1 was
      never used. */
  ghost predicate AtLimit(s: System, taken: bool, congested: bool, waking: bool) {
    && SysOk(s, Pair(), {})
    && 0 in s.pol.sds && s.pol.sds[0] == Sd(0, 1, if taken then 1 else 0, 0, congested, waking)
    && s.pol.owner == seq(NCPU, _ => None)[0 := if taken then Some(0) else None]
    && 0 in s.pol.idle + (if taken then {0} else {}) && ThreadsAvail(s.sched, 0) == (if taken then 1 else 2)
    && s.sched.cores[1] == Core(None, None, false, false, false)
    && s.sched.cores[0].wait == taken
  }

  lemma AttachesOne()
    ensures SysOk(SimplePolicy.Boot(Pair()), Pair(), {})
    ensures var s := SimplePolicy.Do(SimplePolicy.Boot(Pair()), Pair(), SimplePolicy.Attach(0, 2, 0, 1, 0));
      && AtLimit(s, false, false, false) && s.sched.procs[0] == FreshProc(2)
      && s.sched.cores[0] == Core(None, None, false, false, false)
  {
    hide Scheduler.Inv, PolOk, Agrees, MachineOk;
    BootOk(Pair());
    DoKeepsOk(SimplePolicy.Boot(Pair()), Pair(), SimplePolicy.Attach(0, 2, 0, 1, 0));
  }

  /** The first request is for core 0, which nobody owns. */
  lemma ChoosesCoreZero(s: System)
    requires AtLimit(s, false, false, false) && s.sched.procs[0] == FreshProc(2)
    ensures ChooseCore(s, Pair(), 0) == Some(0)
  {
    hide ProcsOk, CoresOk, CountsOk, HistOk, WaitingOk, Agrees;
    assert forall c :: 0 <= c < NCPU ==> !HasSibling(s.pol, Pair(), 0, c);
    assert HyperCore(s.pol, Pair(), 0, 0).None?;
    IdleCameFrom(s.sched, Pair(), 0);
    assert PastCore(s.pol, Pair(), 0, s.sched.procs[0].threads, s.sched.procs[0].idle).None?;
  }

  /** A kthread put on a core that has none leaves one fewer available. */
  lemma OneLessAvailable(s: State, m: Machine, p: nat, n: nat, drained: bool)
    requires Scheduler.Inv(s, m) && p in s.procs && n in m.allowed && n < NCPU && s.procs[p].idle != []
    requires s.cores[n] == Core(None, None, false, false, false)
    ensures RunOnCore(s, m, p, n, drained).Some?
    ensures var s' := RunOnCore(s, m, p, n, drained).value;
      p in s'.procs && ThreadsAvail(s', p) == ThreadsAvail(s, p) - 1 && |s'.cores| == NCPU && s'.cores[n].wait
  {
    IdleAreThreads(s, p);
    var th := Th(p, Pick(s.procs[p], n, m.siblings[n]));
    EnabledCores(s, m, th, n);
    assert ProcOk(s.procs[p]);
    hide CoresOk, ProcOk, Pick, Steer;
    var s1 := Enable(s, th, n);
    RetireNone(s1, drained);
    assert SchedRun(s1, m, Some(th), n, drained).procs == s1.procs;
  }

  /** Core 0 is given to process 0. */
  lemma GivesCoreZero(s: System)
    requires AtLimit(s, false, false, false) && s.sched.procs[0] == FreshProc(2)
    requires s.sched.cores[0] == Core(None, None, false, false, false)
    ensures var r := RunKthread(s, Pair(), 0, 0, true);
      && r.Some?
      && r.value.pol == s.pol.(sds := s.pol.sds[0 := Sd(0, 1, 1, 0, false, true)],
                               owner := s.pol.owner[0 := Some(0)], idle := s.pol.idle - {0})
      && 0 in r.value.sched.procs && ThreadsAvail(r.value.sched, 0) == 1 && |r.value.sched.cores| == NCPU
      && r.value.sched.cores[1] == s.sched.cores[1] && r.value.sched.cores[0].wait
  {
    hide ProcsOk, CoresOk, CountsOk, HistOk, WaitingOk, Agrees, RunOnCore;
    assert s.sched.procs[0].idle != [];
    RunKthreadIff(s, Pair(), 0, 0, true);
    OneLessAvailable(s.sched, Pair(), 0, 0, true);
    RunOnCoreEffect(s.sched, Pair(), 0, 0, true);
  }

  lemma TakesCoreZero(s: System)
    requires AtLimit(s, false, false, false) && s.sched.procs[0] == FreshProc(2)
    requires s.sched.cores[0] == Core(None, None, false, false, false)
    ensures AtLimit(SimplePolicy.Do(s, Pair(), NeedCore(0, true)), true, false, true)
  {
    hide Agrees, Ordered, ChooseCore, RunKthread, FreshProc, ThreadsAvail, Pair;
    DoKeepsOk(s, Pair(), NeedCore(0, true));
    ChoosesCoreZero(s);
    GivesCoreZero(s);
    assert SimplePolicy.Do(s, Pair(), NeedCore(0, true)) == RunKthread(s, Pair(), 0, 0, true).value;
  }

  lemma IsMarked(s: System)
    requires AtLimit(s, true, false, true)
    ensures var s1 := SimplePolicy.Do(s, Pair(), Congestion(0, true, true));
      && AtLimit(s1, true, false, false)
      && AtLimit(SimplePolicy.Do(s1, Pair(), Congestion(0, true, true)), true, true, false)
  {
    var m, e := Pair(), Congestion(0, true, true);
    DoKeepsOk(s, m, e);
    var s1 := SimplePolicy.Do(s, m, e);
    DoKeepsOk(s1, m, e);
    hide Scheduler.Inv, CountsOk, HistOk, WaitingOk, Agrees, ChooseCore, RunKthread;
  }

  /** Core 1 says that it is not busy, all others say nothing. */
  function Quiet(): Report { Report(false, false, false, true, true) }

  function OneIdle(): seq<Report> {
    seq(NCPU, _ => Quiet())[1 := Quiet().(notBusy := true)]
  }

  lemma {:induction false} NothingElse(s: State, k: nat)
    requires Scheduler.Inv(s, Pair()) && 2 <= k <= NCPU
    ensures FastPass(s, Pair(), OneIdle(), k) == Swept(s, {})
    decreases NCPU - k
  {
    hide Scheduler.Inv;
    if k < NCPU {
      NothingElse(s, k + 1);
    }
  }

  /** Core 1 is the only one reported idle. */
  lemma OneReported(s: System)
    requires AtLimit(s, true, true, false)
    ensures var f := FastPass(s.sched, Pair(), OneIdle(), 0); f.idle == {1} && f.s.procs == s.sched.procs
  {
    var m, r := Pair(), OneIdle();
    hide ProcsOk, CountsOk, HistOk, WaitingOk, Agrees;
    assert |s.sched.cores| == NCPU;
    assert PollCore(s.sched, m, 0, r[0]) == Polled(s.sched, false);
    RetireNone(s.sched, true);
    var s1 := PollCore(s.sched, m, 1, r[1]);
    assert s1.wentIdle && s1.s.procs == s.sched.procs;
    PollCoreOk(s.sched, m, 1, r[1]);
    hide CoresOk, PollCore;
    NothingElse(s1.s, 2);
    assert FastPass(s.sched, m, r, 1) == Swept(s1.s, {1});
  }

  lemma ChoosesAgain(s: System)
    requires Ordered(s, Pair()) && 0 in s.pol.sds && s.pol.sds[0].congested && ThreadsAvail(s.sched, 0) == 1
    requires s.pol.owner == seq(NCPU, _ => None)[0 := Some(0)]
    ensures Chosen(s, Pair(), 1) == Some(0)
  {
    hide Scheduler.Inv, CountsOk, HistOk, WaitingOk;
  }

  /** The poll that follows chooses process 0 again. */
  lemma PollOverfills(s: System, drops: seq<bool>)
    requires AtLimit(s, true, true, false) && |drops| == NCPU
    ensures var f := FastPass(s.sched, Pair(), OneIdle(), 0); var s1 := System(f.s, s.pol);
      && f.idle <= Pair().allowed && SysOk(s1, Pair(), f.idle) && OwnsNone(s.pol, f.idle, 0)
      && Overfills(s1, Pair(), f.idle, drops, 0, 0)
  {
    SweptOk(s, Pair(), OneIdle());
    OneReported(s);
    hide Scheduler.Inv, PolOk, Agrees, FastPass, AtIdle, Chosen;
    var f := FastPass(s.sched, Pair(), OneIdle(), 0);
    var s1 := System(f.s, s.pol);
    ChoosesAgain(s1);
    assert Overfills(s1, Pair(), f.idle, drops, 1, 0);
  }

  /** In a run of five events from boot, a process is given a second core beyond its limit of one: it
      takes the first, is found congested, and the other core is reported idle. */
  lemma ExceedsMax() returns (m: Machine, run: seq<System>, events: seq<SimplePolicy.Event>)
    ensures SimplePolicy.IsRun(run, events, m) && |run| == 6 && 0 in run[5].pol.sds
    ensures run[5].pol.sds[0].max == 1 && run[5].pol.sds[0].active > 1
  {
    hide Ordered, Agrees, SimplePolicy.Do, FreshProc, FastPass, Overfills, OwnsNone, Pair, OneIdle;
    m := Pair();
    var drops := seq(NCPU, _ => true);
    var e1, e2, e3 := SimplePolicy.Attach(0, 2, 0, 1, 0), NeedCore(0, true), Congestion(0, true, true);
    var e5 := SimplePolicy.Poll(OneIdle(), drops);
    var s0 := SimplePolicy.Boot(m);
    AttachesOne();
    var s1 := SimplePolicy.Do(s0, m, e1);
    TakesCoreZero(s1);
    var s2 := SimplePolicy.Do(s1, m, e2);
    IsMarked(s2);
    var s3 := SimplePolicy.Do(s2, m, e3);
    var s4 := SimplePolicy.Do(s3, m, e3);
    assert |OneIdle()| == NCPU by { ReportsLength(); }
    PollOverfills(s4, drops);
    PollKeeps(s4, m, OneIdle(), drops);
    var s5 := SimplePolicy.Do(s4, m, e5);
    run, events := [s0, s1, s2, s3, s4, s5], [e1, e2, e3, e3, e5];
    assert SimplePolicy.IsRun(run, events, m);
    MaxInRuns(run, events, m, 4, 0);
  }

  lemma ReportsLength()
    ensures |OneIdle()| == NCPU
  {
  }

  lemma PollKeeps(s: System, m: Machine, reports: seq<Report>, drops: seq<bool>)
    requires SysOk(s, m, {}) && |reports| == |drops| == NCPU && 0 in s.pol.sds
    ensures 0 in SimplePolicy.Do(s, m, SimplePolicy.Poll(reports, drops)).pol.sds
  {
    hide Scheduler.Inv, PolOk, Agrees, FastPass, PolicyPoll;
    SweptOk(s, m, reports);
    var f := FastPass(s.sched, m, reports, 0);
    PollSame(System(f.s, s.pol), m, f.idle, drops, 0, 0);
  }
}
