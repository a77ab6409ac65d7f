/**
 The core scheduler as it updates its tables in place: the arrays of each process, in which the active
 kthreads are found by the positions they remember, and the table of cores.  Every operation is proved
 to make exactly the transition of Scheduler on what the arrays stand for.
 */
module SchedulerCode {
  import opened Prelude
  import opened Scheduler
  import opened SwapArray
  import Flows

  /** The positions of the kthreads that are active. */
  function Positions(threads: seq<Thread>, at: seq<nat>): map<nat, nat>
    requires |at| == |threads|
  {
    map i | 0 <= i < |threads| && threads[i].active :: at[i]
  }

  lemma AddedPositions(ts: seq<Thread>, at: seq<nat>, a: SwapArray<nat>, i: nat, core: nat)
    requires |at| == |ts| && i < |ts| && !ts[i].active && a.pos == Positions(ts, at) && a.Valid()
    ensures i !in a.pos && Positions(ts[i := Thread(true, Some(core))], at[i := |a.items|]) == a.Add(i).pos
  {
  }

  lemma RemovedPositions(ts: seq<Thread>, at: seq<nat>, a: SwapArray<nat>, i: nat)
    requires |at| == |ts| && i < |ts| && ts[i].active && a.pos == Positions(ts, at) && a.Valid()
    ensures at[i] < |a.items| && a.items[|a.items| - 1] < |at|
    ensures Positions(ts[i := ts[i].(active := false)], at[a.items[|a.items| - 1] := at[i]]) == a.Remove(i).pos
  {
    assert i in a.pos && a.items[|a.items| - 1] in a.pos;
  }

  lemma ActiveFacts(p: Proc)
    requires ProcOk(p)
    ensures p.active.Valid()
    ensures forall i :: i in p.active.pos ==> i < |p.threads|
    ensures forall i :: i in p.idle ==> i < |p.threads| && !p.threads[i].active
    ensures forall i :: 0 <= i < |p.threads| && p.threads[i].active ==> i in p.active.pos
    ensures forall k :: 0 <= k < |p.active.items| ==> p.active.items[k] < |p.threads|
  {
    hide FlowsOk;
  }

  /** The scheduler's part of struct proc.  `atIdx` is the at_idx field of each kthread, which is left as
      it is when the kthread goes idle; only the first `activeCount` of `activeThreads` are in use. */
  class ProcTable {
    const threads: array<Thread>
    const atIdx: array<nat>
    const activeThreads: array<nat>
    const flowTbl: array<nat>
    var activeCount: nat
    var idle: seq<nat>
    ghost const parts: set<object>

    ghost predicate Shape()
      reads this
    {
      && this in parts && threads in parts && atIdx in parts && activeThreads in parts && flowTbl in parts
      && threads.Length == atIdx.Length <= NCPU == activeThreads.Length == flowTbl.Length
      && atIdx != activeThreads && atIdx != flowTbl && activeThreads != flowTbl
      && activeCount <= NCPU
    }

    /** What the arrays stand for: positions only of kthreads that are active. */
    ghost function View(): Proc
      reads this, parts
      requires Shape()
    {
      Proc(threads[..], SwapArray(activeThreads[..activeCount], Positions(threads[..], atIdx[..])), idle,
           flowTbl[..threads.Length])
    }

    ghost predicate Valid()
      reads this, parts
    {
      Shape() && ProcOk(View())
    }

    /** sched_attach_proc */
    constructor (n: nat)
      requires n <= NCPU
      ensures Valid() && View() == FreshProc(n) && fresh(parts) && this in parts
    {
      threads := new Thread[n](_ => Thread(false, None));
      atIdx := new nat[n](_ => 0);
      activeThreads := new nat[NCPU](_ => 0);
      flowTbl := new nat[NCPU](_ => 0);
      activeCount := 0;
      idle := [];
      parts := {this, threads, atIdx, activeThreads, flowTbl};
      new;
      for i := 0 to n
        invariant Shape() && activeCount == 0 && threads.Length == n && idle == seq(i, k requires k >= 0 => k)
        invariant forall k :: 0 <= k < n ==> threads[k] == Thread(false, None) && flowTbl[k] == 0
      {
        idle := idle + [i];
      }
      FreshProcOk(n);
      hide ProcOk;
      assert Positions(threads[..], atIdx[..]) == map[];
      assert View() == FreshProc(n);
    }

    /** The number of kthreads in use leaves room for one that is idle. */
    lemma RoomForOne(i: nat)
      requires Valid() && i in idle
      ensures activeCount < threads.Length
    {
      Available(View());
    }

    /** sched_steer_flows */
    method SteerAll()
      requires Shape() && forall k :: 0 <= k < activeCount ==> activeThreads[k] < threads.Length
      modifies flowTbl
      ensures View() == Steer(old(View()))
    {
      Flows.SteerFlows(flowTbl, activeThreads[..activeCount], threads.Length);
      assert activeCount > 0 ==> View().flows == Steer(old(View())).flows;
      assert activeCount == 0 ==> View().flows == old(View()).flows;
    }

    /** A kthread that is not active is appended to those that are. */
    method AddActive(i: nat, core: nat)
      requires Shape() && View().active.Valid() && i < threads.Length && !threads[i].active && activeCount < NCPU
      modifies this`activeCount, threads, atIdx, activeThreads
      ensures Shape()
      ensures View() == old(View()).(threads := old(threads[..])[i := Thread(true, Some(core))],
                                     active := old(View()).active.Add(i))
    {
      hide Positions;
      ghost var p, at: seq<nat> := View(), atIdx[..];
      AddedPositions(p.threads, at, p.active, i, core);
      threads[i] := Thread(true, Some(core));
      atIdx[i] := activeCount;
      activeThreads[activeCount] := i;
      activeCount := activeCount + 1;
      assert threads[..] == p.threads[i := Thread(true, Some(core))] && atIdx[..] == at[i := activeCount - 1];
      assert View().active.items == p.active.Add(i).items;
    }

    /** The last active kthread takes the place of this one. */
    method RemoveActive(i: nat)
      requires Shape() && View().active.Valid() && i < threads.Length && threads[i].active
      modifies this`activeCount, threads, atIdx, activeThreads
      ensures Shape() && i in old(View()).active.pos
      ensures View() == old(View()).(threads := old(threads[..])[i := old(threads[i]).(active := false)],
                                     active := old(View()).active.Remove(i))
    {
      ghost var p, at: seq<nat> := View(), atIdx[..];
      assert i in p.active.pos && p.active.pos[i] == at[i];
      hide Positions;
      RemovedPositions(p.threads, at, p.active, i);
      threads[i] := threads[i].(active := false);
      activeCount := activeCount - 1;
      activeThreads[atIdx[i]] := activeThreads[activeCount];
      atIdx[activeThreads[atIdx[i]]] := atIdx[i];
      assert threads[..] == p.threads[i := p.threads[i].(active := false)];
      assert atIdx[..] == at[p.active.items[activeCount] := at[i]];
      assert View().active.items == p.active.Remove(i).items;
    }

    /** sched_enable_kthread, up to polling */
    method Enable(i: nat, core: nat)
      requires Valid() && i in idle
      modifies parts
      ensures Valid() && View() == EnableIn(old(View()), i, core)
    {
      hide ProcOk, Without, Positions;
      ghost var p := View();
      ActiveFacts(p);
      EnableInOk(p, i, core);
      RoomForOne(i);
      idle := Without(idle, i);
      AddActive(i, core);
      SteerAll();
    }

    /** sched_disable_kthread, up to polling */
    method Disable(i: nat)
      requires Valid() && i < threads.Length && threads[i].active
      modifies parts
      ensures Valid() && View() == DisableIn(old(View()), i)
    {
      hide ProcOk, Positions;
      ghost var p := View();
      ActiveFacts(p);
      DisableInOk(p, i);
      RemoveActive(i);
      idle := [i] + idle;
      SteerAll();
    }

    /** One of the two list walks of sched_pick_kthread. */
    method FindOn(core: nat) returns (r: Option<nat>)
      requires forall i :: 0 <= i < |idle| ==> idle[i] < threads.Length
      ensures r == FirstOn(threads[..], idle, core)
    {
      assert idle[0..] == idle;
      for j := 0 to |idle|
        invariant FirstOn(threads[..], idle, core) == FirstOn(threads[..], idle[j..], core)
      {
        assert idle[j..][1..] == idle[j + 1..];
        if threads[idle[j]].core == Some(core) {
          return Some(idle[j]);
        }
      }
      return None;
    }

    /** sched_pick_kthread */
    method PickKthread(core: nat, sibling: nat) returns (i: nat)
      requires Shape() && idle != [] && forall i :: 0 <= i < |idle| ==> idle[i] < threads.Length
      ensures i == Pick(old(View()), core, sibling)
    {
      hide FirstOn;
      var here := FindOn(core);
      if here.Some? {
        return here.value;
      }
      var there := FindOn(sibling);
      if there.Some? {
        return there.value;
      }
      return idle[|idle| - 1];
    }
  }

  lemma ProcOf(s: State, p: nat)
    requires ProcsOk(s) && p in s.procs
    ensures ProcOk(s.procs[p]) && s.polled.Valid()
  {
  }

  /** Whoever is on a core is an active kthread, on record for that core. */
  lemma OccupantsOf(s: State, m: Machine, hole: Option<Th>, n: nat)
    requires CoresOk(s, m, hole) && n < NCPU
    ensures |s.cores| == NCPU
    ensures var c := s.cores[n];
      && (c.cur.Some? ==> IsThread(s, c.cur.value) && Get(s, c.cur.value) == Thread(true, Some(n)))
      && (c.pendingTh.Some? ==> IsThread(s, c.pendingTh.value) && Get(s, c.pendingTh.value).active)
  {
    hide FlagsOk;
    var c := s.cores[n];
    assert c.cur.Some? ==> c.cur.value in Occupants(c);
    assert c.pendingTh.Some? ==> c.pendingTh.value in Occupants(c);
  }

  class CoreScheduler {
    var procs: map<nat, ProcTable>
    const cores: array<Core>
    var polled: SwapArray<Th>
    ghost var repr: set<object>

    /** The tables of different processes have nothing in common. */
    ghost predicate Shape()
      reads this, repr
    {
      && cores.Length == NCPU && this !in repr && cores !in repr
      && (forall p :: p in procs ==> procs[p] in repr && procs[p] in procs[p].parts && procs[p].parts <= repr)
      && (forall p :: p in procs ==> procs[p].Shape())
      && (forall p, q :: p in procs && q in procs && p != q ==> procs[p].parts !! procs[q].parts)
    }

    ghost function View(): (s: State)
      reads this, cores, repr
      requires Shape()
      ensures s.procs.Keys == procs.Keys
    {
      State(map p | p in procs :: procs[p].View(), cores[..], polled)
    }

    constructor ()
      ensures Shape() && View() == Boot() && procs == map[] && fresh(repr) && fresh(cores)
    {
      procs := map[];
      cores := new Core[NCPU](_ => Core(None, None, false, false, false));
      polled := SwapArray([], map[]);
      repr := {};
    }

    /** sched_attach_proc */
    method AttachTable(p: nat, n: nat)
      requires Shape() && p !in procs && n <= NCPU
      modifies this`procs, this`repr
      ensures Shape() && View() == AttachProc(old(View()), p, n) && fresh(repr - old(repr))
    {
      hide FreshProc, ProcOk, ProcTable.View, ProcTable.Shape;
      var tbl := new ProcTable(n);
      Enlist(p, tbl);
    }

    method Enlist(p: nat, tbl: ProcTable)
      requires Shape() && p !in procs && tbl.Shape() && tbl in tbl.parts
      requires tbl.parts !! repr && this !in tbl.parts && cores !in tbl.parts
      modifies this`procs, this`repr
      ensures Shape() && repr == old(repr) + tbl.parts
      ensures View() == old(View()).(procs := old(View()).procs[p := tbl.View()])
    {
      hide ProcTable.View, ProcTable.Shape;
      ghost var s, was := View(), procs;
      procs := procs[p := tbl];
      repr := repr + tbl.parts;
      forall q | q in was ensures procs[q].Shape() && procs[q].View() == s.procs[q] && procs[q].parts !! tbl.parts {
        assert procs[q] == was[q];
      }
      assert Shape();
      assert View().procs == s.procs[p := tbl.View()];
    }

    lemma TableOf(th: Th)
      requires Shape() && IsThread(View(), th)
      ensures th.p in procs && th.idx < procs[th.p].threads.Length && procs[th.p].threads[th.idx] == Get(View(), th)
    {
    }

    /** Only the table of process `p` was changed. */
    twostate lemma OneTable(p: nat)
      requires old(Shape()) && p in procs && procs == old(procs) && repr == old(repr)
      requires forall o :: o in repr && o !in procs[p].parts ==> unchanged(o)
      requires procs[p].Shape()
      ensures Shape() && View() == State(old(View()).procs[p := procs[p].View()], cores[..], polled)
    {
      hide ProcTable.View, ProcTable.Shape;
      forall q | q in procs && q != p ensures procs[q].Shape() && procs[q].View() == old(procs[q].View()) {
        assert procs[q].parts !! procs[p].parts;
        assert forall o :: o in procs[q].parts ==> o in repr && o !in procs[p].parts && unchanged(o);
      }
      assert Shape();
      assert View().procs == old(View()).procs[p := procs[p].View()];
    }

    method EnableKthread(th: Th, core: nat)
      requires Shape() && ProcsOk(View()) && th.p in procs && th.idx in procs[th.p].idle
      modifies this`polled, procs[th.p].parts
      ensures Shape() && View() == Enable(old(View()), th, core)
    {
      hide ProcsOk, ProcOk, ProcTable.View, ProcTable.Shape, EnableIn;
      ProcOf(View(), th.p);
      procs[th.p].Enable(th.idx, core);
      if th !in polled.pos {
        polled := polled.Add(th);
      }
      OneTable(th.p);
    }

    method DisableKthread(th: Th, drained: bool)
      requires Shape() && ProcsOk(View()) && IsThread(View(), th) && Get(View(), th).active
      modifies this`polled, procs[th.p].parts
      ensures Shape() && View() == Disable(old(View()), th, drained)
    {
      hide ProcsOk, ProcOk, ProcTable.Shape, ProcTable.View, DisableIn;
      TableOf(th);
      ProcOf(View(), th.p);
      procs[th.p].Disable(th.idx);
      if drained && th in polled.pos {
        polled := polled.Remove(th);
      }
      OneTable(th.p);
    }

    /** `if (th) sched_disable_kthread(th)` */
    method RetireKthread(th: Option<Th>, drained: bool)
      requires Shape() && ProcsOk(View())
      requires th.Some? ==> IsThread(View(), th.value) && Get(View(), th.value).active
      modifies this`polled, repr
      ensures Shape() && View() == Retire(old(View()), th, drained)
    {
      hide ProcsOk, Disable, ProcTable.Shape, ProcTable.View;
      if th.Some? {
        DisableKthread(th.value, drained);
      }
    }

    method SetCore(n: nat, c: Core)
      requires Shape() && n < NCPU
      modifies cores
      ensures Shape() && View() == old(View()).(cores := old(View()).cores[n := c])
    {
      hide ProcTable.View, ProcTable.Shape;
      ghost var s := View();
      cores[n] := c;
      assert forall p :: p in procs ==> procs[p].View() == s.procs[p];
      assert View().procs == s.procs;
    }

    /** __sched_run */
    method Run(ghost m: Machine, th: Option<Th>, n: nat, drained: bool)
      requires Shape() && ProcsOk(View()) && CoresOk(View(), m, th) && n < NCPU
      modifies this`polled, cores, repr
      ensures Shape() && View() == SchedRun(old(View()), m, th, n, drained)
    {
      hide ProcsOk, CoresOk, Retire, ProcTable.View, ProcTable.Shape;
      OccupantsOf(View(), m, th, n);
      var c := cores[n];
      if c.wait {
        RetireKthread(c.pendingTh, drained);
        c := c.(pendingTh := th);
        c := c.(pending := true);
      } else {
        RetireKthread(c.cur, drained);
        c := c.(cur := th);
        c := c.(wait := true);
        c := c.(idle := false);
      }
      SetCore(n, c);
    }

    /** sched_run_on_core */
    method RunKthreadOn(m: Machine, p: nat, n: nat, drained: bool) returns (ok: bool)
      requires Shape() && Inv(View(), m) && p in procs
      modifies this`polled, cores, repr
      ensures Shape()
      ensures ok == RunOnCore(old(View()), m, p, n, drained).Some?
      ensures View() == if ok then RunOnCore(old(View()), m, p, n, drained).value else old(View())
    {
      hide ProcsOk, CoresOk, Enable, SchedRun, Pick, ProcTable.Shape;
      IdleAreThreads(View(), p);
      assert View().procs[p] == procs[p].View();
      if procs[p].idle == [] || n >= NCPU || n !in m.allowed {
        return false;
      }
      var i := procs[p].PickKthread(n, m.siblings[n]);
      EnabledCores(View(), m, Th(p, i), n);
      hide ProcTable.View;
      EnableKthread(Th(p, i), n);
      Run(m, Some(Th(p, i)), n, drained);
      ok := true;
    }

    /** sched_idle_on_core */
    method IdleCore(m: Machine, n: nat, drained: bool)
      requires Shape() && Inv(View(), m)
      modifies this`polled, cores, repr
      ensures Shape() && View() == IdleOnCore(old(View()), m, n, drained)
    {
      hide ProcsOk, CoresOk, SchedRun, ProcTable.View, ProcTable.Shape;
      if n < NCPU && n in m.allowed {
        Run(m, None, n, drained);
      }
    }

    /** What the fast pass of sched_poll does with one core. */
    method PollOne(ghost m: Machine, n: nat, r: Report) returns (wentIdle: bool)
      requires Shape() && Inv(View(), m) && n < NCPU
      modifies this`polled, cores, repr
      ensures Shape()
      ensures View() == PollCore(old(View()), m, n, r).s && wentIdle == PollCore(old(View()), m, n, r).wentIdle
    {
      hide PollCore, FinishSwitch, CheckIdle, ProcTable.View, ProcTable.Shape, ProcsOk, CoresOk;
      ghost var s := View();
      FinishSwitchOk(s, m, n, r);
      FinishOne(m, n, r);
      wentIdle := CheckOne(m, n, r);
      assert CheckIdle(FinishSwitch(s, m, n, r), m, n, r) == PollCore(s, m, n, r) by {
        PollCoreIs(s, m, n, r);
      }
    }

    method FinishOne(ghost m: Machine, n: nat, r: Report)
      requires Shape() && Inv(View(), m) && n < NCPU
      modifies this`polled, cores, repr
      ensures Shape() && View() == FinishSwitch(old(View()), m, n, r)
    {
      hide ProcsOk, CoresOk, Retire, ProcTable.View, ProcTable.Shape;
      OccupantsOf(View(), m, None, n);
      var c := cores[n];
      if c.wait && r.done {
        if c.pending {
          var th := c.pendingTh;
          c := c.(pendingTh := None);
          c := c.(pending := false);
          RetireKthread(c.cur, r.drained);
          c := c.(cur := th);
        } else {
          c := c.(wait := false);
        }
        SetCore(n, c);
      }
    }

    method CheckOne(ghost m: Machine, n: nat, r: Report) returns (wentIdle: bool)
      requires Shape() && Inv(View(), m) && n < NCPU
      modifies this`polled, cores, repr
      ensures Shape()
      ensures View() == CheckIdle(old(View()), m, n, r).s && wentIdle == CheckIdle(old(View()), m, n, r).wentIdle
    {
      hide ProcsOk, CoresOk, Retire, ProcTable.View, ProcTable.Shape;
      OccupantsOf(View(), m, None, n);
      var c := cores[n];
      wentIdle := false;
      if !c.wait && !c.idle && r.notBusy {
        if c.cur.Some? {
          if r.rewake {
            TableOf(c.cur.value);
            var home := procs[c.cur.value.p].threads[c.cur.value.idx].core.value;
            SetCore(home, cores[home].(wait := true));
            return;
          }
        }
        RetireKthread(c.cur, r.drained2);
        c := c.(cur := None);
        c := c.(idle := true);
        SetCore(n, c);
        wentIdle := true;
      }
    }
  }

  lemma PollCoreIs(s: State, m: Machine, n: nat, r: Report)
    requires Inv(s, m) && n < NCPU
    ensures Inv(FinishSwitch(s, m, n, r), m)
    ensures PollCore(s, m, n, r) == CheckIdle(FinishSwitch(s, m, n, r), m, n, r)
  {
    FinishSwitchOk(s, m, n, r);
    hide Inv, FinishSwitch, CheckIdle;
  }
}
