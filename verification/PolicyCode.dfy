/**
 The simple policy's operations as they update its tables in place, each proved to make exactly the
 transition of the same name in SimplePolicy.
 */
module PolicyCode {
  import opened Prelude
  import opened Scheduler
  import opened SimplePolicy
  import opened SchedulerCode

  class Allocator {
    const sched: CoreScheduler
    var sds: map<nat, Sd>
    var owner: seq<Option<nat>>
    var hist: seq<seq<Option<nat>>>
    var idle: set<nat>
    var waiting: seq<nat>

    function Pol(): Policy
      reads this
    {
      Policy(sds, owner, hist, idle, waiting)
    }

    ghost predicate Shape()
      reads this, sched, sched.repr
    {
      sched.Shape() && this !in sched.repr && sched !in sched.repr
    }

    ghost function View(): System
      reads this, sched, sched.cores, sched.repr
      requires sched.Shape()
    {
      System(sched.View(), Pol())
    }

    constructor (m: Machine)
      ensures Shape() && View() == SimplePolicy.Boot(m) && fresh(sched) && fresh(sched.cores) && fresh(sched.repr)
    {
      sched := new CoreScheduler();
      sds := map[];
      owner := seq(NCPU, _ => None);
      hist := seq(NCPU, _ => seq(NHIST, _ => None));
      idle := m.allowed;
      waiting := [];
    }

    /** simple_cleanup_core */
    method CleanupCore(ghost m: Machine, c: nat)
      requires PolOk(Pol(), m) && c < NCPU
      modifies this
      ensures Pol() == Cleanup(old(Pol()), m, c)
    {
      if owner[c].None? {
        return;
      }
      var p := owner[c].value;
      sds := sds[p := sds[p].(active := sds[p].active - 1)];
      owner := owner[c := None];
      var row := hist[c];
      assert RowOk(old(Pol()), row);
      hide CountsOk, WaitingOk, RowOk;
      var i := NHIST - 1;
      while i > 0
        invariant 0 <= i < NHIST == |row|
        invariant row[..i + 1] == old(hist[c])[..i + 1]
        invariant row[i + 1..] == old(hist[c])[i..NHIST - 1]
      {
        row := row[i := row[i - 1]];
        i := i - 1;
      }
      row := row[0 := Some(p)];
      assert row == [Some(p)] + old(hist[c])[..NHIST - 1];
      hist := hist[c := row];
    }

    /** The inner loop of simple_detach: `p` is wiped from one row. */
    method EraseRow(xs: seq<Option<nat>>, p: nat) returns (row: seq<Option<nat>>)
      ensures row == Erase(xs, p)
    {
      row := xs;
      for j := 0 to |xs|
        invariant |row| == |xs|
        invariant forall k :: 0 <= k < |xs| ==> row[k] == if k < j && xs[k] == Some(p) then None else xs[k]
      {
        if row[j] == Some(p) {
          row := row[j := None];
        }
      }
    }

    /** The outer loop of simple_detach. */
    method EraseAll(p: nat)
      requires |owner| == |hist|
      modifies this`owner, this`hist
      ensures owner == Erase(old(owner), p) && |hist| == old(|hist|)
      ensures forall k :: 0 <= k < |hist| ==> hist[k] == Erase(old(hist[k]), p)
    {
      ghost var o, h := owner, hist;
      hide Erase;
      for c := 0 to |owner|
        invariant |owner| == |hist| == |o| == |h|
        invariant forall k :: 0 <= k < |o| ==> owner[k] == if k < c && o[k] == Some(p) then None else o[k]
        invariant forall k :: 0 <= k < |h| ==> hist[k] == if k < c then Erase(h[k], p) else h[k]
      {
        if owner[c] == Some(p) {
          owner := owner[c := None];
        }
        var row := EraseRow(hist[c], p);
        hist := hist[c := row];
      }
      assert owner == Erase(o, p);
    }

    /** simple_detach */
    method DetachProc(p: nat)
      requires |owner| == |hist| && p in sds
      modifies this
      ensures Pol() == DetachPol(old(Pol()), p)
    {
      hide Erase;
      if sds[p].congested {
        sds := sds[p := sds[p].(congested := false)];
        waiting := Without(waiting, p);
      }
      EraseAll(p);
      sds := sds - {p};
      assert hist == DetachPol(old(Pol()), p).hist;
    }

    method AssignCore(p: nat, c: nat)
      requires p in sds && c < |owner|
      modifies this
      ensures Pol() == Assign(old(Pol()), p, c)
    {
      owner := owner[c := Some(p)];
      idle := idle - {c};
      sds := sds[p := sds[p].(active := sds[p].active + 1)];
      sds := sds[p := sds[p].(waking := true)];
      assert sds == Assign(old(Pol()), p, c).sds;
    }

    /** simple_run_kthread_on_core */
    method RunOn(m: Machine, p: nat, c: nat, drained: bool) returns (ok: bool)
      requires Shape() && Ordered(View(), m) && p in sds
      modifies this, sched`polled, sched.cores, sched.repr
      ensures Shape() && ok == RunKthread(old(View()), m, p, c, drained).Some?
      ensures View() == if ok then RunKthread(old(View()), m, p, c, drained).value else old(View())
    {
      hide Scheduler.Inv, OwnersOk, CountsOk, HistOk, WaitingOk, RunOnCore, Cleanup, Assign;
      hide CoreScheduler.Shape, CoreScheduler.View;
      AvailOf(p);
      if sched.procs[p].threads.Length - sched.procs[p].activeCount == 0 {
        return false;
      }
      CleanupAt(Pol(), m, p, c);
      ok := sched.RunKthreadOn(m, p, c, drained);
      if !ok {
        return;
      }
      CleanupCore(m, c);
      AssignCore(p, c);
    }

    /** The first loop of simple_choose_core. */
    method FindHyper(m: Machine, p: nat) returns (r: Option<nat>)
      requires MachineOk(m) && OwnersOk(Pol(), m) && p in sds
      ensures r == HyperCore(Pol(), m, p, 0)
    {
      var k := 0;
      while k < NCPU
        invariant 0 <= k <= NCPU && HyperCore(Pol(), m, p, 0) == HyperCore(Pol(), m, p, k)
      {
        if k in m.allowed && owner[k] == Some(p) {
          var sib := m.siblings[k];
          if owner[sib] != Some(p) && (owner[sib].None? || Preemptible(sds[owner[sib].value], sds[p]))
             && sib in m.allowed
          {
            return Some(sib);
          }
        }
        k := k + 1;
      }
      return None;
    }

    /** The second loop: along the idle kthreads. */
    method FindPast(m: Machine, p: nat) returns (r: Option<nat>)
      requires MachineOk(m) && OwnersOk(Pol(), m) && p in sds && p in sched.procs
      requires CameFrom(m, sched.procs[p].threads[..], sched.procs[p].idle)
      ensures r == PastCore(Pol(), m, p, sched.procs[p].threads[..], sched.procs[p].idle)
    {
      var tbl, list := sched.procs[p].threads, sched.procs[p].idle;
      ghost var threads := tbl[..];
      assert list[0..] == list;
      for j := 0 to |list|
        invariant CameFrom(m, threads, list[j..])
        invariant PastCore(Pol(), m, p, threads, list) == PastCore(Pol(), m, p, threads, list[j..])
      {
        assert list[j..][1..] == list[j + 1..];
        if tbl[list[j]].core.None? {
          return None;
        }
        var core := tbl[list[j]].core.value;
        if CanTake(Pol(), m, p, core) {
          return Some(core);
        }
        var sib := m.siblings[core];
        if CanTake(Pol(), m, p, sib) && sib in m.allowed {
          return Some(sib);
        }
      }
      return None;
    }

    /** bitmap_find_next_set over the unowned cores. */
    method FindIdle() returns (r: Option<nat>)
      ensures r == SimplePolicy.IdleCore(Pol(), 0)
    {
      var k := 0;
      while k < NCPU
        invariant 0 <= k <= NCPU && SimplePolicy.IdleCore(Pol(), 0) == SimplePolicy.IdleCore(Pol(), k)
      {
        if k in idle {
          return Some(k);
        }
        k := k + 1;
      }
      return None;
    }

    /** The last loop: any core whose owner may be preempted. */
    method FindPreemptible(m: Machine, p: nat) returns (r: Option<nat>)
      requires MachineOk(m) && OwnersOk(Pol(), m) && p in sds
      ensures r == PreemptCore(Pol(), m, p, 0)
    {
      var k := 0;
      while k < NCPU
        invariant 0 <= k <= NCPU && PreemptCore(Pol(), m, p, 0) == PreemptCore(Pol(), m, p, k)
      {
        if k in m.allowed && owner[k] != Some(p) && owner[k].Some? && Preemptible(sds[owner[k].value], sds[p]) {
          return Some(k);
        }
        k := k + 1;
      }
      return None;
    }

    /** simple_choose_core */
    method FindCore(m: Machine, p: nat) returns (r: Option<nat>)
      requires Shape() && Ordered(View(), m) && p in sds
      ensures r == ChooseCore(old(View()), m, p)
    {
      hide ProcsOk, CoresOk, CountsOk, HistOk, WaitingOk, HyperCore, PastCore, SimplePolicy.IdleCore, PreemptCore;
      hide CoreScheduler.Shape, CoreScheduler.View;
      r := FindHyper(m, p);
      if r.None? {
        IdleCameFrom(sched.View(), m, p);
        AvailOf(p);
        r := FindPast(m, p);
      }
      if r.None? {
        r := FindIdle();
      }
      if r.None? {
        r := FindPreemptible(m, p);
      }
    }

    /** simple_add_kthread */
    method AddOne(m: Machine, p: nat, drained: bool) returns (ok: bool)
      requires Shape() && Ordered(View(), m) && p in sds
      modifies this, sched`polled, sched.cores, sched.repr
      ensures Shape() && View() == AddKthread(old(View()), m, p, drained).s
      ensures ok == AddKthread(old(View()), m, p, drained).ok
    {
      hide Scheduler.Inv, OwnersOk, CountsOk, HistOk, WaitingOk, ChooseCore, RunKthread, CanTake, MachineOk;
      hide CoreScheduler.Shape, CoreScheduler.View;
      if sds[p].active >= sds[p].max {
        return false;
      }
      var c := FindCore(m, p);
      if c.None? {
        return false;
      }
      ok := RunOn(m, p, c.value, drained);
    }

    /** simple_notify_congested */
    method Notify(m: Machine, p: nat, busy: bool, drained: bool)
      requires Shape() && Ordered(View(), m) && p in sds
      modifies this, sched`polled, sched.cores, sched.repr
      ensures Shape() && View() == NotifyCongested(old(View()), m, p, busy, drained)
    {
      hide Scheduler.Inv, PolOk, MachineOk, AddKthread, CoreScheduler.Shape, CoreScheduler.View;
      if sds[p].waking {
        sds := sds[p := sds[p].(waking := false)];
        return;
      }
      if !busy {
        if sds[p].congested {
          sds := sds[p := sds[p].(congested := false)];
          waiting := Without(waiting, p);
        }
        return;
      }
      if sds[p].congested {
        return;
      }
      AddFailsToo(View(), m, p, drained);
      var ok := AddOne(m, p, drained);
      if !ok {
        sds := sds[p := sds[p].(congested := true)];
        waiting := [p] + waiting;
      }
    }

    /** What is read of a process is what its table stands for. */
    lemma AvailOf(p: nat)
      requires Shape() && p in sched.procs
      ensures ThreadsAvail(sched.View(), p) == sched.procs[p].threads.Length - sched.procs[p].activeCount
      ensures sched.View().procs[p].threads == sched.procs[p].threads[..]
      ensures sched.View().procs[p].idle == sched.procs[p].idle
    {
    }

    /** `sd && sd->is_congested && sched_threads_avail(sd->p)` */
    method CheckReady(p: Option<nat>) returns (ready: bool)
      requires Shape() && (p.Some? && p.value in sds ==> p.value in sched.procs)
      ensures ready == IsReady(View(), p)
    {
      if p.None? || p.value !in sds || !sds[p.value].congested {
        return false;
      }
      AvailOf(p.value);
      return sched.procs[p.value].threads.Length - sched.procs[p.value].activeCount != 0;
    }

    method FindPastOwner(here: seq<Option<nat>>, there: seq<Option<nat>>) returns (r: Option<nat>)
      requires Shape() && |here| == |there| && sds.Keys <= sched.procs.Keys
      ensures r == PastOwner(View(), here, there)
    {
      hide IsReady, CoreScheduler.Shape, CoreScheduler.View;
      assert here[0..] == here && there[0..] == there;
      for j := 0 to |here|
        invariant PastOwner(View(), here, there) == PastOwner(View(), here[j..], there[j..])
      {
        assert here[j..][1..] == here[j + 1..] && there[j..][1..] == there[j + 1..];
        var ready := CheckReady(here[j]);
        if ready {
          return here[j];
        }
        ready := CheckReady(there[j]);
        if ready {
          return there[j];
        }
      }
      return None;
    }

    method FindWaiting() returns (r: Option<nat>)
      requires Shape() && forall p :: p in waiting ==> p in sched.procs
      ensures r == FirstWaiting(View(), waiting)
    {
      hide ThreadsAvail, CoreScheduler.Shape, CoreScheduler.View;
      assert waiting[0..] == waiting;
      for j := 0 to |waiting|
        invariant FirstWaiting(View(), waiting) == FirstWaiting(View(), waiting[j..])
      {
        assert waiting[j..][1..] == waiting[j + 1..];
        AvailOf(waiting[j]);
        if sched.procs[waiting[j]].threads.Length - sched.procs[waiting[j]].activeCount != 0 {
          return Some(waiting[j]);
        }
      }
      return None;
    }

    /** simple_choose_kthread */
    method FindKthread(m: Machine, c: nat) returns (r: Option<nat>)
      requires Shape() && Ordered(View(), m) && c < NCPU
      ensures r == ChooseKthread(View(), m, c)
    {
      hide Scheduler.Inv, CountsOk, Ready, FirstWaiting, PastOwner, CoreScheduler.Shape, CoreScheduler.View;
      assert RowOk(Pol(), hist[c]) && RowOk(Pol(), hist[m.siblings[c]]);
      r := owner[m.siblings[c]];
      var ready := CheckReady(r);
      if ready {
        return;
      }
      r := FindPastOwner(hist[c], hist[m.siblings[c]]);
      if r.None? {
        r := FindWaiting();
      }
    }

    method VacateCore(ghost m: Machine, c: nat)
      requires PolOk(Pol(), m) && c < NCPU
      modifies this
      ensures Pol() == Vacate(old(Pol()), m, c)
    {
      assert OwnersOk(Pol(), m);
      hide CountsOk, HistOk, WaitingOk, Cleanup, CoreScheduler.Shape, CoreScheduler.View;
      if owner[c].Some? {
        UnmarkOk(Pol(), m, owner[c].value);
        var p := owner[c].value;
        if sds[p].congested {
          sds := sds[p := sds[p].(congested := false)];
          waiting := Without(waiting, p);
        }
      }
      CleanupCore(m, c);
    }

    method FillCore(m: Machine, c: nat, drained: bool)
      requires Shape() && Ordered(View(), m) && c in m.allowed
      modifies this, sched`polled, sched.cores, sched.repr
      ensures Shape() && View() == Fill(old(View()), m, c, drained)
    {
      hide Scheduler.Inv, OwnersOk, CountsOk, HistOk, WaitingOk, RunKthread, ChooseKthread, ThreadsAvail;
      hide CoreScheduler.Shape, CoreScheduler.View;
      var p := FindKthread(m, c);
      if p.None? {
        idle := idle + {c};
        return;
      }
      var ok := RunOn(m, p.value, c, drained);
      if !ok {
        // a process that is chosen is marked already
        idle := idle + {c};
      }
    }

    /** The body of the loop of simple_sched_poll. */
    method ServeIdle(m: Machine, c: nat, drained: bool)
      requires Shape() && Ordered(View(), m) && c in m.allowed
      modifies this, sched`polled, sched.cores, sched.repr
      ensures Shape() && View() == AtIdle(old(View()), m, c, drained)
    {
      hide Scheduler.Inv, PolOk, Vacate, Fill, CoreScheduler.Shape, CoreScheduler.View;
      VacateOk(Pol(), m, c);
      VacateCore(m, c);
      FillCore(m, c, drained);
    }

    /** simple_sched_poll */
    method PollPolicy(m: Machine, reported: set<nat>, drained: seq<bool>)
      requires Shape() && SysOk(View(), m, reported) && reported <= m.allowed && |drained| == NCPU
      modifies this, sched`polled, sched.cores, sched.repr
      ensures Shape() && View() == PolicyPoll(old(View()), m, reported, drained, 0)
    {
      hide Scheduler.Inv, PolOk, Agrees, AtIdle, MachineOk, CoreScheduler.Shape, CoreScheduler.View;
      var left := reported;
      var k := 0;
      while k < NCPU
        invariant 0 <= k <= NCPU && left <= m.allowed && Shape() && SysOk(View(), m, left)
        invariant PolicyPoll(old(View()), m, reported, drained, 0) == PolicyPoll(View(), m, left, drained, k)
      {
        if k in left {
          AtIdleOk(View(), m, k, drained[k], left);
          ServeIdle(m, k, drained[k]);
          left := left - {k};
        }
        k := k + 1;
      }
    }

    /** sched_poll, from its fast pass on */
    method PollAllCores(m: Machine, reports: seq<Report>, drained: seq<bool>)
      requires Shape() && SysOk(View(), m, {}) && |reports| == |drained| == NCPU
      modifies this, sched`polled, sched.cores, sched.repr
      ensures Shape() && View() == PollAll(old(View()), m, reports, drained)
    {
      hide Scheduler.Inv, PolOk, Agrees, PolicyPoll, FastPass, CoreScheduler.Shape, CoreScheduler.View;
      SweptOk(View(), m, reports);
      var reported := FastPassCores(m, reports);
      PollPolicy(m, reported, drained);
    }

    method FastPassCores(m: Machine, reports: seq<Report>) returns (reported: set<nat>)
      requires Shape() && Scheduler.Inv(sched.View(), m) && |reports| == NCPU
      modifies sched`polled, sched.cores, sched.repr
      ensures Shape() && Swept(sched.View(), reported) == FastPass(old(sched.View()), m, reports, 0)
    {
      hide Scheduler.Inv, PollCore, CoreScheduler.Shape, CoreScheduler.View;
      ghost var s := sched.View();
      reported := {};
      var k := 0;
      while k < NCPU
        invariant 0 <= k <= NCPU && Shape() && Scheduler.Inv(sched.View(), m)
        invariant var rest := FastPass(sched.View(), m, reports, k);
          FastPass(s, m, reports, 0) == rest.(idle := reported + rest.idle)
      {
        if k in m.allowed {
          PollCoreOk(sched.View(), m, k, reports[k]);
          var wentIdle := sched.PollOne(m, k, reports[k]);
          if wentIdle {
            reported := reported + {k};
          }
        }
        k := k + 1;
      }
    }
  }

  lemma AddFailsToo(s: System, m: Machine, p: nat, drained: bool)
    requires Ordered(s, m) && p in s.pol.sds
    ensures !AddKthread(s, m, p, drained).ok ==> AddKthread(s, m, p, drained).s == s
  {
    hide *;
    if !AddKthread(s, m, p, drained).ok {
      AddFails(s, m, p, drained);
    }
  }

  lemma CleanupAt(pol: Policy, m: Machine, p: nat, c: nat)
    requires MachineOk(m) && PolOk(pol, m) && p in pol.sds
    ensures c in m.allowed ==> c < NCPU && p in Cleanup(pol, m, c).sds && |Cleanup(pol, m, c).owner| == NCPU
  {
    if c in m.allowed {
      CleanupOk(pol, m, c);
    }
  }
}
