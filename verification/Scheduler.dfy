/**
 The IOKernel's core scheduler: which kthread of which process is on which core.

 A core has a current thread, a request in flight (`wait`), and at most one request behind it
 (`pending`).  A process keeps its active kthreads in an array and its idle ones in a list; the
 kthreads to be polled, of all processes, are in one more array.  There is one transition per
 scheduler operation; the kernel's answers (`Report`) are arbitrary.
 */
module Scheduler {
  import opened SwapArray
  import opened Prelude
  import Flows

  const NCPU := Flows.NCPU

  /** Kthread `idx` of process `p`. */
  datatype Th = Th(p: nat, idx: nat)

  /** `core` is where the kthread last ran, if it ever did. */
  datatype Thread = Thread(active: bool, core: Option<nat>)

  /** The scheduler's part of struct proc. */
  datatype Proc = Proc(threads: seq<Thread>, active: SwapArray<nat>, idle: seq<nat>, flows: seq<nat>)

  /** struct core_state */
  datatype Core = Core(pendingTh: Option<Th>, cur: Option<Th>, idle: bool, pending: bool, wait: bool)

  datatype State = State(procs: map<nat, Proc>, cores: seq<Core>, polled: SwapArray<Th>)

  /** The machine: cores open to scheduling, and the hyperthread sibling of each core. */
  datatype Machine = Machine(allowed: set<nat>, siblings: seq<nat>)

  predicate IsThread(s: State, th: Th) {
    th.p in s.procs && th.idx < |s.procs[th.p].threads|
  }

  function Get(s: State, th: Th): Thread
    requires IsThread(s, th)
  {
    s.procs[th.p].threads[th.idx]
  }

  // ---------------------------------------------------------------- one process

  /** sched_steer_flows; Flows.SteerFlows is the loop. */
  function Steer(p: Proc): (r: Proc)
    ensures r == p.(flows := r.flows)
  {
    if p.active.items == [] then p
    else p.(flows := seq(|p.threads|, i requires i >= 0 => Flows.Target(p.active.items, i)))
  }

  /** The active kthreads, with exact positions, and the idle ones partition the kthreads; flow
      indices go to active kthreads only. */
  ghost predicate ProcOk(p: Proc) {
    && p.active.Valid()
    && (forall i :: i in p.active.pos <==> 0 <= i < |p.threads| && p.threads[i].active)
    && (forall i :: i in p.idle <==> 0 <= i < |p.threads| && !p.threads[i].active)
    && Distinct(p.idle)
    && FlowsOk(p)
  }

  predicate FlowsOk(p: Proc) {
    && |p.flows| == |p.threads|
    && (p.active.items != [] ==>
          forall i :: 0 <= i < |p.flows| ==> p.flows[i] == Flows.Target(p.active.items, i))
  }

  /** sched_enable_kthread, up to polling */
  function EnableIn(p: Proc, i: nat, core: nat): Proc
    requires i < |p.threads| && p.active.Valid() && i !in p.active.pos
  {
    Steer(p.(threads := p.threads[i := Thread(true, Some(core))], idle := Without(p.idle, i),
             active := p.active.Add(i)))
  }

  /** sched_disable_kthread, up to polling: the kthread goes to the front of the idle list. */
  function DisableIn(p: Proc, i: nat): Proc
    requires i < |p.threads| && p.active.Valid() && i in p.active.pos
  {
    Steer(p.(threads := p.threads[i := p.threads[i].(active := false)], idle := [i] + p.idle,
             active := p.active.Remove(i)))
  }

  lemma EnableInOk(p: Proc, i: nat, core: nat)
    requires ProcOk(p) && i in p.idle
    ensures i < |p.threads| && i !in p.active.pos && ProcOk(EnableIn(p, i, core))
    ensures EnableIn(p, i, core).threads == p.threads[i := Thread(true, Some(core))]
  {
    WithoutDrops(p.idle, i);
    var p' := EnableIn(p, i, core);
    assert forall j :: 0 <= j < |p.threads| && j != i ==> p'.threads[j] == p.threads[j];
    assert p'.active == p.active.Add(i);
  }

  lemma DisableInOk(p: Proc, i: nat)
    requires ProcOk(p) && i in p.active.pos
    ensures i < |p.threads| && ProcOk(DisableIn(p, i))
    ensures DisableIn(p, i).threads == p.threads[i := p.threads[i].(active := false)]
  {
    var p' := DisableIn(p, i);
    assert forall j :: 0 <= j < |p.threads| && j != i ==> p'.threads[j] == p.threads[j];
    assert p'.active == p.active.Remove(i);
  }

  // ---------------------------------------------------------------- enable and disable

  /** Every process is in order, and every active kthread is polled. */
  ghost predicate ProcsOk(s: State) {
    && s.polled.Valid()
    && (forall p :: p in s.procs ==> ProcOk(s.procs[p]))
    && (forall th :: IsThread(s, th) && Get(s, th).active ==> th in s.polled.pos)
    && (forall th :: th in s.polled.pos ==> IsThread(s, th))
  }

  ghost function Enable(s: State, th: Th, core: nat): State
    requires ProcsOk(s) && th.p in s.procs && th.idx in s.procs[th.p].idle
  {
    assert ProcOk(s.procs[th.p]);
    s.(procs := s.procs[th.p := EnableIn(s.procs[th.p], th.idx, core)],
       polled := if th in s.polled.pos then s.polled else s.polled.Add(th))
  }

  /** `drained`: the kthread's packet queue is empty, so it need not be polled any more. */
  ghost function Disable(s: State, th: Th, drained: bool): State
    requires ProcsOk(s) && IsThread(s, th) && Get(s, th).active
  {
    assert ProcOk(s.procs[th.p]);
    s.(procs := s.procs[th.p := DisableIn(s.procs[th.p], th.idx)],
       polled := if drained && th in s.polled.pos then s.polled.Remove(th) else s.polled)
  }

  /** `s'` differs from `s` in thread `th` at most, as far as cores are concerned. */
  ghost predicate OnlyThread(s: State, s': State, th: Th) {
    && s'.cores == s.cores && s'.procs.Keys == s.procs.Keys
    && (forall x :: IsThread(s', x) <==> IsThread(s, x))
    && (forall x :: IsThread(s, x) && x != th ==> Get(s', x) == Get(s, x))
  }

  /** Replacing one process by one that differs in one kthread, and polling or unpolling it. */
  lemma UpdateProc(s: State, th: Th, p: Proc, polled: SwapArray<Th>)
    requires ProcsOk(s) && IsThread(s, th) && ProcOk(p)
    requires |p.threads| == |s.procs[th.p].threads|
    requires p.threads == s.procs[th.p].threads[th.idx := p.threads[th.idx]]
    requires polled.Valid() && s.polled.pos.Keys - {th} <= polled.pos.Keys <= s.polled.pos.Keys + {th}
    requires p.threads[th.idx].active ==> th in polled.pos
    ensures var s' := s.(procs := s.procs[th.p := p], polled := polled);
      ProcsOk(s') && OnlyThread(s, s', th) && Get(s', th) == p.threads[th.idx]
  {
    hide ProcOk;
    var s' := s.(procs := s.procs[th.p := p], polled := polled);
    assert s'.procs.Keys == s.procs.Keys;
    forall x | IsThread(s', x) && Get(s', x).active ensures x in polled.pos {
      assert x != th ==> Get(s', x) == Get(s, x);
    }
  }

  lemma EnableEffect(s: State, th: Th, core: nat)
    requires ProcsOk(s) && th.p in s.procs && th.idx in s.procs[th.p].idle
    ensures IsThread(s, th) && !Get(s, th).active
    ensures var s' := Enable(s, th, core);
      ProcsOk(s') && OnlyThread(s, s', th) && Get(s', th) == Thread(true, Some(core))
  {
    var p := s.procs[th.p];
    assert ProcOk(p) && th.idx < |p.threads| && !p.threads[th.idx].active;
    EnableInOk(p, th.idx, core);
    hide ProcOk, EnableIn, ProcsOk, OnlyThread;
    UpdateProc(s, th, EnableIn(p, th.idx, core),
               if th in s.polled.pos then s.polled else s.polled.Add(th));
  }

  lemma DisableEffect(s: State, th: Th, drained: bool)
    requires ProcsOk(s) && IsThread(s, th) && Get(s, th).active
    ensures var s' := Disable(s, th, drained);
      ProcsOk(s') && OnlyThread(s, s', th) && Get(s', th) == Get(s, th).(active := false)
  {
    var p := s.procs[th.p];
    assert ProcOk(p);
    DisableInOk(p, th.idx);
    hide ProcOk, DisableIn, ProcsOk, OnlyThread;
    UpdateProc(s, th, DisableIn(p, th.idx),
               if drained && th in s.polled.pos then s.polled.Remove(th) else s.polled);
  }

  // ---------------------------------------------------------------- picking a kthread

  /** The first kthread of `list` that last ran on `core`. */
  function FirstOn(threads: seq<Thread>, list: seq<nat>, core: nat): (r: Option<nat>)
    requires forall i :: 0 <= i < |list| ==> list[i] < |threads|
    ensures r.Some? ==> r.value in list && threads[r.value].core == Some(core)
    ensures r.None? ==> forall i :: 0 <= i < |list| ==> threads[list[i]].core != Some(core)
  {
    if list == [] then None
    else if threads[list[0]].core == Some(core) then Some(list[0])
    else FirstOn(threads, list[1..], core)
  }

  /** Some idle kthread last ran on `core`. */
  predicate LastRanOn(p: Proc, core: nat)
    requires forall i :: 0 <= i < |p.idle| ==> p.idle[i] < |p.threads|
  {
    exists j :: 0 <= j < |p.idle| && p.threads[p.idle[j]].core == Some(core)
  }

  /** sched_pick_kthread: one that last ran here, else on the sibling, else the one idle longest. */
  function Pick(p: Proc, core: nat, sibling: nat): (i: nat)
    requires forall i :: 0 <= i < |p.idle| ==> p.idle[i] < |p.threads|
    requires p.idle != []
    ensures i in p.idle
    ensures LastRanOn(p, core) ==> p.threads[i].core == Some(core)
    ensures !LastRanOn(p, core) && LastRanOn(p, sibling) ==> p.threads[i].core == Some(sibling)
    ensures !LastRanOn(p, core) && !LastRanOn(p, sibling) ==> i == p.idle[|p.idle| - 1]
  {
    var here := FirstOn(p.threads, p.idle, core);
    var there := FirstOn(p.threads, p.idle, sibling);
    if here.Some? then here.value else if there.Some? then there.value else p.idle[|p.idle| - 1]
  }

  // ---------------------------------------------------------------- cores

  /** The kthreads that are on a core: running, or next in line. */
  function Occupants(c: Core): set<Th> {
    (if c.cur.Some? then {c.cur.value} else {}) + (if c.pendingTh.Some? then {c.pendingTh.value} else {})
  }

  predicate FlagsOk(c: Core) {
    && (c.idle ==> c.cur.None? && !c.wait && !c.pending)
    && (c.pendingTh.Some? ==> c.pending)
    && (c.pending ==> c.wait)
    && (c.cur.Some? ==> c.cur != c.pendingTh)
  }

  predicate MachineOk(m: Machine) {
    && |m.siblings| == NCPU
    && (forall c :: c in m.allowed ==> c < NCPU)
    && (forall c :: 0 <= c < NCPU ==> m.siblings[c] < NCPU)
  }

  /** `th` is on the core it names. */
  predicate IsPlaced(s: State, th: Th)
    requires IsThread(s, th)
  {
    var c := Get(s, th).core;
    c.Some? && c.value < |s.cores| && th in Occupants(s.cores[c.value])
  }

  /** A kthread is active exactly if it is on a core, namely the one it names; `hole` is a kthread
      that was just activated and is not on its core yet. */
  ghost predicate CoresOk(s: State, m: Machine, hole: Option<Th>) {
    && |s.cores| == NCPU
    && (forall c :: 0 <= c < NCPU ==> FlagsOk(s.cores[c]))
    && (forall c, th :: 0 <= c < NCPU && th in Occupants(s.cores[c]) ==>
          IsThread(s, th) && Get(s, th) == Thread(true, Some(c)) && Some(th) != hole)
    && (forall th :: IsThread(s, th) && Get(s, th).core.Some? ==>
          Get(s, th).core.value in m.allowed && Get(s, th).core.value < NCPU)
    && (forall th :: IsThread(s, th) && Get(s, th).active ==> IsPlaced(s, th) || Some(th) == hole)
  }

  ghost predicate Inv(s: State, m: Machine) {
    MachineOk(m) && ProcsOk(s) && CoresOk(s, m, None)
  }

  /** Take kthread `th` off the cores, if there is one. */
  ghost function Retire(s: State, th: Option<Th>, drained: bool): State
    requires ProcsOk(s) && (th.Some? ==> IsThread(s, th.value) && Get(s, th.value).active)
  {
    if th.None? then s else Disable(s, th.value, drained)
  }

  lemma CoresFrame(s: State, cores: seq<Core>)
    requires ProcsOk(s)
    ensures ProcsOk(s.(cores := cores))
  {
    hide ProcOk;
    var s' := s.(cores := cores);
    assert forall x :: IsThread(s', x) ==> IsThread(s, x) && Get(s', x) == Get(s, x);
  }

  /** Core `n` changes to `c`: kthread `out` leaves it, and the kthread of the hole enters. */
  ghost predicate IsReplacement(s: State, hole: Option<Th>, n: nat, out: Option<Th>, c: Core) {
    && n < NCPU == |s.cores| && FlagsOk(c)
    && (hole.Some? ==> IsThread(s, hole.value) && Get(s, hole.value) == Thread(true, Some(n)))
    && (out.Some? ==> out.value in Occupants(s.cores[n]))
    && Occupants(c) == Occupants(s.cores[n]) - (if out.Some? then {out.value} else {})
                     + (if hole.Some? then {hole.value} else {})
  }

  lemma ReplacedCores(s: State, m: Machine, hole: Option<Th>, n: nat, out: Option<Th>, c: Core, s': State)
    requires CoresOk(s, m, hole) && IsReplacement(s, hole, n, out, c)
    requires s'.cores == s.cores[n := c]
    requires forall x :: IsThread(s', x) <==> IsThread(s, x)
    requires forall x :: IsThread(s', x) ==>
      Get(s', x) == if Some(x) == out then Get(s, x).(active := false) else Get(s, x)
    ensures CoresOk(s', m, None)
  {
    hide FlagsOk, Occupants;
    forall th | IsThread(s', th) && Get(s', th).active ensures IsPlaced(s', th) {
      assert IsPlaced(s, th) || Some(th) == hole;
    }
  }

  lemma Replace(s: State, m: Machine, hole: Option<Th>, n: nat, out: Option<Th>, c: Core, drained: bool)
    requires ProcsOk(s) && CoresOk(s, m, hole) && IsReplacement(s, hole, n, out, c)
    ensures out.Some? ==> IsThread(s, out.value) && Get(s, out.value).active
    ensures var s' := Retire(s, out, drained).(cores := s.cores[n := c]); ProcsOk(s') && CoresOk(s', m, None)
  {
    hide FlagsOk, ProcsOk, Disable, Occupants;
    if out.Some? {
      DisableEffect(s, out.value, drained);
    }
    var s1 := Retire(s, out, drained);
    CoresFrame(s1, s.cores[n := c]);
    ReplacedCores(s, m, hole, n, out, c, s1.(cores := s.cores[n := c]));
  }

  // ---------------------------------------------------------------- operations

  /** The kernel's answers for one core during a poll, and whether the packet queues of kthreads
      that are taken off it are drained. */
  datatype Report = Report(done: bool, notBusy: bool, rewake: bool, drained: bool, drained2: bool)

  /** __sched_run: `th`, a kthread just activated for this core, is to run on it, or nothing is. */
  ghost function SchedRun(s: State, m: Machine, th: Option<Th>, n: nat, drained: bool): State
    requires ProcsOk(s) && CoresOk(s, m, th) && n < NCPU
  {
    var c := s.cores[n];
    assert c.cur.Some? ==> c.cur.value in Occupants(c);
    assert c.pendingTh.Some? ==> c.pendingTh.value in Occupants(c);
    if c.wait then
      Retire(s, c.pendingTh, drained).(cores := s.cores[n := c.(pendingTh := th, pending := true)])
    else
      Retire(s, c.cur, drained).(cores := s.cores[n := c.(cur := th, wait := true, idle := false)])
  }

  lemma SchedRunOk(s: State, m: Machine, th: Option<Th>, n: nat, drained: bool)
    requires ProcsOk(s) && CoresOk(s, m, th) && n < NCPU
    requires th.Some? ==> IsThread(s, th.value) && Get(s, th.value) == Thread(true, Some(n))
    ensures var s' := SchedRun(s, m, th, n, drained); ProcsOk(s') && CoresOk(s', m, None)
  {
    var c := s.cores[n];
    assert FlagsOk(c) && (th.Some? ==> th.value !in Occupants(c));
    if c.wait {
      Replace(s, m, th, n, c.pendingTh, c.(pendingTh := th, pending := true), drained);
    } else {
      Replace(s, m, th, n, c.cur, c.(cur := th, wait := true, idle := false), drained);
    }
  }

  /** sched_run_on_core; `None` is -EINVAL. */
  ghost function RunOnCore(s: State, m: Machine, p: nat, n: nat, drained: bool): (r: Option<State>)
    requires Inv(s, m) && p in s.procs
    ensures r.None? <==> s.procs[p].idle == [] || n !in m.allowed
  {
    if s.procs[p].idle == [] || n >= NCPU || n !in m.allowed then None
    else
      IdleAreThreads(s, p);
      var th := Th(p, Pick(s.procs[p], n, m.siblings[n]));
      EnabledCores(s, m, th, n);
      Some(SchedRun(Enable(s, th, n), m, Some(th), n, drained))
  }

  lemma IdleAreThreads(s: State, p: nat)
    requires ProcsOk(s) && p in s.procs
    ensures forall i :: 0 <= i < |s.procs[p].idle| ==> s.procs[p].idle[i] < |s.procs[p].threads|
  {
    assert ProcOk(s.procs[p]);
    assert forall i :: 0 <= i < |s.procs[p].idle| ==> s.procs[p].idle[i] in s.procs[p].idle;
  }

  lemma EnabledCores(s: State, m: Machine, th: Th, n: nat)
    requires Inv(s, m) && th.p in s.procs && th.idx in s.procs[th.p].idle && n in m.allowed && n < NCPU
    ensures IsThread(s, th)
    ensures var s' := Enable(s, th, n); ProcsOk(s') && CoresOk(s', m, Some(th))
  {
    hide FlagsOk, ProcsOk, Enable;
    EnableEffect(s, th, n);
    var s' := Enable(s, th, n);
    forall c, x | 0 <= c < NCPU && x in Occupants(s'.cores[c])
      ensures IsThread(s', x) && Get(s', x) == Thread(true, Some(c)) && x != th
    {
      assert x in Occupants(s.cores[c]);
    }
    forall x | IsThread(s', x) && Get(s', x).active ensures IsPlaced(s', x) || x == th {
      assert x != th ==> Get(s', x) == Get(s, x) && IsPlaced(s, x);
    }
  }

  /** sched_idle_on_core; a core that is not allowed is refused and nothing changes. */
  ghost function IdleOnCore(s: State, m: Machine, n: nat, drained: bool): State
    requires Inv(s, m)
  {
    if n >= NCPU || n !in m.allowed then s else SchedRun(s, m, None, n, drained)
  }

  /** First half of the fast pass of sched_poll: a request in flight was acknowledged. */
  ghost function FinishSwitch(s: State, m: Machine, n: nat, r: Report): State
    requires Inv(s, m) && n < NCPU
  {
    hide ProcOk, FlagsOk;
    var c := s.cores[n];
    assert c.cur.Some? ==> c.cur.value in Occupants(c);
    if !(c.wait && r.done) then s
    else if c.pending then
      Retire(s, c.cur, r.drained)
        .(cores := s.cores[n := c.(pendingTh := None, pending := false, cur := c.pendingTh)])
    else s.(cores := s.cores[n := c.(wait := false)])
  }

  datatype Polled = Polled(s: State, wentIdle: bool)

  /** Second half: the core went idle, and its kthread is rewoken or taken off. */
  ghost function CheckIdle(s: State, m: Machine, n: nat, r: Report): Polled
    requires Inv(s, m) && n < NCPU
  {
    var c := s.cores[n];
    assert c.cur.Some? ==> c.cur.value in Occupants(c);
    if c.wait || c.idle || !r.notBusy then Polled(s, false)
    else if c.cur.Some? && r.rewake then
      // sched_try_fast_rewake goes by the core the kthread names
      var home := Get(s, c.cur.value).core.value;
      Polled(s.(cores := s.cores[home := s.cores[home].(wait := true)]), false)
    else
      Polled(Retire(s, c.cur, r.drained2).(cores := s.cores[n := c.(cur := None, idle := true)]), true)
  }

  lemma FinishSwitchOk(s: State, m: Machine, n: nat, r: Report)
    requires Inv(s, m) && n < NCPU
    ensures Inv(FinishSwitch(s, m, n, r), m)
  {
    var c := s.cores[n];
    assert FlagsOk(c);
    if c.wait && r.done {
      if c.pending {
        Replace(s, m, None, n, c.cur, c.(pendingTh := None, pending := false, cur := c.pendingTh), r.drained);
      } else {
        Replace(s, m, None, n, None, c.(wait := false), r.drained);
      }
    }
  }

  lemma CheckIdleOk(s: State, m: Machine, n: nat, r: Report)
    requires Inv(s, m) && n < NCPU
    ensures Inv(CheckIdle(s, m, n, r).s, m)
  {
    var c := s.cores[n];
    assert FlagsOk(c);
    assert c.cur.Some? ==> c.cur.value in Occupants(c) && Get(s, c.cur.value).core == Some(n);
    hide ProcsOk, CoresOk, Retire;
    if !c.wait && !c.idle && r.notBusy {
      if c.cur.Some? && r.rewake {
        Replace(s, m, None, n, None, c.(wait := true), false);
        assert Retire(s, None, false) == s by { RetireNone(s, false); }
      } else {
        Replace(s, m, None, n, c.cur, c.(cur := None, idle := true), r.drained2);
      }
    }
  }

  lemma RetireNone(s: State, drained: bool)
    requires ProcsOk(s)
    ensures Retire(s, None, drained) == s
  {
  }

  /** The fast pass of sched_poll on one core. */
  ghost function PollCore(s: State, m: Machine, n: nat, r: Report): Polled
    requires Inv(s, m) && n < NCPU
  {
    FinishSwitchOk(s, m, n, r);
    CheckIdle(FinishSwitch(s, m, n, r), m, n, r)
  }

  lemma PollCoreOk(s: State, m: Machine, n: nat, r: Report)
    requires Inv(s, m) && n < NCPU
    ensures Inv(PollCore(s, m, n, r).s, m)
  {
    FinishSwitchOk(s, m, n, r);
    CheckIdleOk(FinishSwitch(s, m, n, r), m, n, r);
  }

  lemma RunOnCoreOk(s: State, m: Machine, p: nat, n: nat, drained: bool)
    requires Inv(s, m) && p in s.procs && RunOnCore(s, m, p, n, drained).Some?
    ensures Inv(RunOnCore(s, m, p, n, drained).value, m)
  {
    IdleAreThreads(s, p);
    var th := Th(p, Pick(s.procs[p], n, m.siblings[n]));
    EnabledCores(s, m, th, n);
    EnableEffect(s, th, n);
    SchedRunOk(Enable(s, th, n), m, Some(th), n, drained);
  }

  lemma IdleOnCoreOk(s: State, m: Machine, n: nat, drained: bool)
    requires Inv(s, m)
    ensures Inv(IdleOnCore(s, m, n, drained), m)
  {
    if n < NCPU && n in m.allowed {
      SchedRunOk(s, m, None, n, drained);
    }
  }

  /** A process none of whose kthreads ever ran. */
  function FreshProc(threads: nat): Proc {
    Proc(seq(threads, _ => Thread(false, None)), SwapArray([], map[]), seq(threads, i requires i >= 0 => i),
         seq(threads, _ => 0))
  }

  lemma FreshProcOk(threads: nat)
    ensures ProcOk(FreshProc(threads))
    ensures forall i :: 0 <= i < |FreshProc(threads).threads| ==> FreshProc(threads).threads[i] == Thread(false, None)
  {
    var p := FreshProc(threads);
    forall i | 0 <= i < threads ensures i in p.idle {
      assert p.idle[i] == i;
    }
  }

  /** sched_attach_proc */
  ghost function AttachProc(s: State, p: nat, threads: nat): State
    requires p !in s.procs
  {
    s.(procs := s.procs[p := FreshProc(threads)])
  }

  /** Nothing about the kthreads of `s` changes, and those that are new in `s'` never ran. */
  ghost predicate OnlyFresh(s: State, s': State) {
    && s'.cores == s.cores
    && (forall x :: IsThread(s, x) ==> IsThread(s', x) && Get(s', x) == Get(s, x))
    && (forall x :: IsThread(s', x) && !IsThread(s, x) ==> Get(s', x) == Thread(false, None))
  }

  lemma OnlyFreshOk(s: State, s': State, m: Machine)
    requires CoresOk(s, m, None) && OnlyFresh(s, s')
    ensures CoresOk(s', m, None)
  {
    hide FlagsOk, Occupants;
    forall x | IsThread(s', x) && Get(s', x).active ensures IsPlaced(s', x) {
      assert IsPlaced(s, x);
    }
  }

  lemma AttachedProcs(s: State, p: nat, added: Proc)
    requires ProcsOk(s) && p !in s.procs && ProcOk(added)
    requires forall i :: 0 <= i < |added.threads| ==> added.threads[i] == Thread(false, None)
    ensures var s' := s.(procs := s.procs[p := added]); ProcsOk(s') && OnlyFresh(s, s')
  {
    hide ProcOk;
    var s' := s.(procs := s.procs[p := added]);
    assert forall x :: IsThread(s, x) ==> IsThread(s', x) && Get(s', x) == Get(s, x);
    assert forall x :: IsThread(s', x) && !IsThread(s, x) ==> Get(s', x) == Thread(false, None);
  }

  lemma AttachProcOk(s: State, m: Machine, p: nat, threads: nat)
    requires Inv(s, m) && p !in s.procs
    ensures Inv(AttachProc(s, p, threads), m)
  {
    FreshProcOk(threads);
    hide ProcsOk, CoresOk, OnlyFresh, FreshProc;
    AttachedProcs(s, p, FreshProc(threads));
    OnlyFreshOk(s, AttachProc(s, p, threads), m);
  }

  /** The transmit path stops polling a kthread that is not active and has nothing queued. */
  ghost function Unpoll(s: State, th: Th): State
    requires ProcsOk(s)
  {
    if IsThread(s, th) && !Get(s, th).active && th in s.polled.pos
    then s.(polled := s.polled.Remove(th)) else s
  }

  lemma UnpollOk(s: State, m: Machine, th: Th)
    requires Inv(s, m)
    ensures Inv(Unpoll(s, th), m)
  {
    hide ProcOk, CoresOk;
    var s' := Unpoll(s, th);
    assert OnlyFresh(s, s');
    OnlyFreshOk(s, s', m);
  }

  // ---------------------------------------------------------------- what the policy relies on

  /** The thread last requested on a core. */
  function Latest(c: Core): Option<Th> {
    if c.pending then c.pendingTh else c.cur
  }

  lemma RetireFrame(s: State, th: Option<Th>, drained: bool)
    requires ProcsOk(s) && (th.Some? ==> IsThread(s, th.value) && Get(s, th.value).active)
    ensures Retire(s, th, drained).procs.Keys == s.procs.Keys && Retire(s, th, drained).cores == s.cores
  {
    hide ProcsOk, DisableIn;
  }

  lemma SchedRunEffect(s: State, m: Machine, th: Option<Th>, n: nat, drained: bool)
    requires ProcsOk(s) && CoresOk(s, m, th) && n < NCPU
    ensures var s' := SchedRun(s, m, th, n, drained);
      && s'.procs.Keys == s.procs.Keys && |s'.cores| == |s.cores| == NCPU
      && s'.cores == s.cores[n := s'.cores[n]] && Latest(s'.cores[n]) == th
  {
    var c := s.cores[n];
    assert c.cur.Some? ==> c.cur.value in Occupants(c);
    assert c.pendingTh.Some? ==> c.pendingTh.value in Occupants(c);
    assert FlagsOk(c);
    hide ProcsOk, DisableIn, Retire;
    RetireFrame(s, if c.wait then c.pendingTh else c.cur, drained);
  }

  /** Asking for a core puts a kthread of that process last on it, and touches no other core. */
  lemma RunOnCoreEffect(s: State, m: Machine, p: nat, n: nat, drained: bool)
    requires Inv(s, m) && p in s.procs && RunOnCore(s, m, p, n, drained).Some?
    ensures n < NCPU && |s.cores| == NCPU
    ensures var s' := RunOnCore(s, m, p, n, drained).value;
      && s'.procs.Keys == s.procs.Keys
      && |s'.cores| == NCPU && s'.cores == s.cores[n := s'.cores[n]]
      && Latest(s'.cores[n]).Some? && Latest(s'.cores[n]).value.p == p
  {
    IdleAreThreads(s, p);
    var th := Th(p, Pick(s.procs[p], n, m.siblings[n]));
    EnabledCores(s, m, th, n);
    EnableEffect(s, th, n);
    SchedRunEffect(Enable(s, th, n), m, Some(th), n, drained);
    hide ProcsOk, CoresOk, SchedRun, Pick, Enable;
  }

  lemma FinishSwitchEffect(s: State, m: Machine, n: nat, r: Report)
    requires Inv(s, m) && n < NCPU
    ensures var s' := FinishSwitch(s, m, n, r);
      && s'.procs.Keys == s.procs.Keys && |s'.cores| == |s.cores| == NCPU
      && s'.cores == s.cores[n := s'.cores[n]] && Latest(s'.cores[n]) == Latest(s.cores[n])
  {
    var c := s.cores[n];
    assert c.cur.Some? ==> c.cur.value in Occupants(c);
    hide ProcsOk, DisableIn, Retire;
    RetireFrame(s, c.cur, r.drained);
  }

  lemma CheckIdleEffect(s: State, m: Machine, n: nat, r: Report)
    requires Inv(s, m) && n < NCPU
    ensures var s' := CheckIdle(s, m, n, r).s;
      && s'.procs.Keys == s.procs.Keys && |s'.cores| == |s.cores| == NCPU
      && s'.cores == s.cores[n := s'.cores[n]]
      && (CheckIdle(s, m, n, r).wentIdle || Latest(s'.cores[n]) == Latest(s.cores[n]))
  {
    var c := s.cores[n];
    assert c.cur.Some? ==> c.cur.value in Occupants(c) && Get(s, c.cur.value).core == Some(n);
    hide ProcsOk, DisableIn, Retire;
    RetireFrame(s, c.cur, r.drained2);
  }

  /** Polling a core changes what was last requested on it only if the core is reported idle. */
  lemma PollCoreEffect(s: State, m: Machine, n: nat, r: Report)
    requires Inv(s, m) && n < NCPU
    ensures var s' := PollCore(s, m, n, r).s;
      && s'.procs.Keys == s.procs.Keys && |s'.cores| == |s.cores| == NCPU
      && s'.cores == s.cores[n := s'.cores[n]]
      && (PollCore(s, m, n, r).wentIdle || Latest(s'.cores[n]) == Latest(s.cores[n]))
  {
    FinishSwitchOk(s, m, n, r);
    FinishSwitchEffect(s, m, n, r);
    CheckIdleEffect(FinishSwitch(s, m, n, r), m, n, r);
    hide Inv, FinishSwitch, CheckIdle;
  }

  /** Active and idle kthreads make up all kthreads, so "none available" means an empty idle list. */
  lemma Available(p: Proc)
    requires ProcOk(p)
    ensures |p.active.items| + |p.idle| == |p.threads|
  {
    NoDuplicates(p.active);
    hide FlowsOk;
    Partition(p.active.items, p.idle, |p.threads|);
  }

  // ---------------------------------------------------------------- runs, under any policy

  datatype Event =
    | Attach(p: nat, threads: nat)
    | Run(p: nat, core: nat, drained: bool)
    | Idle(core: nat, drained: bool)
    | Poll(core: nat, report: Report)
    | StopPolling(th: Th)

  predicate IsEvent(s: State, e: Event) {
    match e
    case Attach(p, _) => p !in s.procs
    case Run(p, _, _) => p in s.procs
    case Poll(core, _) => core < NCPU
    case _ => true
  }

  ghost function Do(s: State, m: Machine, e: Event): State
    requires Inv(s, m) && IsEvent(s, e)
  {
    match e
    case Attach(p, threads) => AttachProc(s, p, threads)
    case Run(p, core, drained) =>
      var r := RunOnCore(s, m, p, core, drained);
      if r.Some? then r.value else s
    case Idle(core, drained) => IdleOnCore(s, m, core, drained)
    case Poll(core, report) => PollCore(s, m, core, report).s
    case StopPolling(th) => Unpoll(s, th)
  }

  lemma DoKeepsInv(s: State, m: Machine, e: Event)
    requires Inv(s, m) && IsEvent(s, e)
    ensures Inv(Do(s, m, e), m)
  {
    match e
    case Attach(p, threads) => AttachProcOk(s, m, p, threads);
    case Run(p, core, drained) =>
      if RunOnCore(s, m, p, core, drained).Some? {
        RunOnCoreOk(s, m, p, core, drained);
      }
    case Idle(core, drained) => IdleOnCoreOk(s, m, core, drained);
    case Poll(core, report) => PollCoreOk(s, m, core, report);
    case StopPolling(th) => UnpollOk(s, m, th);
  }

  function Boot(): State {
    State(map[], seq(NCPU, _ => Core(None, None, false, false, false)), SwapArray([], map[]))
  }

  /** A run from boot; outside the invariant, where the operations are not defined, anything may
      follow. */
  ghost predicate IsRun(run: seq<State>, events: seq<Event>, m: Machine) {
    && MachineOk(m) && |run| == |events| + 1 && run[0] == Boot()
    && forall i :: 0 <= i < |events| ==> IsStep(run[i], events[i], run[i + 1], m)
  }

  ghost predicate IsStep(s: State, e: Event, s': State, m: Machine) {
    Inv(s, m) ==> IsEvent(s, e) && s' == Do(s, m, e)
  }

  lemma {:induction false} RunKeepsInv(run: seq<State>, events: seq<Event>, m: Machine, i: nat)
    requires IsRun(run, events, m) && i < |run|
    ensures Inv(run[i], m)
  {
    if i > 0 {
      RunKeepsInv(run, events, m, i - 1);
      assert IsStep(run[i - 1], events[i - 1], run[i - 1 + 1], m);
      hide Inv, Do;
      DoKeepsInv(run[i - 1], m, events[i - 1]);
    }
  }

  ghost predicate IsOnSome(s: State, th: Th) {
    exists c :: 0 <= c < |s.cores| && th in Occupants(s.cores[c])
  }

  lemma PlacedOf(s: State, m: Machine, th: Th)
    requires CoresOk(s, m, None) && IsThread(s, th)
    ensures Get(s, th).active <==> IsOnSome(s, th)
    ensures forall c :: 0 <= c < NCPU && th in Occupants(s.cores[c]) ==> Get(s, th).core == Some(c)
  {
    hide FlagsOk, Occupants;
    if Get(s, th).active {
      assert IsPlaced(s, th);
    }
  }

  /** At every moment of every run: a kthread is active exactly if it is current or next on some
      core, then only on that one, which is the core it names; active kthreads are polled. */
  lemma ActiveIsPlaced(run: seq<State>, events: seq<Event>, m: Machine, i: nat, th: Th)
    requires IsRun(run, events, m) && i < |run| && IsThread(run[i], th)
    ensures |run[i].cores| == NCPU
    ensures Get(run[i], th).active <==> IsOnSome(run[i], th)
    ensures forall c :: 0 <= c < NCPU && th in Occupants(run[i].cores[c]) ==> Get(run[i], th).core == Some(c)
    ensures Get(run[i], th).active ==> th in run[i].polled.items
  {
    RunKeepsInv(run, events, m, i);
    PlacedOf(run[i], m, th);
    var s := run[i];
    hide IsRun, ProcOk, FlagsOk, IsOnSome, Occupants;
    if Get(s, th).active {
      assert s.polled.items[s.polled.pos[th]] == th;
    }
  }

  /** At every moment of every run: an idle core has no kthread and no request, and a kthread is
      never both current and next. */
  lemma IdleIsEmpty(run: seq<State>, events: seq<Event>, m: Machine, i: nat, c: nat)
    requires IsRun(run, events, m) && i < |run| && c < NCPU
    ensures |run[i].cores| == NCPU
    ensures run[i].cores[c].idle ==> run[i].cores[c] == Core(None, None, true, false, false)
    ensures run[i].cores[c].cur.Some? ==> run[i].cores[c].cur != run[i].cores[c].pendingTh
  {
    RunKeepsInv(run, events, m, i);
    hide IsRun, ProcsOk;
    assert FlagsOk(run[i].cores[c]);
  }

  /** At every moment of every run: the active array, whose position fields are exact, and the idle
      list split the kthreads of a process; and as long as any is active, every flow index goes to an
      active kthread, the one that the steering gives it. */
  lemma ThreadsAreSplit(run: seq<State>, events: seq<Event>, m: Machine, i: nat, q: nat)
    requires IsRun(run, events, m) && i < |run| && q in run[i].procs
    ensures var p := run[i].procs[q];
      && p.active.Valid() && |p.active.items| + |p.idle| == |p.threads| == |p.flows|
      && (forall k :: 0 <= k < |p.threads| ==> if p.threads[k].active then k in p.active.items && k !in p.idle
                                                                     else k in p.idle && k !in p.active.items)
      && (p.active.items != [] ==>
            forall k :: 0 <= k < |p.flows| ==>
              p.flows[k] in p.active.items && p.flows[k] == Flows.Target(p.active.items, k))
  {
    RunKeepsInv(run, events, m, i);
    hide CoresOk;
    var p := run[i].procs[q];
    assert ProcOk(p);
    Available(p);
    NoDuplicates(p.active);
  }

  /** At every moment of every run: each active kthread has the flow index of its own, and no two
      active kthreads of a process differ by more than one in their number of flow indices. */
  lemma FlowsAreBalanced(run: seq<State>, events: seq<Event>, m: Machine, i: nat, q: nat, x: nat, y: nat)
    requires IsRun(run, events, m) && i < |run| && q in run[i].procs
    requires x < |run[i].procs[q].active.items| && y < |run[i].procs[q].active.items|
    ensures var p := run[i].procs[q];
      && p.active.items[x] < |p.flows| && p.flows[p.active.items[x]] == p.active.items[x]
      && (x != y ==> p.active.items[x] != p.active.items[y])
      && Flows.Load(p.active.items, |p.threads|, p.active.items[x])
           <= Flows.Load(p.active.items, |p.threads|, p.active.items[y]) + 1
  {
    RunKeepsInv(run, events, m, i);
    hide CoresOk;
    var p := run[i].procs[q];
    assert ProcOk(p);
    NoDuplicates(p.active);
    Flows.Balanced(p.active.items, |p.threads|, x, y);
  }
}
