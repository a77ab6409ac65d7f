/**
 The run-request handshake between the IOKernel and the kernel module, for one core.

 The IOKernel posts a request by writing a task id and then a new generation number to shared
 memory; the core consumes it, from its idle loop or when its task parks, and acknowledges the
 generation.  Everything the protocol keeps is per core, so one core is modelled, with the
 IOKernel and the core interleaved at every access to the shared fields.
 */
module Handshake {
  import opened Prelude

  type Tid = nat      // 0 asks the core to idle

  /** The IOKernel between stores: `Starting` is about to write a task id, `Posting` the generation. */
  datatype IoPc = Polling | Starting(th: Tid) | Posting

  /** ksched_gens[core] and struct core_state. */
  datatype IoCore = IoCore(gens: nat, wait: bool, pending: Option<Tid>, cur: Tid, idle: bool, pc: IoPc)

  /** struct ksched_shm_cpu; `acked` is its last_gen. */
  datatype Shm = Shm(gen: nat, tid: Tid, sig: nat, busy: bool, acked: nat)

  /** The core inside ksched_idle, ksched_park and ksched_next_tid. */
  datatype CorePc =
    | Outside
    | IdleEntered                       // no task running any more
    | IdleClearing                      // about to report the core as not busy
    | IdleWaiting                       // mwait on the generation
    | ParkEntered(current: Tid)
    | ParkReporting                     // about to report the core as not busy
    | ParkClearing                      // reported, about to drop the running task
    | Consuming(parker: Option<Tid>)    // a new generation was seen and recorded
    | Switching(tid: Tid)               // its task id was read
    | Reporting                         // the task was switched
    | SelfWaking                        // the parking task is to go on
    | Acking                            // about to publish the generation as done

  /** struct ksched_percpu; signals are only delivered while `busy`. */
  datatype Core = Core(lastGen: nat, running: Option<Tid>, busy: bool, pc: CorePc)

  /** History: the task id of each generation posted, those read by the core, signals delivered,
      and the generations a task was woken for that parked while another was on record. */
  datatype Log = Log(posted: seq<Tid>, consumed: seq<Tid>, signalled: seq<(nat, Tid)>, strays: set<nat>)

  datatype State = State(io: IoCore, shm: Shm, core: Core, log: Log)

  /** Generations count from the one the module was loaded with, here 0. */
  function Boot(): State {
    State(IoCore(0, false, None, 0, false, Polling), Shm(0, 0, 0, false, 0), Core(0, None, false, Outside),
          Log([], [], [], {}))
  }

  datatype IoAction =
    | Run(th: Tid)            // __sched_run
    | StoreTid                // ksched_run, first store
    | StoreGen                // ksched_run, second store
    | PollDone                // sched_poll: did the last request finish?
    | PollIdle(again: bool)   // sched_poll: did the core go idle?  `again`: fast rewake

  datatype CoreAction =
    | EnterIdle(exiting: bool)
    | CheckGen
    | ClearBusy
    | Wake
    | EnterPark(current: Tid)
    | CheckPark
    | DropTask
    | ReadTid
    | SwitchTask(found: bool)
    | WriteBusy
    | Ack
    | Interrupt

  // ---------------------------------------------------------------- the IOKernel

  predicate IoEnabled(s: State, a: IoAction) {
    match a
    case Run(_) => s.io.pc.Polling?
    case StoreTid => s.io.pc.Starting?
    case StoreGen => s.io.pc.Posting?
    case PollDone => s.io.pc.Polling? && s.io.wait && s.shm.acked == s.io.gens
    case PollIdle(again) =>
      s.io.pc.Polling? && !s.io.wait && !s.io.idle && !s.shm.busy && (again ==> s.io.cur != 0)
  }

  /** The IOKernel commits to a new request; `intr` enqueues the interrupt for the task it
      replaces, tagged with that task's generation. */
  function Request(s: State, th: Tid, intr: bool): State {
    s.(io := s.io.(cur := th, wait := true, idle := false, pc := Starting(th)),
       shm := if intr then s.shm.(sig := s.io.gens) else s.shm)
  }

  function IoDo(s: State, a: IoAction): State
    requires IoEnabled(s, a)
  {
    match a
    case Run(th) =>
      if s.io.wait then s.(io := s.io.(pending := Some(th)))
      else Request(s, th, !s.io.idle && s.io.cur != 0)
    case StoreTid =>
      s.(io := s.io.(gens := s.io.gens + 1, pc := Posting), shm := s.shm.(tid := s.io.pc.th),
         log := s.log.(posted := s.log.posted + [s.io.pc.th]))
    case StoreGen => s.(io := s.io.(pc := Polling), shm := s.shm.(gen := s.io.gens))
    case PollDone =>
      if s.io.pending.Some? then Request(s.(io := s.io.(pending := None)), s.io.pending.value, true)
      else s.(io := s.io.(wait := false))
    case PollIdle(again) =>
      if again then Request(s, s.io.cur, false) else s.(io := s.io.(idle := true, cur := 0))
  }

  // ---------------------------------------------------------------- the core

  predicate CoreEnabled(s: State, a: CoreAction) {
    var pc := s.core.pc;
    match a
    case EnterIdle(_) => pc.Outside?
    case CheckGen => pc.IdleEntered?
    case ClearBusy => pc.IdleClearing? || pc.ParkReporting?
    case Wake => pc.IdleWaiting?
    // any task: one that was signalled while it parked parks again, whoever is on record by then
    case EnterPark(t) => pc.Outside? && t != 0
    case CheckPark => pc.ParkEntered?
    case DropTask => pc.ParkClearing?
    case ReadTid => pc.Consuming?
    case SwitchTask(found) => pc.Switching?
    case WriteBusy => pc.Reporting? || pc.SelfWaking?
    case Ack => pc.Acking?
    case Interrupt => true     // an IPI is taken at any point of the core's code
  }

  /** The task woken is the one that parks, and another one is on record as running. */
  predicate IsStray(s: State) {
    && s.core.pc.Consuming? && s.core.pc.parker == Some(s.shm.tid)
    && s.core.running.Some? && s.core.running.value != s.shm.tid
  }

  function CoreDo(s: State, a: CoreAction): State
    requires CoreEnabled(s, a)
  {
    var c := s.core;
    match a
    case EnterIdle(exiting) =>
      if c.running.None? || exiting then s.(core := c.(running := None, busy := false, pc := IdleEntered))
      else s
    case CheckGen =>
      s.(core := c.(pc := if s.shm.busy && s.shm.gen == c.lastGen then IdleClearing else IdleWaiting))
    case ClearBusy =>
      s.(core := c.(pc := if c.pc.IdleClearing? then IdleWaiting else ParkClearing),
         shm := s.shm.(busy := false))
    case Wake =>
      if s.shm.gen == c.lastGen then s.(core := c.(pc := Outside))
      else s.(core := c.(lastGen := s.shm.gen, pc := Consuming(None)))
    case EnterPark(t) => s.(core := c.(busy := false, pc := ParkEntered(t)))
    case CheckPark =>
      if s.shm.gen == c.lastGen then s.(core := c.(pc := ParkReporting))
      else s.(core := c.(lastGen := s.shm.gen, pc := Consuming(Some(c.pc.current))))
    case DropTask => s.(core := c.(running := None, pc := Outside))
    case ReadTid =>
      s.(core := c.(pc := if c.pc.parker == Some(s.shm.tid) then SelfWaking else Switching(s.shm.tid)),
         log := s.log.(consumed := s.log.consumed + [s.shm.tid],
                       strays := s.log.strays + if IsStray(s) then {c.lastGen} else {}))
    case SwitchTask(found) =>
      s.(core := c.(running := if c.pc.tid != 0 && found then Some(c.pc.tid) else None, pc := Reporting))
    case WriteBusy =>
      s.(core := c.(busy := true, pc := Acking), shm := s.shm.(busy := c.pc.SelfWaking? || c.running.Some?))
    case Ack => s.(core := c.(pc := Outside), shm := s.shm.(acked := c.lastGen))
    case Interrupt =>
      if s.shm.sig != c.lastGen then s
      else if !c.busy || c.running.None? then s.(shm := s.shm.(sig := 0))
      else s.(shm := s.shm.(sig := 0),
              log := s.log.(signalled := s.log.signalled + [(s.shm.sig, c.running.value)]))
  }

  // ---------------------------------------------------------------- the invariant

  /** The core has seen the newest generation and not yet acknowledged it. */
  predicate Serving(pc: CorePc) {
    pc.Consuming? || pc.Switching? || pc.Reporting? || pc.SelfWaking? || pc.Acking?
  }

  /** The counters: at most one request is outstanding, and it is in exactly one place. */
  predicate Generations(io: IoCore, shm: Shm, core: Core) {
    && shm.gen == (if io.pc.Posting? then io.gens - 1 else io.gens)
    && (!io.pc.Polling? ==> io.wait && shm.acked == shm.gen)
    && (!io.wait ==> shm.acked == shm.gen)
    && shm.acked <= core.lastGen <= shm.gen <= shm.acked + 1
    && (Serving(core.pc) <==> shm.acked < core.lastGen)
    && shm.sig <= shm.acked
    && (io.idle ==> io.pc.Polling? && !io.wait && io.cur == 0 && !shm.busy)
    && (io.pending.Some? ==> io.wait)
  }

  /** What has been consumed is what was posted, in order. */
  predicate Consumption(io: IoCore, shm: Shm, core: Core, log: Log) {
    && |log.posted| == io.gens
    && (io.gens > 0 ==> shm.tid == log.posted[io.gens - 1])
    && |log.consumed| == (if core.pc.Consuming? then core.lastGen - 1 else core.lastGen) <= |log.posted|
    && log.consumed == log.posted[..|log.consumed|]
  }

  /** The task on record between switches, and every task signalled, is the one posted for the
      generation it is taken for, unless that generation is a stray one. */
  predicate Tasks(core: Core, log: Log) {
    var g := core.lastGen;
    && g <= |log.posted| && (Serving(core.pc) ==> g > 0)
    && (core.pc.Consuming? || core.pc.Switching? ==> g !in log.strays)
    && (core.pc.Switching? ==> core.pc.tid == log.posted[g - 1])
    && (core.running.Some? && !core.pc.Consuming? && !core.pc.Switching? ==>
          0 < g && (core.running.value == log.posted[g - 1] <==> g !in log.strays))
    && (forall x :: x in log.strays ==> x <= g)
    && forall i :: 0 <= i < |log.signalled| ==> SignalOk(core, log, log.signalled[i])
  }

  predicate SignalOk(core: Core, log: Log, sent: (nat, Tid)) {
    && 0 < sent.0 <= core.lastGen && (core.pc.Consuming? ==> sent.0 < core.lastGen)
    && sent.0 <= |log.posted| && (sent.1 == log.posted[sent.0 - 1] <==> sent.0 !in log.strays)
  }

  /** A task is running only on a core that says it is busy, or is in the middle of a switch. */
  predicate Reports(shm: Shm, core: Core) {
    && (core.running.Some? && !core.pc.ParkClearing? && !Serving(core.pc) ==> shm.busy)
    && (core.pc.Acking? && core.running.Some? ==> shm.busy)
    && (core.pc.IdleEntered? || core.pc.IdleClearing? || core.pc.IdleWaiting? ==> core.running.None?)
  }

  predicate Inv(s: State) {
    && Generations(s.io, s.shm, s.core) && Consumption(s.io, s.shm, s.core, s.log)
    && Tasks(s.core, s.log) && Reports(s.shm, s.core)
  }

  lemma IoGenerations(s: State, a: IoAction)
    requires Inv(s) && IoEnabled(s, a)
    ensures var s' := IoDo(s, a); Generations(s'.io, s'.shm, s'.core)
  {
    hide Consumption, Tasks, Reports;
  }

  lemma IoTasks(s: State, a: IoAction)
    requires Inv(s) && IoEnabled(s, a)
    ensures var s' := IoDo(s, a);
      Consumption(s'.io, s'.shm, s'.core, s'.log) && Tasks(s'.core, s'.log) && Reports(s'.shm, s'.core)
  {
    if a.StoreTid? {
      var n := |s.log.consumed|;
      assert (s.log.posted + [s.io.pc.th])[..n] == s.log.posted[..n];
    }
  }

  lemma CoreGenerations(s: State, a: CoreAction)
    requires Inv(s) && CoreEnabled(s, a)
    ensures var s' := CoreDo(s, a); Generations(s'.io, s'.shm, s'.core)
  {
    hide Consumption, Tasks, Reports;
  }

  lemma CoreConsumption(s: State, a: CoreAction)
    requires Inv(s) && CoreEnabled(s, a)
    ensures var s' := CoreDo(s, a); Consumption(s'.io, s'.shm, s'.core, s'.log)
  {
    hide Tasks, Reports;
    if a.ReadTid? {
      var n := s.core.lastGen - 1;
      assert s.log.posted[..n + 1] == s.log.posted[..n] + [s.log.posted[n]];
    }
  }

  lemma CoreTasks(s: State, a: CoreAction)
    requires Inv(s) && CoreEnabled(s, a)
    ensures var s' := CoreDo(s, a); Tasks(s'.core, s'.log)
  {
    hide Reports;
  }

  lemma CoreReports(s: State, a: CoreAction)
    requires Inv(s) && CoreEnabled(s, a)
    ensures var s' := CoreDo(s, a); Reports(s'.shm, s'.core)
  {
    hide Consumption, Tasks;
  }

  // ---------------------------------------------------------------- whole runs

  datatype Action = Io(io: IoAction) | OnCore(core: CoreAction)

  ghost predicate IsStep(s: State, a: Action, s': State) {
    match a
    case Io(b) => IoEnabled(s, b) && s' == IoDo(s, b)
    case OnCore(b) => CoreEnabled(s, b) && s' == CoreDo(s, b)
  }

  /** `run` starts at boot and each state follows by one step of the IOKernel or of the core. */
  ghost predicate IsRun(run: seq<State>, actions: seq<Action>) {
    && |run| == |actions| + 1 && run[0] == Boot()
    && forall i :: 0 <= i < |actions| ==> IsStep(run[i], actions[i], run[i + 1])
  }

  lemma StepKeepsInv(s: State, a: Action, s': State)
    requires Inv(s) && IsStep(s, a, s')
    ensures Inv(s')
  {
    hide Generations, Consumption, Tasks, Reports, IoDo, CoreDo, IoEnabled, CoreEnabled;
    match a
    case Io(b) =>
      IoGenerations(s, b);
      IoTasks(s, b);
    case OnCore(b) =>
      CoreGenerations(s, b);
      CoreConsumption(s, b);
      CoreTasks(s, b);
      CoreReports(s, b);
  }

  lemma {:induction false} RunKeepsInv(run: seq<State>, actions: seq<Action>, i: nat)
    requires IsRun(run, actions) && i < |run|
    ensures Inv(run[i])
  {
    if i > 0 {
      RunKeepsInv(run, actions, i - 1);
      StepKeepsInv(run[i - 1], actions[i - 1], run[i]);
    }
  }

  /** In every interleaving at most one request is unacknowledged. */
  lemma OneOutstanding(run: seq<State>, actions: seq<Action>, i: nat)
    requires IsRun(run, actions) && i < |run|
    ensures run[i].shm.acked <= run[i].io.gens <= run[i].shm.acked + 1
  {
    RunKeepsInv(run, actions, i);
  }

  /** The core consumes every generation once and in order, each with the task id posted for it:
      what it has read is a prefix of what was posted, never short of what it acknowledged. */
  lemma ConsumesInOrder(run: seq<State>, actions: seq<Action>, i: nat)
    requires IsRun(run, actions) && i < |run|
    ensures run[i].log.consumed <= run[i].log.posted && |run[i].log.posted| == run[i].io.gens
    ensures run[i].shm.acked <= |run[i].log.consumed|
    ensures i < |actions| && actions[i] == OnCore(ReadTid) ==>
      && 0 < run[i].core.lastGen <= |run[i].log.posted|
      && run[i + 1].log.consumed == run[i].log.consumed + [run[i].log.posted[run[i].core.lastGen - 1]]
      && |run[i + 1].log.consumed| == run[i].core.lastGen
  {
    RunKeepsInv(run, actions, i);
    if i < |actions| {
      assert IsStep(run[i], actions[i], run[i + 1]);
    }
  }

  /** A core the IOKernel has declared idle runs no task; the only state in which the kernel has
      not yet let go of it is between the two writes of a park that is already under way. */
  lemma IdleMeansNoTask(run: seq<State>, actions: seq<Action>, i: nat)
    requires IsRun(run, actions) && i < |run| && run[i].io.idle
    ensures run[i].core.running.None? || run[i].core.pc.ParkClearing?
    ensures !run[i].io.wait && run[i].io.pending.None? && run[i].io.cur == 0
    ensures run[i].shm.acked == run[i].io.gens
  {
    RunKeepsInv(run, actions, i);
  }

  // ---------------------------------------------------------------- parking twice

  /** Step `k` wakes a task that parks while another one is on record. */
  predicate StrayStep(run: seq<State>, actions: seq<Action>, k: nat) {
    k < |actions| && k < |run| && actions[k] == OnCore(ReadTid) && IsStray(run[k])
  }

  /** The stray generations of a run are those consumed by such a step. */
  lemma {:induction false} StraysAreSteps(run: seq<State>, actions: seq<Action>, i: nat, g: nat)
    requires IsRun(run, actions) && i < |run|
    ensures g in run[i].log.strays <==> exists k :: 0 <= k < i && StrayStep(run, actions, k) && run[k].core.lastGen == g
  {
    if i > 0 {
      StraysAreSteps(run, actions, i - 1, g);
      assert IsStep(run[i - 1], actions[i - 1], run[i - 1 + 1]);
      if StrayStep(run, actions, i - 1) {
        assert run[i].log.strays == run[i - 1].log.strays + {run[i - 1].core.lastGen};
      } else {
        assert run[i].log.strays == run[i - 1].log.strays;
      }
    }
  }

  /** The task on record between switches is the one of the newest acknowledged request, exactly if
      that request was not consumed by a task that parked while another was on record. */
  lemma RunsNewestRequest(run: seq<State>, actions: seq<Action>, i: nat)
    requires IsRun(run, actions) && i < |run| && run[i].core.pc.Outside? && run[i].core.running.Some?
    ensures 0 < run[i].shm.acked <= |run[i].log.posted| && run[i].shm.busy
    ensures run[i].core.running.value == run[i].log.posted[run[i].shm.acked - 1] <==>
      !exists k :: 0 <= k < i && StrayStep(run, actions, k) && run[k].core.lastGen == run[i].shm.acked
  {
    RunKeepsInv(run, actions, i);
    StraysAreSteps(run, actions, i, run[i].shm.acked);
  }

  /** An interrupt sent for one generation is delivered to that generation's task, exactly if the
      generation was not consumed by a task that parked while another was on record. */
  lemma InterruptsHitTheirTask(run: seq<State>, actions: seq<Action>, i: nat, j: nat)
    requires IsRun(run, actions) && i < |run| && j < |run[i].log.signalled|
    ensures var (g, task) := run[i].log.signalled[j];
      && 0 < g <= |run[i].log.posted|
      && (task == run[i].log.posted[g - 1] <==>
            !exists k :: 0 <= k < i && StrayStep(run, actions, k) && run[k].core.lastGen == g)
  {
    RunKeepsInv(run, actions, i);
    assert SignalOk(run[i].core, run[i].log, run[i].log.signalled[j]);
    StraysAreSteps(run, actions, i, run[i].log.signalled[j].0);
  }

  /** So in a run in which every task that parks and is woken is the one on record, or none is, both
      hold throughout. */
  lemma NoStrays(run: seq<State>, actions: seq<Action>, i: nat)
    requires IsRun(run, actions) && i < |run| && forall k :: 0 <= k < i ==> !StrayStep(run, actions, k)
    ensures run[i].core.pc.Outside? && run[i].core.running.Some? ==>
      && 0 < run[i].shm.acked <= |run[i].log.posted|
      && run[i].core.running.value == run[i].log.posted[run[i].shm.acked - 1]
    ensures forall j :: 0 <= j < |run[i].log.signalled| ==>
      var (g, task) := run[i].log.signalled[j]; 0 < g <= |run[i].log.posted| && task == run[i].log.posted[g - 1]
  {
    if run[i].core.pc.Outside? && run[i].core.running.Some? {
      RunsNewestRequest(run, actions, i);
    }
    forall j | 0 <= j < |run[i].log.signalled|
      ensures var (g, task) := run[i].log.signalled[j]; 0 < g <= |run[i].log.posted| && task == run[i].log.posted[g - 1]
    {
      InterruptsHitTheirTask(run, actions, i, j);
    }
  }

  // ---------------------------------------------------------------- runs that show it

  /** A run from boot that ends in state `last`. */
  ghost predicate EndsIn(run: seq<State>, actions: seq<Action>, last: State) {
    IsRun(run, actions) && run[|run| - 1] == last
  }

  /** The state after `a`. */
  function Next(s: State, a: Action): State
    requires if a.Io? then IoEnabled(s, a.io) else CoreEnabled(s, a.core)
  {
    if a.Io? then IoDo(s, a.io) else CoreDo(s, a.core)
  }

  lemma Then(run: seq<State>, actions: seq<Action>, s: State, a: Action) returns (r: seq<State>, as': seq<Action>)
    requires EndsIn(run, actions, s) && if a.Io? then IoEnabled(s, a.io) else CoreEnabled(s, a.core)
    ensures EndsIn(r, as', Next(s, a)) && r == run + [Next(s, a)] && as' == actions + [a]
  {
    r, as' := run + [Next(s, a)], actions + [a];
    assert IsStep(s, a, Next(s, a));
    forall i | 0 <= i < |as'| ensures IsStep(r[i], as'[i], r[i + 1]) {
      assert i < |actions| ==> IsStep(run[i], actions[i], run[i + 1]);
    }
  }

  /** The IOKernel runs task `t`, which it has not been asked to wait for. */
  lemma Posts(run: seq<State>, actions: seq<Action>, s: State, t: Tid) returns (r: seq<State>, as': seq<Action>)
    requires EndsIn(run, actions, s) && s.io.pc.Polling? && !s.io.wait && !s.io.idle
    ensures EndsIn(r, as', s.(
      io := s.io.(cur := t, wait := true, gens := s.io.gens + 1),
      shm := s.shm.(sig := if s.io.cur != 0 then s.io.gens else s.shm.sig, tid := t, gen := s.io.gens + 1),
      log := s.log.(posted := s.log.posted + [t])))
  {
    hide EndsIn;
    r, as' := Then(run, actions, s, Io(Run(t)));
    var s1 := Next(s, Io(Run(t)));
    r, as' := Then(r, as', s1, Io(StoreTid));
    var s2 := Next(s1, Io(StoreTid));
    r, as' := Then(r, as', s2, Io(StoreGen));
  }

  /** The core reads the request, switches to its task, and the IOKernel sees it done. */
  lemma Switches(run: seq<State>, actions: seq<Action>, s: State) returns (r: seq<State>, as': seq<Action>)
    requires EndsIn(run, actions, s) && s.core.pc.Consuming? && s.core.pc.parker != Some(s.shm.tid) && s.shm.tid != 0
    requires s.io.pc.Polling? && s.io.wait && s.io.pending.None? && s.io.gens == s.core.lastGen
    ensures EndsIn(r, as', s.(
      io := s.io.(wait := false), shm := s.shm.(busy := true, acked := s.core.lastGen),
      core := s.core.(running := Some(s.shm.tid), busy := true, pc := Outside),
      log := s.log.(consumed := s.log.consumed + [s.shm.tid])))
  {
    hide EndsIn;
    r, as' := Then(run, actions, s, OnCore(ReadTid));
    var s1 := Next(s, OnCore(ReadTid));
    assert s1.log.strays == s.log.strays;
    r, as' := Then(r, as', s1, OnCore(SwitchTask(true)));
    var s2 := Next(s1, OnCore(SwitchTask(true)));
    r, as' := Then(r, as', s2, OnCore(WriteBusy));
    var s3 := Next(s2, OnCore(WriteBusy));
    r, as' := Then(r, as', s3, OnCore(Ack));
    var s4 := Next(s3, OnCore(Ack));
    r, as' := Then(r, as', s4, Io(PollDone));
  }

  /** Task 1 runs on the core. */
  function TaskOne(): State {
    State(IoCore(1, false, None, 1, false, Polling), Shm(1, 1, 0, true, 1), Core(1, Some(1), true, Outside),
          Log([1], [1], [], {}))
  }

  lemma RunsTaskOne() returns (run: seq<State>, actions: seq<Action>)
    ensures EndsIn(run, actions, TaskOne())
  {
    run, actions := [Boot()], [];
    assert EndsIn(run, actions, Boot());
    hide EndsIn;
    assert [] + [1] == [1];
    run, actions := Posts(run, actions, Boot(), 1);
    var s := State(IoCore(1, true, None, 1, false, Polling), Shm(1, 1, 0, false, 0), Core(0, None, false, Outside),
                   Log([1], [], [], {}));
    run, actions := Then(run, actions, s, OnCore(EnterIdle(false)));
    var s1 := Next(s, OnCore(EnterIdle(false)));
    run, actions := Then(run, actions, s1, OnCore(CheckGen));
    var s2 := Next(s1, OnCore(CheckGen));
    run, actions := Then(run, actions, s2, OnCore(Wake));
    run, actions := Switches(run, actions, Next(s2, OnCore(Wake)));
  }

  /** A core can be declared idle while the kernel still has a task on record for it: its task parks,
      and the IOKernel polls between the two writes. */
  lemma IdleWithTask() returns (run: seq<State>, actions: seq<Action>)
    ensures IsRun(run, actions)
    ensures var s := run[|run| - 1]; s.io.idle && s.core.running == Some(1) && s.core.pc.ParkClearing?
  {
    run, actions := RunsTaskOne();
    hide EndsIn;
    var s := TaskOne();
    run, actions := Then(run, actions, s, OnCore(EnterPark(1)));
    var s1 := Next(s, OnCore(EnterPark(1)));
    run, actions := Then(run, actions, s1, OnCore(CheckPark));
    var s2 := Next(s1, OnCore(CheckPark));
    run, actions := Then(run, actions, s2, OnCore(ClearBusy));
    var s3 := Next(s2, OnCore(ClearBusy));
    run, actions := Then(run, actions, s3, Io(PollIdle(false)));
    assert EndsIn(run, actions, Next(s3, Io(PollIdle(false))));
    LastOf(run, actions, Next(s3, Io(PollIdle(false))));
  }

  lemma LastOf(run: seq<State>, actions: seq<Action>, s: State)
    requires EndsIn(run, actions, s)
    ensures IsRun(run, actions) && run != [] && run[|run| - 1] == s
  {
  }

  /** Task 1 has parked in favour of task 2, and parks again once it has been asked for again. */
  lemma ParksTwice() returns (run: seq<State>, actions: seq<Action>)
    ensures EndsIn(run, actions, State(
      IoCore(3, true, None, 1, false, Polling), Shm(3, 1, 2, true, 2), Core(3, Some(2), false, Consuming(Some(1))),
      Log([1, 2, 1], [1, 2], [], {})))
  {
    run, actions := RunsTaskOne();
    hide EndsIn;
    assert [1] + [2] == [1, 2] && [1, 2] + [1] == [1, 2, 1];
    run, actions := Posts(run, actions, TaskOne(), 2);
    var s := State(IoCore(2, true, None, 2, false, Polling), Shm(2, 2, 1, true, 1), Core(1, Some(1), true, Outside),
                   Log([1, 2], [1], [], {}));
    run, actions := Then(run, actions, s, OnCore(EnterPark(1)));
    var s1 := Next(s, OnCore(EnterPark(1)));
    run, actions := Then(run, actions, s1, OnCore(CheckPark));
    run, actions := Switches(run, actions, Next(s1, OnCore(CheckPark)));
    var s2 := State(IoCore(2, false, None, 2, false, Polling), Shm(2, 2, 1, true, 2), Core(2, Some(2), true, Outside),
                    Log([1, 2], [1, 2], [], {}));
    run, actions := Posts(run, actions, s2, 1);
    var s3 := State(IoCore(3, true, None, 1, false, Polling), Shm(3, 1, 2, true, 2), Core(2, Some(2), true, Outside),
                    Log([1, 2, 1], [1, 2], [], {}));
    run, actions := Then(run, actions, s3, OnCore(EnterPark(1)));
    run, actions := Then(run, actions, Next(s3, OnCore(EnterPark(1))), OnCore(CheckPark));
  }

  /** Both results fail in a run in which a task parks twice: the newest request is for task 1, which
      goes on running, task 2 is on record, and the interrupt that is to stop task 1 goes to task 2. */
  lemma ParkingTwiceMisdirects() returns (run: seq<State>, actions: seq<Action>, i: nat)
    ensures IsRun(run, actions) && i < |run| && run[i].core.pc.Outside?
    ensures run[i].shm.acked == 3 && run[i].log.posted == [1, 2, 1] && run[i].core.running == Some(2)
    ensures run[|run| - 1].log.signalled == [(3, 2)] && run[|run| - 1].log.posted == [1, 2, 1]
  {
    run, actions := ParksTwice();
    hide EndsIn;
    var s := State(
      IoCore(3, true, None, 1, false, Polling), Shm(3, 1, 2, true, 2), Core(3, Some(2), false, Consuming(Some(1))),
      Log([1, 2, 1], [1, 2], [], {}));
    run, actions := Then(run, actions, s, OnCore(ReadTid));
    var s1 := Next(s, OnCore(ReadTid));
    run, actions := Then(run, actions, s1, OnCore(WriteBusy));
    var s2 := Next(s1, OnCore(WriteBusy));
    run, actions := Then(run, actions, s2, OnCore(Ack));
    var s3 := Next(s2, OnCore(Ack));
    LastOf(run, actions, s3);
    i := |run| - 1;
    run, actions := Then(run, actions, s3, Io(PollDone));
    var s4 := Next(s3, Io(PollDone));
    run, actions := Then(run, actions, s4, Io(Run(3)));
    var s5 := Next(s4, Io(Run(3)));
    run, actions := Then(run, actions, s5, OnCore(Interrupt));
    LastOf(run, actions, Next(s5, OnCore(Interrupt)));
  }
}
