/**
 blk-switch request steering over TCP queues: a request of a throughput-bound application that finds
 its own core's queue busy is steered to another core of the same node.

 Cores are numbered so that core `i * nrNodes + node` is the i-th core of a node.
 */
module Steering {

  const TCP_BATCH := 16

  /** A snapshot of the machine, and the request's own core and node.  Per core: the number of active
      requests, whether latency-bound applications use it, and the requests waiting in the i10 queue. */
  datatype Snapshot = Snapshot(nrCpus: nat, nrNodes: nat, cpu: nat, node: nat, threshB: int,
                               active: seq<nat>, latency: seq<nat>, nrReq: seq<nat>)

  predicate Valid(s: Snapshot) {
    && s.nrNodes > 0 && s.nrCpus >= 2 * s.nrNodes && s.node < s.nrNodes && s.cpu < s.nrCpus
    && |s.active| == |s.latency| == |s.nrReq| == s.nrCpus
  }

  function Cores(s: Snapshot): nat
    requires Valid(s)
  {
    s.nrCpus / s.nrNodes
  }

  /** The i-th core of the request's node. */
  function Core(s: Snapshot, i: nat): (c: nat)
    requires Valid(s) && i < Cores(s)
    ensures c < s.nrCpus
  {
    CoreBound(s.nrCpus, s.nrNodes, s.node, i);
    i * s.nrNodes + s.node
  }

  lemma CoreBound(cpus: nat, nodes: nat, node: nat, i: nat)
    requires nodes > 0 && node < nodes && i < cpus / nodes
    ensures i * nodes + node < cpus
  {
    var n := cpus / nodes;
    assert cpus == n * nodes + cpus % nodes;
    Mul(i + 1, n, nodes);
  }

  lemma Mul(a: nat, b: nat, c: nat)
    requires a <= b
    ensures a * c <= b * c
  {
  }

  lemma SameResidue(i: nat, nodes: nat, node: nat)
    requires node < nodes
    ensures (i * nodes + node) % nodes == node
  {
    var q, r := (i * nodes + node) / nodes, (i * nodes + node) % nodes;
    assert (q - i) * nodes == node - r;
    if q > i {
      Mul(1, q - i, nodes);
    } else if q < i {
      Mul(1, i - q, nodes);
    }
  }

  lemma CoresDiffer(s: Snapshot, i: nat, j: nat)
    requires Valid(s) && i < Cores(s) && j < Cores(s) && Core(s, i) == Core(s, j)
    ensures i == j
  {
    assert (i - j) * s.nrNodes == 0;
  }

  /** A core may take the request if it serves no latency-bound application and has less than a batch. */
  predicate Eligible(s: Snapshot, i: nat)
    requires Valid(s) && i < Cores(s)
  {
    s.latency[Core(s, i)] == 0 && s.active[Core(s, i)] < TCP_BATCH
  }

  /** How many requests the core's batch lacks. */
  function Lacks(s: Snapshot, i: nat): int
    requires Valid(s) && i < Cores(s)
  {
    TCP_BATCH - s.nrReq[Core(s, i)]
  }

  /** Core `i` is no worse than core `j`: its batch lacks fewer requests, or as many and it has no more
      active ones. */
  predicate NoWorse(s: Snapshot, i: nat, j: nat)
    requires Valid(s) && i < Cores(s) && j < Cores(s)
  {
    Lacks(s, i) < Lacks(s, j) || (Lacks(s, i) == Lacks(s, j) && s.active[Core(s, i)] <= s.active[Core(s, j)])
  }

  /** The threshold above which the local queue counts as busy. */
  function Threshold(s: Snapshot): int {
    if s.threshB > 0 then s.threshB * 2 else TCP_BATCH * 2
  }

  /** `t` is best among the eligible cores below `n`, and is the local core if that is as good. */
  predicate IsBest(s: Snapshot, n: nat, t: nat)
    requires Valid(s) && n <= Cores(s) && t < n
  {
    && Eligible(s, t)
    && (forall j :: 0 <= j < n && Eligible(s, j) ==> NoWorse(s, t, j))
    && (forall j :: 0 <= j < n && Eligible(s, j) && NoWorse(s, j, t) && Core(s, j) == s.cpu ==> t == j)
  }

  /** The loop over the cores of the node.  `coins[i]` is the random bit drawn for core `i`. */
  method PickEligible(s: Snapshot, coins: seq<bool>) returns (found: bool, t: nat)
    requires Valid(s) && |coins| == Cores(s)
    ensures found ==> t < Cores(s) && IsBest(s, Cores(s), t)
    ensures !found ==> forall j :: 0 <= j < Cores(s) ==> !Eligible(s, j)
  {
    var minNr, minActive := 1024, 2048;
    found, t := false, 0;
    hide Core, Lacks;
    for i := 0 to Cores(s)
      invariant found ==> t < i && IsBest(s, i, t)
      invariant found ==> minNr == Lacks(s, t) && minActive == s.active[Core(s, t)]
      invariant !found ==> minNr == 1024 && minActive == 2048 && forall j :: 0 <= j < i ==> !Eligible(s, j)
    {
      LacksLittle(s, i);
      var cpu, nr := Core(s, i), Lacks(s, i);
      var active := s.active[cpu];
      if s.latency[cpu] == 0 && active < TCP_BATCH {
        ghost var t0 := t;
        if nr < minNr {
          found, t, minNr, minActive := true, i, nr, active;
        } else if nr == minNr {
          if active < minActive {
            t, minActive := i, active;
          } else if active == minActive {
            if cpu == s.cpu {
              t := i;
            } else if Core(s, t) != s.cpu {
              if !coins[i] {
                t := i;
              }
            }
          }
        }
        if t0 < i {
          if Core(s, t0) == cpu {
            CoresDiffer(s, t0, i);
          }
        }
      }
    }
  }

  lemma LacksLittle(s: Snapshot, i: nat)
    requires Valid(s) && i < Cores(s)
    ensures Lacks(s, i) < 1024
  {
  }

  /** Power of two choices: `first` and `draws` are the random bytes drawn; draws are repeated until the
      second core differs from the first. */
  method TwoChoices(s: Snapshot, first: nat, draws: seq<nat>) returns (t: nat, other: nat)
    requires Valid(s) && exists k :: 0 <= k < |draws| && draws[k] % Cores(s) != first % Cores(s)
    ensures t < Cores(s) && other < Cores(s) && t != other && Core(s, t) != Core(s, other)
    ensures s.active[Core(s, t)] <= s.active[Core(s, other)]
    ensures first % Cores(s) in {t, other}
  {
    hide Core;
    EnoughCores(s);
    var one := first % Cores(s);
    var k := 0;
    while draws[k] % Cores(s) == one
      invariant 0 <= k < |draws|
      invariant exists j :: k <= j < |draws| && draws[j] % Cores(s) != one
      decreases |draws| - k
    {
      k := k + 1;
    }
    var two := draws[k] % Cores(s);
    if Core(s, one) == Core(s, two) {
      CoresDiffer(s, one, two);
    }
    if s.active[Core(s, one)] <= s.active[Core(s, two)] {
      t, other := one, two;
    } else {
      t, other := two, one;
    }
  }

  lemma EnoughCores(s: Snapshot)
    requires Valid(s)
    ensures Cores(s) >= 2
  {
    var n := s.nrCpus / s.nrNodes;
    assert s.nrCpus == n * s.nrNodes + s.nrCpus % s.nrNodes;
    if n < 2 {
      Mul(n, 1, s.nrNodes);
    }
  }

  /** Where a request goes. */
  datatype Choice = Local | Batch(i: nat) | LessLoaded(i: nat, other: nat)

  function Target(s: Snapshot, c: Choice): nat
    requires Valid(s) && (c.Batch? || c.LessLoaded? ==> c.i < Cores(s))
  {
    if c.Local? then s.cpu else Core(s, c.i)
  }

  /** What each choice promises. */
  predicate IsRight(s: Snapshot, c: Choice)
    requires Valid(s)
  {
    match c
    case Local => s.active[s.cpu] <= Threshold(s)
    case Batch(i) => s.active[s.cpu] > Threshold(s) && i < Cores(s) && IsBest(s, Cores(s), i)
    case LessLoaded(i, other) =>
      && s.active[s.cpu] > Threshold(s) && i < Cores(s) && other < Cores(s)
      && (forall j :: 0 <= j < Cores(s) ==> !Eligible(s, j))
      && Core(s, i) != Core(s, other) && s.active[Core(s, i)] <= s.active[Core(s, other)]
  }

  /** The request-steering block.  While the local queue is not busy the request stays; otherwise it goes
      to the best eligible core of its node, whatever the random bits; and only if there is none, to the
      less loaded of two different cores of its node. */
  method SteerRequest(s: Snapshot, coins: seq<bool>, first: nat, draws: seq<nat>) returns (target: nat, c: Choice)
    requires Valid(s) && |coins| == Cores(s)
    requires exists k :: 0 <= k < |draws| && draws[k] % Cores(s) != first % Cores(s)
    ensures IsRight(s, c) && target == Target(s, c) && target < s.nrCpus
    ensures !c.Local? ==> target % s.nrNodes == s.node
  {
    var thresh := if s.threshB > 0 then s.threshB * 2 else TCP_BATCH * 2;
    if s.active[s.cpu] <= thresh {
      return s.cpu, Local;
    }
    var found, i := PickEligible(s, coins);
    if found {
      c := Batch(i);
    } else {
      var other;
      i, other := TwoChoices(s, first, draws);
      c := LessLoaded(i, other);
    }
    target := Core(s, i);
    SameResidue(i, s.nrNodes, s.node);
  }

  /** Luck does not matter: whatever the random bits, the cores chosen over one snapshot are equally good,
      and the local core is chosen if it is among the best. */
  lemma BestIsUnique(s: Snapshot, t: nat, u: nat)
    requires Valid(s) && t < Cores(s) && u < Cores(s) && IsBest(s, Cores(s), t) && IsBest(s, Cores(s), u)
    ensures Lacks(s, t) == Lacks(s, u) && s.active[Core(s, t)] == s.active[Core(s, u)]
    ensures Core(s, t) == s.cpu ==> t == u
  {
    hide Core, Lacks;
    assert NoWorse(s, t, u) && NoWorse(s, u, t);
  }
}
