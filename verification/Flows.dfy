/**
 The flow table of a process: which kthread receives the packets of each flow index.

 `SteerFlows` gives every active kthread its own index and deals the remaining indices to the
 active kthreads in turn.  `Target` is the same table in closed form, and `Balanced` shows that
 no active kthread has more than one index over any other.
 */
module Flows {
  import opened Prelude

  const NCPU := 256
  const UINT_MAX := 0xFFFF_FFFF

  /** How many indices below `i` have no active kthread of their own. */
  function Rank(active: seq<nat>, i: nat): nat {
    if i == 0 then 0 else Rank(active, i - 1) + One(i - 1 !in active)
  }

  /** The kthread that flow index `i` is steered to. */
  function Target(active: seq<nat>, i: nat): (t: nat)
    requires active != []
    ensures t in active
    ensures i in active ==> t == i
  {
    if i in active then i else active[Rank(active, i) % |active|]
  }

  /** sched_steer_flows */
  method SteerFlows(tbl: array<nat>, active: seq<nat>, threads: nat)
    requires tbl.Length == NCPU && threads <= NCPU
    requires forall i :: 0 <= i < |active| ==> active[i] < threads
    modifies tbl
    ensures active == [] ==> tbl[..] == old(tbl[..])
    ensures active != [] ==> forall i :: 0 <= i < NCPU ==>
      tbl[i] == if i < threads then Target(active, i) else UINT_MAX
  {
    if |active| == 0 {
      return;
    }
    for k := 0 to NCPU
      invariant forall i :: 0 <= i < k ==> tbl[i] == UINT_MAX
    {
      tbl[k] := UINT_MAX;
    }
    for k := 0 to |active|
      invariant forall i :: 0 <= i < NCPU ==> tbl[i] == if i in active[..k] then i else UINT_MAX
    {
      tbl[active[k]] := active[k];
      assert active[..k + 1] == active[..k] + [active[k]];
    }
    assert active[..|active|] == active;
    var j := 0;
    for i := 0 to threads
      invariant j == Rank(active, i)
      invariant forall m :: 0 <= m < i ==> tbl[m] == Target(active, m)
      invariant forall m :: i <= m < NCPU ==> tbl[m] == if m in active then m else UINT_MAX
    {
      if tbl[i] == UINT_MAX {
        tbl[i] := active[j % |active|];
        j := j + 1;
      }
    }
  }

  // ---------------------------------------------------------------- balance

  /** How many flow indices below `n` go to kthread `t`. */
  function Load(active: seq<nat>, n: nat, t: nat): nat
    requires active != []
  {
    if n == 0 then 0 else Load(active, n - 1, t) + One(Target(active, n - 1) == t)
  }

  /** How many of the first `r` turns of a round of `a` fall on place `x`. */
  function Turns(r: nat, a: nat, x: nat): nat
    requires a > 0
  {
    if r == 0 then 0 else Turns(r - 1, a, x) + One((r - 1) % a == x)
  }

  lemma NextTurn(r: nat, a: nat)
    requires a > 0
    ensures r % a + 1 < a ==> (r + 1) / a == r / a && (r + 1) % a == r % a + 1
    ensures r % a + 1 == a ==> (r + 1) / a == r / a + 1 && (r + 1) % a == 0
  {
    var q, m := r / a, r % a;
    assert r + 1 == a * q + (m + 1);
    if m + 1 < a {
      DivMod(r + 1, a, q, m + 1);
    } else {
      assert r + 1 == a * (q + 1);
      DivMod(r + 1, a, q + 1, 0);
    }
  }

  lemma DivMod(n: nat, a: nat, q: nat, m: nat)
    requires a > 0 && m < a && n == a * q + m
    ensures n / a == q && n % a == m
  {
    var d := n / a - q;
    assert a * d == m - n % a;
  }

  lemma {:induction false} TurnsAreEven(r: nat, a: nat, x: nat)
    requires x < a
    ensures Turns(r, a, x) == r / a + One(x < r % a)
  {
    if r == 0 {
      DivMod(0, a, 0, 0);
    } else {
      TurnsAreEven(r - 1, a, x);
      NextTurn(r - 1, a);
    }
  }

  /** A kthread's load is its own index plus its turns. */
  lemma {:induction false} LoadIsTurns(active: seq<nat>, n: nat, x: nat)
    requires x < |active| && Distinct(active)
    ensures Load(active, n, active[x]) == One(active[x] < n) + Turns(Rank(active, n), |active|, x)
  {
    if n > 0 {
      LoadIsTurns(active, n - 1, x);
      if n - 1 !in active {
        var y := Rank(active, n - 1) % |active|;
        assert Target(active, n - 1) == active[y];
        assert active[y] == active[x] <==> y == x;
      }
    }
  }

  /** After every steering, every active kthread keeps its own index and the numbers of flow
      indices of any two active kthreads differ by at most one. */
  lemma Balanced(active: seq<nat>, threads: nat, x: nat, y: nat)
    requires Distinct(active) && x < |active| && y < |active|
    requires forall i :: 0 <= i < |active| ==> active[i] < threads
    ensures Target(active, active[x]) == active[x]
    ensures Load(active, threads, active[x]) <= Load(active, threads, active[y]) + 1
    ensures Load(active, threads, active[x]) >= 1
  {
    LoadIsTurns(active, threads, x);
    LoadIsTurns(active, threads, y);
    TurnsAreEven(Rank(active, threads), |active|, x);
    TurnsAreEven(Rank(active, threads), |active|, y);
  }
}
