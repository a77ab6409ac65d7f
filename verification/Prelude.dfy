/** Options, lists without repetition, counting, and bits. */
module Prelude {

  const TWO32: nat := 0x1_0000_0000

  datatype Option<T> = None | Some(value: T)

  predicate Distinct(xs: seq<nat>) {
    forall i, j :: 0 <= i < j < |xs| ==> xs[i] != xs[j]
  }

  function One(b: bool): nat { if b then 1 else 0 }

  /** The numbers below `n`. */
  function Upto(n: nat): (r: set<nat>)
    ensures |r| == n && forall i :: i in r <==> 0 <= i < n
  {
    if n == 0 then {} else Upto(n - 1) + {n - 1}
  }

  function Elements(xs: seq<nat>): (r: set<nat>)
    ensures forall x :: x in r <==> x in xs
    ensures Distinct(xs) ==> |r| == |xs|
  {
    if xs == [] then {} else
      assert Distinct(xs) ==> Distinct(xs[1..]) && xs[0] !in xs[1..];
      Elements(xs[1..]) + {xs[0]}
  }

  lemma {:induction false} SubsetSize(a: set<nat>, b: set<nat>)
    requires a <= b
    ensures |a| <= |b| && (|a| == |b| ==> a == b)
  {
    if a != {} {
      var x :| x in a;
      SubsetSize(a - {x}, b - {x});
    }
  }

  /** `xs` and `ys` share out the numbers below `n`. */
  lemma Partition(xs: seq<nat>, ys: seq<nat>, n: nat)
    requires Distinct(xs) && Distinct(ys)
    requires forall i :: i in xs || i in ys <==> 0 <= i < n
    requires forall i :: i in xs ==> i !in ys
    ensures |xs| + |ys| == n
  {
    hide Elements, Upto, Distinct;
    assert Elements(xs) + Elements(ys) == Upto(n);
    assert Elements(xs) !! Elements(ys);
  }

  /** A list with the first occurrence of `x` taken out. */
  function Without(xs: seq<nat>, x: nat): seq<nat> {
    if xs == [] then [] else if xs[0] == x then xs[1..] else [xs[0]] + Without(xs[1..], x)
  }

  lemma {:induction false} WithoutDrops(xs: seq<nat>, x: nat)
    requires Distinct(xs)
    ensures Distinct(Without(xs, x))
    ensures forall y :: y in Without(xs, x) <==> y in xs && y != x
  {
    if xs != [] {
      WithoutDrops(xs[1..], x);
      assert Distinct(xs[1..]) && xs[0] !in xs[1..];
      assert xs[0] !in Without(xs[1..], x);
      assert forall y :: y in xs <==> y == xs[0] || y in xs[1..];
    }
  }

  /** How many times `x` occurs. */
  function Count(xs: seq<nat>, x: nat): nat {
    if xs == [] then 0 else One(xs[0] == x) + Count(xs[1..], x)
  }

  lemma {:induction false} CountIn(xs: seq<nat>, x: nat)
    ensures Count(xs, x) > 0 <==> x in xs
  {
    if xs != [] {
      CountIn(xs[1..], x);
      assert xs == [xs[0]] + xs[1..];
    }
  }

  lemma ConsDistinct(xs: seq<nat>)
    requires xs != []
    ensures Distinct(xs) <==> Distinct(xs[1..]) && xs[0] !in xs[1..]
  {
    if Distinct(xs[1..]) && xs[0] !in xs[1..] {
      assert forall i :: 0 < i < |xs| ==> xs[i] == xs[1..][i - 1];
    }
  }

  lemma {:induction false} DistinctCounts(xs: seq<nat>, x: nat)
    requires Distinct(xs)
    ensures Count(xs, x) == One(x in xs)
  {
    if xs != [] {
      ConsDistinct(xs);
      DistinctCounts(xs[1..], x);
      assert xs == [xs[0]] + xs[1..];
    }
  }

  lemma {:induction false} CountsDistinct(xs: seq<nat>)
    requires forall x :: x in xs ==> Count(xs, x) <= 1
    ensures Distinct(xs)
  {
    if xs != [] {
      var rest := xs[1..];
      CountIn(rest, xs[0]);
      forall x | x in rest ensures Count(rest, x) <= 1 {
        assert x in xs && Count(xs, x) == One(xs[0] == x) + Count(rest, x);
      }
      CountsDistinct(rest);
      assert xs[0] in xs;
      ConsDistinct(xs);
    }
  }

  function Pow2(n: nat): (r: nat)
    ensures r > 0
  {
    if n == 0 then 1 else 2 * Pow2(n - 1)
  }

  /** Exclusive or of the low `n` bits. */
  function XorBits(x: nat, y: nat, n: nat): (r: nat)
    ensures r < Pow2(n)
  {
    if n == 0 then 0 else (x % 2 + y % 2) % 2 + 2 * XorBits(x / 2, y / 2, n - 1)
  }

  lemma Pow2Is()
    ensures Pow2(32) == 0x1_0000_0000
  {
    assert Pow2(8) == 0x100;
    assert Pow2(16) == 0x1_0000;
    assert Pow2(24) == 0x100_0000;
  }
}
