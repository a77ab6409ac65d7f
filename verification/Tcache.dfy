/**
 The magazine cache in front of an allocator.  Each thread has a loaded magazine and perhaps a full
 previous one; full magazines are exchanged through a shared pool; whole magazines come from and go
 back to the backing store.

 A magazine is the list of its items.  An operation of one thread is one step: it goes to the shared
 pool at most once, under its lock.  Reclaiming takes the whole pool in one step and gives its
 magazines back one by one, while other threads go on.

 In the class below magazines are what they are in the code: chains through fields of the items.
 */
module Tcache {
  import opened Prelude

  type Item = nat

  type Mag = seq<Item>

  const MAX_MAG_SIZE := 64

  /** struct tcache_perthread */
  datatype Local = Local(loaded: Mag, rounds: nat, previous: Option<Mag>)

  /** struct tcache with its threads; `reclaim` are magazines taken out of the pool to be given back,
      `held` the items held from the backing store, `user` those in users' hands. */
  datatype Cache = Cache(locals: seq<Local>, shared: seq<Mag>, reclaim: seq<Mag>, mags: int,
                         held: set<Item>, user: set<Item>)

  // ---------------------------------------------------------------- where an item is

  function CountMags(ms: seq<Mag>, x: Item): nat {
    if ms == [] then 0 else Count(ms[0], x) + CountMags(ms[1..], x)
  }

  function CountLocal(l: Local, x: Item): nat {
    Count(l.loaded, x) + if l.previous.Some? then Count(l.previous.value, x) else 0
  }

  function CountLocals(ls: seq<Local>, x: Item): nat {
    if ls == [] then 0 else CountLocal(ls[|ls| - 1], x) + CountLocals(ls[..|ls| - 1], x)
  }

  /** In how many places item `x` is. */
  function Places(c: Cache, x: Item): nat {
    One(x in c.user) + CountLocals(c.locals, x) + CountMags(c.shared, x) + CountMags(c.reclaim, x)
  }

  lemma {:induction false} LocalsUpdate(ls: seq<Local>, t: nat, l: Local, x: Item)
    requires t < |ls|
    ensures CountLocals(ls[t := l], x) + CountLocal(ls[t], x) == CountLocals(ls, x) + CountLocal(l, x)
  {
    var n := |ls| - 1;
    if t == n {
      assert ls[t := l][..n] == ls[..n];
    } else {
      assert ls[t := l][..n] == ls[..n][t := l];
      LocalsUpdate(ls[..n], t, l, x);
    }
  }

  lemma {:induction false} MagsAppend(a: seq<Mag>, b: seq<Mag>, x: Item)
    ensures CountMags(a + b, x) == CountMags(a, x) + CountMags(b, x)
  {
    if a == [] {
      assert a + b == b;
    } else {
      assert (a + b)[1..] == a[1..] + b;
      MagsAppend(a[1..], b, x);
    }
  }

  // ---------------------------------------------------------------- invariant

  predicate LocalOk(l: Local, size: nat) {
    && |l.loaded| == l.rounds <= size
    && (l.previous.Some? ==> |l.previous.value| == size)
  }

  predicate AllFull(ms: seq<Mag>, size: nat) {
    forall i :: 0 <= i < |ms| ==> |ms[i]| == size
  }

  /** Loaded magazines have exactly `rounds` items; previous, shared and reclaimed ones are full. */
  predicate ShapeOk(c: Cache, size: nat) {
    && 0 < size <= MAX_MAG_SIZE
    && (forall t :: 0 <= t < |c.locals| ==> LocalOk(c.locals[t], size))
    && AllFull(c.shared, size) && AllFull(c.reclaim, size)
  }

  /** Every item held from the backing store is in exactly one place, and nothing else is anywhere. */
  ghost predicate Conserved(c: Cache) {
    forall x :: Places(c, x) == One(x in c.held)
  }

  predicate Balanced(c: Cache, size: nat) {
    c.mags * size == |c.held|
  }

  ghost predicate Inv(c: Cache, size: nat) {
    ShapeOk(c, size) && Conserved(c) && Balanced(c, size)
  }

  // ---------------------------------------------------------------- operations

  datatype Result = Result(item: Option<Item>, c: Cache)

  /** The end of __tcache_alloc: a full magazine is loaded and its first item handed out. */
  function Reload(c: Cache, size: nat, t: nat, mag: Mag, previous: Option<Mag>): Result
    requires t < |c.locals| && |mag| == size > 0
  {
    Result(Some(mag[0]), c.(locals := c.locals[t := Local(mag[1..], size - 1, previous)], user := c.user + {mag[0]}))
  }

  /** tcache_alloc and __tcache_alloc; `store` is what the backing store would give. */
  function Alloc(c: Cache, size: nat, t: nat, store: Option<Mag>): Result
    requires ShapeOk(c, size) && t < |c.locals| && (store.Some? ==> |store.value| == size)
  {
    var l := c.locals[t];
    if l.rounds > 0 then
      Result(Some(l.loaded[0]),
             c.(locals := c.locals[t := Local(l.loaded[1..], l.rounds - 1, l.previous)],
                user := c.user + {l.loaded[0]}))
    else if l.previous.Some? then Reload(c, size, t, l.previous.value, None)
    else if c.shared != [] then Reload(c.(shared := c.shared[1..]), size, t, c.shared[0], None)
    else if store.None? then Result(None, c)
    else Reload(c.(mags := c.mags + 1, held := c.held + Elements(store.value)), size, t, store.value, None)
  }

  /** tcache_free and __tcache_free */
  function Free(c: Cache, size: nat, t: nat, x: Item): Cache
    requires ShapeOk(c, size) && t < |c.locals|
  {
    var l, user := c.locals[t], c.user - {x};
    if l.rounds < size then
      c.(locals := c.locals[t := Local([x] + l.loaded, l.rounds + 1, l.previous)], user := user)
    else if l.previous.None? then c.(locals := c.locals[t := Local([x], 1, Some(l.loaded))], user := user)
    else
      c.(locals := c.locals[t := Local([x], 1, Some(l.loaded))], user := user, shared := [l.previous.value] + c.shared)
  }

  /** tcache_reclaim takes the pool. */
  function TakePool(c: Cache): Cache {
    c.(shared := [], reclaim := c.reclaim + c.shared)
  }

  /** tcache_free_mag */
  function FreeMag(c: Cache): Cache
    requires c.reclaim != []
  {
    c.(reclaim := c.reclaim[1..], mags := c.mags - 1, held := c.held - Elements(c.reclaim[0]))
  }

  // ---------------------------------------------------------------- conservation

  /** The places an operation of thread `t` can touch. */
  function Near(c: Cache, t: nat, x: Item): nat
    requires t < |c.locals|
  {
    One(x in c.user) + CountLocal(c.locals[t], x) + CountMags(c.shared, x)
  }

  /** Near one thread, `x` is moved, and gained or lost only with the backing store. */
  predicate Moves(c: Cache, c': Cache, t: nat, x: Item)
    requires t < |c.locals| && t < |c'.locals|
  {
    Near(c', t, x) + One(x in c.held) == Near(c, t, x) + One(x in c'.held)
  }

  lemma Exchange(c: Cache, c': Cache, t: nat)
    requires Conserved(c) && t < |c.locals| && |c'.locals| == |c.locals|
    requires c'.locals == c.locals[t := c'.locals[t]] && c'.reclaim == c.reclaim
    requires forall x :: Moves(c, c', t, x)
    ensures Conserved(c')
  {
    forall x ensures Places(c', x) == One(x in c'.held) {
      LocalsUpdate(c.locals, t, c'.locals[t], x);
      assert Places(c, x) == One(x in c.held) && Moves(c, c', t, x);
    }
  }

  lemma ShapeAt(c: Cache, c': Cache, size: nat, t: nat)
    requires ShapeOk(c, size) && t < |c.locals| && |c'.locals| == |c.locals|
    requires c'.locals == c.locals[t := c'.locals[t]] && LocalOk(c'.locals[t], size)
    requires AllFull(c'.shared, size) && c'.reclaim == c.reclaim
    ensures ShapeOk(c', size)
  {
  }

  /** What is with a thread or in the pool is not in users' hands, and nowhere else. */
  lemma OnlyHere(c: Cache, t: nat, x: Item)
    requires Conserved(c) && t < |c.locals| && CountLocal(c.locals[t], x) + CountMags(c.shared, x) > 0
    ensures x !in c.user && x in c.held && CountLocal(c.locals[t], x) + CountMags(c.shared, x) == 1
  {
    LocalsUpdate(c.locals, t, Local([], 0, None), x);
    assert Places(c, x) == One(x in c.held);
  }

  lemma LocalShape(mag: Mag, size: nat)
    requires |mag| == size > 0
    ensures LocalOk(Local(mag[1..], size - 1, None), size)
  {
  }

  /** A full magazine is loaded that thread `t`, the pool or the backing store has provided. */
  lemma ReloadOk(c0: Cache, c: Cache, size: nat, t: nat, mag: Mag)
    requires Inv(c0, size) && t < |c0.locals| && |mag| == size
    requires c.locals == c0.locals && c.user == c0.user && c.reclaim == c0.reclaim
    requires AllFull(c.shared, size) && Balanced(c, size) && mag[0] !in c.user
    requires forall x :: One(x in c0.held) + Count(mag, x) + CountMags(c.shared, x)
                         == One(x in c.held) + CountLocal(c0.locals[t], x) + CountMags(c0.shared, x)
    ensures Inv(Reload(c, size, t, mag, None).c, size)
  {
    hide CountMags, CountLocals, LocalOk, AllFull;
    var c' := Reload(c, size, t, mag, None).c;
    LocalShape(mag, size);
    ShapeAt(c0, c', size, t);
    forall x ensures Moves(c0, c', t, x) {
      assert Count(mag, x) == One(mag[0] == x) + Count(mag[1..], x);
    }
    hide ShapeOk, Balanced, Moves;
    Exchange(c0, c', t);
  }

  lemma FastAllocOk(c: Cache, size: nat, t: nat)
    requires Inv(c, size) && t < |c.locals| && c.locals[t].rounds > 0
    ensures var r := Alloc(c, size, t, None); r.item.Some? && r.item.value !in c.user && Inv(r.c, size)
  {
    hide CountMags, CountLocals, AllFull, Balanced;
    var l, c' := c.locals[t], Alloc(c, size, t, None).c;
    assert c'.locals[t] == Local(l.loaded[1..], l.rounds - 1, l.previous);
    assert Balanced(c', size) by { SameBalance(c, c', size); }
    assert forall x :: Count(l.loaded, x) == One(l.loaded[0] == x) + Count(l.loaded[1..], x);
    OnlyHere(c, t, l.loaded[0]);
    ShapeAt(c, c', size, t);
    assert forall x :: Moves(c, c', t, x);
    Exchange(c, c', t);
  }

  lemma PreviousAllocOk(c: Cache, size: nat, t: nat)
    requires Inv(c, size) && t < |c.locals| && c.locals[t].rounds == 0 && c.locals[t].previous.Some?
    ensures var mag := c.locals[t].previous.value;
      |mag| == size && mag[0] !in c.user && Inv(Reload(c, size, t, mag, None).c, size)
  {
    hide CountMags, CountLocals, AllFull, Balanced, Reload;
    var mag := c.locals[t].previous.value;
    CountIn(mag, mag[0]);
    OnlyHere(c, t, mag[0]);
    ReloadOk(c, c, size, t, mag);
  }

  lemma PoolAllocOk(c: Cache, size: nat, t: nat)
    requires Inv(c, size) && t < |c.locals| && c.locals[t].rounds == 0 && c.locals[t].previous.None? && c.shared != []
    ensures var mag := c.shared[0];
      |mag| == size && mag[0] !in c.user && Inv(Reload(c.(shared := c.shared[1..]), size, t, mag, None).c, size)
  {
    hide CountLocals, Reload;
    var mag, c1 := c.shared[0], c.(shared := c.shared[1..]);
    CountIn(mag, mag[0]);
    OnlyHere(c, t, mag[0]);
    assert forall x :: CountMags(c.shared, x) == Count(mag, x) + CountMags(c1.shared, x);
    hide CountMags;
    ReloadOk(c, c1, size, t, mag);
  }

  lemma StoreAllocOk(c: Cache, size: nat, t: nat, mag: Mag)
    requires Inv(c, size) && t < |c.locals| && c.locals[t].rounds == 0 && c.locals[t].previous.None? && c.shared == []
    requires |mag| == size && Distinct(mag) && forall x :: x in mag ==> x !in c.held
    ensures mag[0] !in c.user
    ensures Inv(Reload(c.(mags := c.mags + 1, held := c.held + Elements(mag)), size, t, mag, None).c, size)
  {
    hide CountLocals, Reload, CountMags, Distinct, Count, Elements, AllFull;
    var c1 := c.(mags := c.mags + 1, held := c.held + Elements(mag));
    assert mag[0] in mag;
    assert Places(c, mag[0]) == One(mag[0] in c.held);
    GrowHeld(c, c1, size, mag);
    assert forall x :: CountLocal(c.locals[t], x) == 0 by { EmptyLocal(c.locals[t]); }
    forall x ensures Count(mag, x) == One(x in mag) {
      DistinctCounts(mag, x);
    }
    ReloadOk(c, c1, size, t, mag);
  }

  lemma EmptyLocal(l: Local)
    requires l.loaded == [] && l.previous.None?
    ensures forall x :: CountLocal(l, x) == 0
  {
  }

  lemma SameBalance(c: Cache, c': Cache, size: nat)
    requires Balanced(c, size) && c'.mags == c.mags && c'.held == c.held
    ensures Balanced(c', size)
  {
  }

  lemma AddMag(m: int, size: int)
    ensures (m + 1) * size == m * size + size
  {
  }

  lemma SizeOf(held: set<Item>, mag: Mag)
    requires Distinct(mag)
    ensures (forall x :: x in mag ==> x !in held) ==> |held + Elements(mag)| == |held| + |mag|
    ensures (forall x :: x in mag ==> x in held) ==> |held - Elements(mag)| == |held| - |mag|
  {
    var items := Elements(mag);
    hide Elements, Distinct;
    if forall x :: x in mag ==> x !in held {
      assert held !! items;
    }
    if forall x :: x in mag ==> x in held {
      assert items <= held;
    }
  }

  lemma GrowHeld(c: Cache, c': Cache, size: nat, mag: Mag)
    requires Balanced(c, size) && c'.mags == c.mags + 1 && c'.held == c.held + Elements(mag)
    requires |mag| == size && Distinct(mag) && forall x :: x in mag ==> x !in c.held
    ensures Balanced(c', size)
  {
    hide Elements, Distinct;
    SizeOf(c.held, mag);
    AddMag(c.mags, size);
  }

  lemma ShrinkHeld(c: Cache, c': Cache, size: nat, mag: Mag)
    requires Balanced(c, size) && c'.mags == c.mags - 1 && c'.held == c.held - Elements(mag)
    requires |mag| == size && Distinct(mag) && forall x :: x in mag ==> x in c.held
    ensures Balanced(c', size)
  {
    hide Elements, Distinct;
    SizeOf(c.held, mag);
    AddMag(c'.mags, size);
  }

  /** Allocation hands out an item that was in nobody's hands, and fails only if this thread and the
      pool are empty and the backing store is too. */
  lemma AllocOk(c: Cache, size: nat, t: nat, store: Option<Mag>)
    requires Inv(c, size) && t < |c.locals|
    requires store.Some? ==>
      |store.value| == size && Distinct(store.value) && forall x :: x in store.value ==> x !in c.held
    ensures var r := Alloc(c, size, t, store);
      && Inv(r.c, size)
      && (r.item.Some? ==> r.item.value !in c.user && r.c.user == c.user + {r.item.value})
      && (r.item.None? <==> c.locals[t] == Local([], 0, None) && c.shared == [] && store.None?)
  {
    hide Conserved, Distinct, Balanced, AllFull, Elements;
    var l := c.locals[t];
    if l.rounds > 0 {
      FastAllocOk(c, size, t);
    } else if l.previous.Some? {
      PreviousAllocOk(c, size, t);
    } else if c.shared != [] {
      PoolAllocOk(c, size, t);
    } else if store.Some? {
      StoreAllocOk(c, size, t, store.value);
    }
  }

  lemma FreeOk(c: Cache, size: nat, t: nat, x: Item)
    requires Inv(c, size) && t < |c.locals| && x in c.user
    ensures var c' := Free(c, size, t, x); Inv(c', size) && c'.user == c.user - {x}
  {
    hide CountLocals, Distinct, Balanced;
    var l, c' := c.locals[t], Free(c, size, t, x);
    assert Balanced(c', size) by { SameBalance(c, c', size); }
    assert forall y :: Count([x] + l.loaded, y) == One(x == y) + Count(l.loaded, y) by {
      assert ([x] + l.loaded)[1..] == l.loaded;
    }
    assert forall y :: Count([x], y) == One(x == y) by { assert [x][1..] == []; }
    if l.rounds == size && l.previous.Some? {
      assert c'.shared[1..] == c.shared;
      assert forall y :: CountMags(c'.shared, y) == Count(l.previous.value, y) + CountMags(c.shared, y);
    }
    ShapeAt(c, c', size, t);
    hide CountMags, Count, AllFull, LocalOk;
    assert forall y :: Moves(c, c', t, y);
    Exchange(c, c', t);
  }

  lemma TakePoolOk(c: Cache, size: nat)
    requires Inv(c, size)
    ensures Inv(TakePool(c), size)
  {
    hide CountLocals, CountLocal, Balanced;
    var c' := TakePool(c);
    assert Balanced(c', size) by { SameBalance(c, c', size); }
    forall x ensures Places(c', x) == One(x in c'.held) {
      MagsAppend(c.reclaim, c.shared, x);
      assert Places(c, x) == One(x in c.held);
    }
  }

  lemma GivenBack(c: Cache, x: Item)
    requires Conserved(c) && c.reclaim != []
    ensures Count(c.reclaim[0], x) <= One(x in c.held)
    ensures Places(FreeMag(c), x) == One(x in c.held) - Count(c.reclaim[0], x)
  {
    hide CountLocals, Count, Elements;
    assert Places(c, x) == One(x in c.held);
  }

  /** The assertion in tcache_free_mag holds: what is given back is a whole magazine. */
  lemma FreeMagOk(c: Cache, size: nat)
    requires Inv(c, size) && c.reclaim != []
    ensures |c.reclaim[0]| == size && Inv(FreeMag(c), size)
  {
    hide Places, Balanced, Elements, Distinct, Count;
    var mag, c' := c.reclaim[0], FreeMag(c);
    forall x ensures Count(mag, x) <= One(x in c.held) {
      GivenBack(c, x);
    }
    CountsDistinct(mag);
    forall x | x in mag ensures x in c.held {
      CountIn(mag, x);
    }
    ShrinkHeld(c, c', size, mag);
    forall x ensures Places(c', x) == One(x in c'.held) {
      GivenBack(c, x);
      DistinctCounts(mag, x);
    }
  }

  lemma JoinOk(c: Cache, size: nat)
    requires Inv(c, size)
    ensures Inv(c.(locals := c.locals + [Local([], 0, None)]), size)
  {
    var c' := c.(locals := c.locals + [Local([], 0, None)]);
    hide Balanced;
    assert Balanced(c', size) by { SameBalance(c, c', size); }
    assert c'.locals[..|c.locals|] == c.locals;
    forall x ensures Places(c', x) == One(x in c'.held) {
      assert Places(c, x) == One(x in c.held);
      assert CountLocals(c'.locals, x) == CountLocals(c.locals, x);
    }
  }

  // ---------------------------------------------------------------- runs

  datatype Event =
    | Join
    | Get(t: nat, store: Option<Mag>)
    | Put(t: nat, x: Item)
    | Reclaim
    | GiveBack

  /** The backing store gives distinct items that it has not given before without taking them back;
      users free what they have. */
  ghost predicate IsEvent(c: Cache, size: nat, e: Event) {
    match e
    case Get(t, store) =>
      && t < |c.locals|
      && (store.Some? ==>
            |store.value| == size && Distinct(store.value) && forall x :: x in store.value ==> x !in c.held)
    case Put(t, x) => t < |c.locals| && x in c.user
    case GiveBack => c.reclaim != []
    case _ => true
  }

  function Do(c: Cache, size: nat, e: Event): Cache
    requires ShapeOk(c, size)
    requires e.Get? ==> e.t < |c.locals| && (e.store.Some? ==> |e.store.value| == size)
    requires e.Put? ==> e.t < |c.locals|
    requires e.GiveBack? ==> c.reclaim != []
  {
    match e
    case Join => c.(locals := c.locals + [Local([], 0, None)])
    case Get(t, store) => Alloc(c, size, t, store).c
    case Put(t, x) => Free(c, size, t, x)
    case Reclaim => TakePool(c)
    case GiveBack => FreeMag(c)
  }

  ghost predicate IsStep(size: nat, c: Cache, e: Event, c': Cache) {
    IsEvent(c, size, e) && (ShapeOk(c, size) ==> c' == Do(c, size, e))
  }

  ghost predicate IsRun(size: nat, run: seq<Cache>, events: seq<Event>) {
    && 0 < size <= MAX_MAG_SIZE && |run| == |events| + 1 && run[0] == Cache([], [], [], 0, {}, {})
    && forall i :: 0 <= i < |events| ==> IsStep(size, run[i], events[i], run[i + 1])
  }

  lemma {:induction false} RunOk(size: nat, run: seq<Cache>, events: seq<Event>, i: nat)
    requires IsRun(size, run, events) && i < |run|
    ensures Inv(run[i], size)
  {
    if i > 0 {
      hide Alloc, Free, TakePool, FreeMag, Conserved, Balanced, Distinct;
      RunOk(size, run, events, i - 1);
      var c := run[i - 1];
      assert IsStep(size, c, events[i - 1], run[i - 1 + 1]);
      match events[i - 1]
      case Join => JoinOk(c, size);
      case Get(t, store) => AllocOk(c, size, t, store);
      case Put(t, x) => FreeOk(c, size, t, x);
      case Reclaim => TakePoolOk(c, size);
      case GiveBack => FreeMagOk(c, size);
    }
  }

  /** In every run, every item held from the backing store is in exactly one place: users' hands, a
      thread's loaded or previous magazine, the pool, or on its way back. */
  lemma OnePlace(size: nat, run: seq<Cache>, events: seq<Event>, i: nat, x: Item)
    requires IsRun(size, run, events) && i < |run|
    ensures Places(run[i], x) == if x in run[i].held then 1 else 0
    ensures run[i].mags * size == |run[i].held|
  {
    hide IsRun, Places, ShapeOk;
    RunOk(size, run, events, i);
  }

  /** In every run, a loaded magazine has exactly `rounds` items, and every other one is full. */
  lemma FullMagazines(size: nat, run: seq<Cache>, events: seq<Event>, i: nat)
    requires IsRun(size, run, events) && i < |run|
    ensures forall t :: 0 <= t < |run[i].locals| ==> LocalOk(run[i].locals[t], size)
    ensures AllFull(run[i].shared, size) && AllFull(run[i].reclaim, size)
  {
    hide IsRun, Conserved, Balanced, LocalOk, AllFull;
    RunOk(size, run, events, i);
  }

  // ---------------------------------------------------------------- items as links

  /** The next_item or next_mag fields of all items. */
  type Links = map<Item, Option<Item>>

  function Link(m: Links, x: Item): Option<Item> {
    if x in m then m[x] else None
  }

  /** From `head`, the next_item fields chain up `mag`. */
  predicate IsChain(next: Links, head: Option<Item>, mag: Mag)
    decreases |mag|
  {
    if mag == [] then head.None?
    else head == Some(mag[0]) && IsChain(next, Link(next, mag[0]), mag[1..])
  }

  /** From `head`, the next_mag fields of first items chain up the magazines `ms`. */
  predicate IsPool(next: Links, nextMag: Links, head: Option<Item>, ms: seq<Mag>)
    decreases |ms|
  {
    if ms == [] then head.None?
    else
      && ms[0] != [] && IsChain(next, head, ms[0])
      && IsPool(next, nextMag, Link(nextMag, ms[0][0]), ms[1..])
  }

  /** The fields of struct tcache_perthread. */
  datatype Handle = Handle(rounds: nat, loaded: Option<Item>, previous: Option<Item>)

  predicate IsHandle(next: Links, h: Handle, l: Local) {
    && h.rounds == l.rounds && IsChain(next, h.loaded, l.loaded)
    && (if l.previous.None? then h.previous.None? else h.previous.Some? && IsChain(next, h.previous, l.previous.value))
  }

  predicate AreHandles(next: Links, hs: seq<Handle>, ls: seq<Local>) {
    |hs| == |ls| && forall t :: 0 <= t < |ls| ==> IsHandle(next, hs[t], ls[t])
  }

  lemma {:induction false} ChainKept(next: Links, x: Item, v: Option<Item>, head: Option<Item>, mag: Mag)
    requires IsChain(next, head, mag) && Count(mag, x) == 0
    ensures IsChain(next[x := v], head, mag)
    decreases |mag|
  {
    if mag != [] {
      ChainKept(next, x, v, Link(next, mag[0]), mag[1..]);
    }
  }

  /** An item that is in no magazine can be linked at will. */
  lemma {:induction false} PoolKept(next: Links, nextMag: Links, x: Item, v: Option<Item>,
                                    head: Option<Item>, ms: seq<Mag>)
    requires IsPool(next, nextMag, head, ms) && CountMags(ms, x) == 0
    ensures IsPool(next[x := v], nextMag, head, ms) && IsPool(next, nextMag[x := v], head, ms)
    decreases |ms|
  {
    if ms != [] {
      ChainKept(next, x, v, head, ms[0]);
      CountIn(ms[0], x);
      assert Link(nextMag[x := v], ms[0][0]) == Link(nextMag, ms[0][0]);
      PoolKept(next, nextMag, x, v, Link(nextMag, ms[0][0]), ms[1..]);
    }
  }

  lemma LocalLess(ls: seq<Local>, t: nat, x: Item)
    requires t < |ls|
    ensures CountLocal(ls[t], x) <= CountLocals(ls, x)
  {
    LocalsUpdate(ls, t, Local([], 0, None), x);
  }

  lemma HandlesKept(next: Links, x: Item, v: Option<Item>, hs: seq<Handle>, ls: seq<Local>)
    requires AreHandles(next, hs, ls) && CountLocals(ls, x) == 0
    ensures AreHandles(next[x := v], hs, ls)
  {
    hide IsChain, CountLocals;
    forall t | 0 <= t < |ls| ensures IsHandle(next[x := v], hs[t], ls[t]) {
      LocalLess(ls, t, x);
      ChainKept(next, x, v, hs[t].loaded, ls[t].loaded);
      if ls[t].previous.Some? {
        ChainKept(next, x, v, hs[t].previous, ls[t].previous.value);
      }
    }
  }

  /** An item with a user, or not with the cache at all, is in no magazine. */
  lemma InNoMagazine(c: Cache, x: Item)
    requires Conserved(c) && (x in c.user || x !in c.held)
    ensures CountLocals(c.locals, x) == 0 && CountMags(c.shared, x) == 0 && CountMags(c.reclaim, x) == 0
  {
    hide CountLocals, CountMags;
    assert Places(c, x) == One(x in c.held);
  }

  lemma HandlesUpdate(next: Links, hs: seq<Handle>, ls: seq<Local>, t: nat, h: Handle, l: Local)
    requires AreHandles(next, hs, ls) && t < |ls| && IsHandle(next, h, l)
    ensures AreHandles(next, hs[t := h], ls[t := l])
  {
    hide IsHandle;
  }

  lemma {:induction false} NoItems(n: nat, x: Item)
    ensures CountLocals(seq(n, _ => Local([], 0, None)), x) == 0
  {
    if n > 0 {
      var ls := seq(n, _ => Local([], 0, None));
      assert ls[..n - 1] == seq(n - 1, _ => Local([], 0, None));
      NoItems(n - 1, x);
    }
  }

  // ---------------------------------------------------------------- the cache

  /** struct tcache and its per-thread handles.  Magazines are not stored anywhere but in the items
      themselves: an item in a magazine holds the links.  `c` is what all this stands for. */
  class MagCache {
    const size: nat
    var next: Links
    var nextMag: Links
    var handles: seq<Handle>
    var sharedMags: Option<Item>
    var mags: int
    ghost var c: Cache

    ghost predicate Valid()
      reads this
    {
      && Inv(c, size) && mags == c.mags
      && AreHandles(next, handles, c.locals) && IsPool(next, nextMag, sharedMags, c.shared)
    }

    constructor (size: nat, threads: nat)
      requires 0 < size <= MAX_MAG_SIZE
      ensures Valid() && this.size == size && c == Cache(seq(threads, _ => Local([], 0, None)), [], [], 0, {}, {})
    {
      this.size := size;
      next, nextMag, sharedMags, mags := map[], map[], None, 0;
      handles := seq(threads, _ => Handle(0, None, None));
      c := Cache(seq(threads, _ => Local([], 0, None)), [], [], 0, {}, {});
      new;
      forall x ensures Places(c, x) == 0 {
        NoItems(threads, x);
      }
    }

    /** tcache_alloc_mag: items that the cache does not hold are linked into a magazine, which disturbs
        none there is. */
    method AllocMag(items: array<Item>) returns (head: Option<Item>)
      requires Valid() && items.Length == size && Distinct(items[..])
      requires forall i :: 0 <= i < size ==> items[i] !in c.held
      modifies this`next, this`mags
      ensures IsChain(next, head, items[..]) && mags == old(mags) + 1
      ensures AreHandles(next, handles, c.locals) && IsPool(next, nextMag, sharedMags, c.shared)
    {
      hide IsChain, IsPool, AreHandles, Conserved, Balanced, CountLocals, CountMags;
      ghost var all := items[..];
      head := Some(items[0]);
      var pos := items[0];
      for i := 1 to size
        invariant mags == old(mags) && pos == items[i - 1]
        invariant forall j :: 0 <= j < i - 1 ==> Link(next, items[j]) == Some(items[j + 1])
        invariant AreHandles(next, handles, c.locals) && IsPool(next, nextMag, sharedMags, c.shared)
      {
        SetLink(pos, Some(items[i]));
        pos := items[i];
      }
      SetLink(pos, None);
      ChainFrom(next, all);
      mags := mags + 1;
    }

    /** The next_item field of an item that the cache does not hold is written. */
    method SetLink(x: Item, v: Option<Item>)
      requires Inv(c, size) && AreHandles(next, handles, c.locals) && IsPool(next, nextMag, sharedMags, c.shared)
      requires x !in c.held
      modifies this`next
      ensures AreHandles(next, handles, c.locals) && IsPool(next, nextMag, sharedMags, c.shared)
      ensures next == old(next)[x := v]
    {
      hide IsChain, IsPool, AreHandles, Conserved, Balanced, CountLocals, CountMags;
      InNoMagazine(c, x);
      HandlesKept(next, x, v, handles, c.locals);
      PoolKept(next, nextMag, x, v, sharedMags, c.shared);
      next := next[x := v];
    }

    /** __tcache_alloc; `items` is what the backing store would give. */
    method SlowAlloc(t: nat, items: array?<Item>) returns (item: Option<Item>)
      requires Valid() && t < |c.locals| && handles[t].rounds == 0
      requires items != null ==>
        items.Length == size && Distinct(items[..]) && forall i :: 0 <= i < size ==> items[i] !in c.held
      modifies this
      ensures Valid() && Result(item, c) == Alloc(old(c), size, t, if items == null then None else Some(items[..]))
    {
      hide IsPool, IsChain, Conserved, Balanced, Distinct, AllFull, Elements;
      ghost var store := if items == null then None else Some(items[..]);
      ghost var c0, l := c, c.locals[t];
      assert IsHandle(next, handles[t], l) && LocalOk(l, size);
      AllocOk(c, size, t, store);
      var loaded: Option<Item>;
      ghost var mag: Mag;
      if handles[t].previous.Some? {
        loaded := handles[t].previous;
        mag := l.previous.value;
      } else {
        PoolHead(next, nextMag, sharedMags, c.shared);
        loaded := sharedMags;
        if sharedMags.Some? {
          mag := c.shared[0];
          sharedMags := Link(nextMag, sharedMags.value);
        } else {
          if items == null {
            return None;
          }
          loaded := AllocMag(items);
          mag := items[..];
        }
      }
      c := Alloc(c, size, t, store).c;
      ChainHead(next, loaded, mag);
      item := loaded;
      var h := Handle(size - 1, Link(next, loaded.value), None);
      HandlesUpdate(next, handles, c0.locals, t, h, Local(mag[1..], size - 1, None));
      handles := handles[t := h];
    }

    /** tcache_alloc */
    method AllocItem(t: nat, items: array?<Item>) returns (item: Option<Item>)
      requires Valid() && t < |c.locals|
      requires items != null ==>
        items.Length == size && Distinct(items[..]) && forall i :: 0 <= i < size ==> items[i] !in c.held
      modifies this
      ensures Valid() && Result(item, c) == Alloc(old(c), size, t, if items == null then None else Some(items[..]))
    {
      hide IsPool, IsChain, Conserved, Balanced, Distinct, AllFull, Elements, Reload;
      assert IsHandle(next, handles[t], c.locals[t]) && LocalOk(c.locals[t], size);
      if handles[t].rounds == 0 {
        item := SlowAlloc(t, items);
        return;
      }
      ghost var store, c0, l := if items == null then None else Some(items[..]), c, c.locals[t];
      AllocOk(c, size, t, store);
      c := Alloc(c, size, t, store).c;
      ChainHead(next, handles[t].loaded, l.loaded);
      item := handles[t].loaded;
      var h := handles[t].(rounds := handles[t].rounds - 1, loaded := Link(next, item.value));
      HandlesUpdate(next, handles, c0.locals, t, h, Local(l.loaded[1..], l.rounds - 1, l.previous));
      handles := handles[t := h];
    }

    /** __tcache_free up to where the item is freed: a full loaded magazine makes room. */
    method MakeRoom(t: nat, ghost x: Item)
      requires Valid() && t < |c.locals| && handles[t].rounds >= size && x in c.user
      modifies this`nextMag, this`sharedMags
      ensures IsPool(next, nextMag, sharedMags, Free(c, size, t, x).shared)
    {
      hide IsChain, Conserved, Balanced, AllFull, CountLocals;
      ghost var l := c.locals[t];
      assert IsHandle(next, handles[t], l) && LocalOk(l, size);
      var previous := handles[t].previous;
      if previous.Some? {
        ghost var mag := l.previous.value;
        ChainHead(next, previous, mag);
        CountIn(mag, mag[0]);
        OnlyHere(c, t, mag[0]);
        PoolKept(next, nextMag, mag[0], sharedMags, sharedMags, c.shared);
        nextMag := nextMag[previous.value := sharedMags];
        sharedMags := previous;
        assert ([mag] + c.shared)[1..] == c.shared;
      }
    }

    /** tcache_free, with the slow path __tcache_free */
    method FreeItem(t: nat, x: Item)
      requires Valid() && t < |c.locals| && x in c.user
      modifies this
      ensures Valid() && c == Free(old(c), size, t, x)
    {
      hide IsPool, IsChain, Conserved, Balanced, AllFull, CountLocals, CountMags;
      ghost var l, c' := c.locals[t], Free(c, size, t, x);
      assert IsHandle(next, handles[t], l) && LocalOk(l, size);
      FreeOk(c, size, t, x);
      InNoMagazine(c, x);
      LocalLess(c.locals, t, x);
      var h := handles[t];
      if h.rounds >= size {
        FreedPool(c, size, t, x);
        MakeRoom(t, x);
        h := Handle(1, Some(x), h.loaded);
      } else {
        h := h.(rounds := h.rounds + 1, loaded := Some(x));
      }
      ghost var next' := next[x := if handles[t].rounds >= size then None else handles[t].loaded];
      HandlesKept(next, x, next'[x], handles, c.locals);
      PoolKept(next, nextMag, x, next'[x], sharedMags, c'.shared);
      FreedHandle(next, handles[t], l, size, x);
      HandlesUpdate(next', handles, c.locals, t, h, c'.locals[t]);
      next := next[x := if handles[t].rounds >= size then None else handles[t].loaded];
      handles := handles[t := h];
      c := c';
    }

    /** The loop of tcache_free_mag: a magazine is unlinked into an array. */
    method Unlink(head: Item, items: array<Item>, ghost mag: Mag) returns (nr: nat)
      requires IsChain(next, Some(head), mag) && |mag| <= items.Length
      modifies items
      ensures nr == |mag| && items[..nr] == mag
    {
      nr := 0;
      var hdr := Some(head);
      while hdr.Some?
        invariant 0 <= nr <= |mag| && items[..nr] == mag[..nr] && IsChain(next, hdr, mag[nr..])
        decreases |mag| - nr
      {
        assert mag[nr..] != [];
        items[nr] := hdr.value;
        assert mag[nr..][1..] == mag[nr + 1..];
        nr := nr + 1;
        hdr := Link(next, hdr.value);
      }
    }

    /** tcache_free_mag, with its assertion that the magazine is whole */
    method FreeMagazine(head: Item)
      requires Valid() && c.reclaim != [] && IsChain(next, Some(head), c.reclaim[0])
      modifies this`mags, this`c
      ensures Valid() && c == FreeMag(old(c))
    {
      hide Conserved, Balanced, Elements, IsPool, AreHandles;
      FreeMagOk(c, size);
      var items := new Item[MAX_MAG_SIZE];
      var nr := Unlink(head, items, c.reclaim[0]);
      hide IsChain, Inv;
      assert nr == size;
      c := FreeMag(c);
      mags := mags - 1;
    }

    /** tcache_reclaim: afterwards the pool is empty, and all its magazines went back. */
    method ReclaimPool()
      requires Valid() && c.reclaim == []
      modifies this
      ensures Valid() && c.shared == [] && c.reclaim == []
      ensures c.locals == old(c).locals && c.user == old(c).user && c.mags == old(c).mags - |old(c).shared|
    {
      hide Inv, AreHandles, IsChain;
      TakePoolOk(c, size);
      var hdr := sharedMags;
      sharedMags := None;
      assert c.reclaim + c.shared == c.shared;
      c := TakePool(c);
      while hdr.Some?
        invariant Valid() && c.shared == [] && IsPool(next, nextMag, hdr, c.reclaim)
        invariant c.locals == old(c).locals && c.user == old(c).user
        invariant c.mags == old(c).mags - |old(c).shared| + |c.reclaim|
        decreases |c.reclaim|
      {
        ChainHead(next, hdr, c.reclaim[0]);
        var rest := Link(nextMag, hdr.value);
        FreeMagazine(hdr.value);
        hdr := rest;
      }
      PoolHead(next, nextMag, hdr, c.reclaim);
    }
  }

  lemma EmptyChain(next: Links)
    ensures IsChain(next, None, [])
  {
  }

  lemma ChainHead(next: Links, head: Option<Item>, mag: Mag)
    requires IsChain(next, head, mag) && mag != []
    ensures head == Some(mag[0]) && IsChain(next, Link(next, mag[0]), mag[1..])
  {
  }

  lemma ConsChain(next: Links, x: Item, head: Option<Item>, mag: Mag)
    requires IsChain(next, head, mag) && Count(mag, x) == 0
    ensures IsChain(next[x := head], Some(x), [x] + mag)
  {
    ChainKept(next, x, head, head, mag);
    assert ([x] + mag)[1..] == mag;
  }

  lemma {:induction false} ChainFrom(next: Links, mag: Mag)
    requires mag != [] && Link(next, mag[|mag| - 1]).None?
    requires forall j :: 0 <= j < |mag| - 1 ==> Link(next, mag[j]) == Some(mag[j + 1])
    ensures IsChain(next, Some(mag[0]), mag)
  {
    if |mag| > 1 {
      ChainFrom(next, mag[1..]);
    } else {
      assert mag[1..] == [];
    }
  }

  lemma PoolHead(next: Links, nextMag: Links, head: Option<Item>, ms: seq<Mag>)
    requires IsPool(next, nextMag, head, ms)
    ensures head.Some? <==> ms != []
    ensures ms != [] ==>
      && ms[0] != [] && IsChain(next, head, ms[0]) && head == Some(ms[0][0])
      && IsPool(next, nextMag, Link(nextMag, ms[0][0]), ms[1..])
  {
  }

  /** A freed item is in no magazine of the pool, before or after. */
  lemma FreedPool(c: Cache, size: nat, t: nat, x: Item)
    requires ShapeOk(c, size) && t < |c.locals| && CountLocals(c.locals, x) == 0 && CountMags(c.shared, x) == 0
    ensures CountMags(Free(c, size, t, x).shared, x) == 0
  {
    LocalLess(c.locals, t, x);
    var l := c.locals[t];
    if l.rounds >= size && l.previous.Some? {
      assert ([l.previous.value] + c.shared)[1..] == c.shared;
    }
  }

  lemma FreedHandle(next: Links, h: Handle, l: Local, size: nat, x: Item)
    requires IsHandle(next, h, l) && LocalOk(l, size) && size > 0 && CountLocal(l, x) == 0
    ensures h.rounds < size ==>
      IsHandle(next[x := h.loaded], h.(rounds := h.rounds + 1, loaded := Some(x)),
               Local([x] + l.loaded, l.rounds + 1, l.previous))
    ensures h.rounds >= size ==>
      IsHandle(next[x := None], Handle(1, Some(x), h.loaded), Local([x], 1, Some(l.loaded)))
  {
    hide IsChain, Count;
    ConsChain(next, x, h.loaded, l.loaded);
    EmptyChain(next);
    assert Count([], x) == 0 by { NoneCounted(x); }
    ConsChain(next, x, None, []);
    assert [x] + [] == [x];
    ChainKept(next, x, None, h.loaded, l.loaded);
    ChainHeadSome(next, h.loaded, l.loaded);
    if l.previous.Some? {
      ChainKept(next, x, h.loaded, h.previous, l.previous.value);
    }
  }

  lemma NoneCounted(x: Item)
    ensures Count([], x) == 0
  {
  }

  lemma ChainHeadSome(next: Links, head: Option<Item>, mag: Mag)
    requires IsChain(next, head, mag)
    ensures head.Some? <==> mag != []
  {
  }
}
