/**
 A slab node: pages cut into equal items, a free list per page, and a bump pointer for the items of
 the current page that were never handed out.

 An item is a page and a slot in it.  `live` is the set of items in users' hands.  `Valid` is the
 node's invariant; each operation keeps it and says what it does to `live`.
 */
module Slab {
  import opened Prelude

  const PARTIAL_THRESH := 4
  const WORD_SIZE := 64
  const CACHE_LINE_SIZE := 64
  const PGSIZE_4KB := 4096
  const PGSIZE_2MB := 2097152

  /** The least number of items in a page. */
  const MIN_ELEMS := 2 * PARTIAL_THRESH

  function AlignUp(size: nat, align: nat): nat
    requires align > 0
  {
    (size + align - 1) / align * align
  }

  /** slab_create: how many items a page holds, if items of this size are accepted. */
  function NrElems(size: nat, falseOkay: bool, large: bool): Option<nat>
    requires size > 0
  {
    var s := AlignUp(size, if falseOkay then WORD_SIZE else CACHE_LINE_SIZE);
    if s == 0 || s > PGSIZE_2MB / MIN_ELEMS then None
    else if large || s > PGSIZE_4KB / MIN_ELEMS then Some(PGSIZE_2MB / s)
    else Some(PGSIZE_4KB / s)
  }

  lemma Fits(page: nat, s: nat)
    requires 0 < s <= page / MIN_ELEMS
    ensures page / s >= MIN_ELEMS
  {
  }

  /** No page of any slab holds fewer than eight items. */
  lemma AtLeastEight(size: nat, falseOkay: bool, large: bool)
    requires size > 0
    ensures NrElems(size, falseOkay, large).Some? ==> NrElems(size, falseOkay, large).value >= MIN_ELEMS
  {
    hide AlignUp;
    var s := AlignUp(size, if falseOkay then WORD_SIZE else CACHE_LINE_SIZE);
    if 0 < s <= PGSIZE_4KB / MIN_ELEMS {
      Fits(PGSIZE_4KB, s);
    }
    if 0 < s <= PGSIZE_2MB / MIN_ELEMS {
      Fits(PGSIZE_2MB, s);
    }
  }

  datatype Item = Item(page: nat, slot: nat)

  /** `next` is the page's free list, first item first. */
  datatype Page = Page(next: seq<nat>, count: int)

  /** A list of distinct slots below `n` holds them all exactly if it has `n` members. */
  lemma AllListed(next: seq<nat>, n: nat)
    requires Distinct(next) && forall i :: i in next ==> i < n
    ensures |next| <= n
    ensures |next| == n <==> forall i :: 0 <= i < n ==> i in next
  {
    var listed, all := Elements(next), Upto(n);
    hide Elements, Upto, Distinct;
    SubsetSize(listed, all);
    if forall i :: 0 <= i < n ==> i in next {
      assert listed == all;
    }
  }

  // ---------------------------------------------------------------- one page

  /** Slots from here on were never handed out. */
  function Limit(elems: nat, bumped: Option<nat>): nat {
    if bumped.Some? then bumped.value else elems
  }

  /** A slot is free if it is on the free list or beyond the bump pointer. */
  ghost predicate IsFree(pg: Page, elems: nat, bumped: Option<nat>, i: nat) {
    i in pg.next || Limit(elems, bumped) <= i < elems
  }

  /** `bumped` is the bump pointer, if this is the current page.  The count is the length of the free
      list plus the items beyond the bump pointer. */
  ghost predicate PageOk(pg: Page, elems: nat, bumped: Option<nat>) {
    && Distinct(pg.next)
    && Limit(elems, bumped) <= elems
    && (forall i :: i in pg.next ==> i < Limit(elems, bumped))
    && pg.count == |pg.next| + (elems - Limit(elems, bumped))
  }

  /** The count is exact: it is full exactly if every slot is free, and zero if none is. */
  lemma CountIsExact(pg: Page, elems: nat, bumped: Option<nat>)
    requires PageOk(pg, elems, bumped)
    ensures 0 <= pg.count <= elems
    ensures pg.count == elems <==> forall i :: 0 <= i < elems ==> IsFree(pg, elems, bumped, i)
    ensures pg.count == 0 <==> forall i :: 0 <= i < elems ==> !IsFree(pg, elems, bumped, i)
  {
    AllListed(pg.next, Limit(elems, bumped));
    hide Distinct;
    if forall i :: 0 <= i < elems ==> IsFree(pg, elems, bumped, i) {
      forall i | 0 <= i < Limit(elems, bumped) ensures i in pg.next {
        assert IsFree(pg, elems, bumped, i);
      }
    }
    if pg.next != [] {
      assert pg.next[0] in pg.next && IsFree(pg, elems, bumped, pg.next[0]);
    } else if Limit(elems, bumped) < elems {
      assert IsFree(pg, elems, bumped, Limit(elems, bumped));
    }
  }

  /** Handing out an item: from the free list if it has one, else from the bump pointer. */
  function TakeSlot(pg: Page, bumped: nat): (r: (nat, Page, nat)) {
    if pg.next != [] then (pg.next[0], Page(pg.next[1..], pg.count - 1), bumped)
    else (bumped, pg.(count := pg.count - 1), bumped + 1)
  }

  lemma TakeSlotOk(pg: Page, elems: nat, bumped: nat)
    requires PageOk(pg, elems, Some(bumped)) && pg.count > 0
    ensures var (i, pg', bumped') := TakeSlot(pg, bumped);
      && i < elems && IsFree(pg, elems, Some(bumped), i) && PageOk(pg', elems, Some(bumped'))
      && (forall j :: 0 <= j < elems ==>
            (IsFree(pg', elems, Some(bumped'), j) <==> IsFree(pg, elems, Some(bumped), j) && j != i))
  {
    if pg.next != [] {
      assert pg.next[0] in pg.next;
      assert forall i :: i in pg.next <==> i == pg.next[0] || i in pg.next[1..];
    }
  }

  lemma PutSlotOk(pg: Page, elems: nat, bumped: Option<nat>, i: nat)
    requires PageOk(pg, elems, bumped) && i < elems && !IsFree(pg, elems, bumped, i)
    ensures var pg' := Page([i] + pg.next, pg.count + 1);
      && PageOk(pg', elems, bumped)
      && (forall j :: 0 <= j < elems ==> (IsFree(pg', elems, bumped, j) <==> IsFree(pg, elems, bumped, j) || j == i))
  {
  }

  // ---------------------------------------------------------------- the node

  /** struct slab_node; `bumped` counts the slots of the current page below `pg_off`. */
  datatype Node = Node(pages: map<nat, Page>, cur: Option<nat>, bumped: nat, full: seq<nat>, partial: seq<nat>)

  function BumpOf(n: Node, p: nat): Option<nat> {
    if n.cur == Some(p) then Some(n.bumped) else None
  }

  ghost predicate PagesOk(n: Node, elems: nat) {
    && (forall p :: p in n.pages ==> PageOk(n.pages[p], elems, BumpOf(n, p)))
    && (n.cur.Some? ==> n.cur.value in n.pages)
    && (n.cur.None? ==> n.pages == map[] || n.bumped == elems)
  }

  /** Each page that is not the current one is on the full list if its count is below the threshold
      and on the partial list if it is not; and not all its items are free. */
  ghost predicate ListsOk(n: Node, elems: nat) {
    && Distinct(n.full) && Distinct(n.partial)
    && (forall p :: p in n.full <==> p in n.pages && n.cur != Some(p) && n.pages[p].count < PARTIAL_THRESH)
    && (forall p :: p in n.partial <==> p in n.pages && n.cur != Some(p) && n.pages[p].count >= PARTIAL_THRESH)
    && (forall p :: p in n.pages && n.cur != Some(p) ==> n.pages[p].count < elems)
  }

  /** The items in users' hands are exactly those that are not free. */
  ghost predicate LiveOk(n: Node, elems: nat, live: set<Item>) {
    && (forall x :: x in live ==> x.page in n.pages && x.slot < elems)
    && (forall p, i :: p in n.pages && 0 <= i < elems ==>
          (Item(p, i) in live <==> !IsFree(n.pages[p], elems, BumpOf(n, p), i)))
  }

  ghost predicate NodeOk(n: Node, elems: nat, live: set<Item>) {
    elems >= MIN_ELEMS && PagesOk(n, elems) && ListsOk(n, elems) && LiveOk(n, elems, live)
  }

  /** A current page with nothing left goes to the full list. */
  function Retire(n: Node): Node {
    if n.cur.Some? then n.(full := [n.cur.value] + n.full, cur := None) else n
  }

  /** __slab_node_get_page: a partial page, or else a fresh page `fresh` if memory allows. */
  function GetPage(n: Node, elems: nat, page: Option<nat>): Node
    requires n.cur.None?
  {
    if n.partial != [] then n.(cur := Some(n.partial[0]), partial := n.partial[1..])
    else if page.Some? then n.(cur := page, bumped := 0, pages := n.pages[page.value := Page([], elems)])
    else n
  }

  lemma RetireOk(n: Node, elems: nat, live: set<Item>)
    requires NodeOk(n, elems, live) && (n.cur.Some? ==> n.pages[n.cur.value].count == 0)
    ensures NodeOk(Retire(n), elems, live)
    ensures Retire(n).cur.None?
  {
    if n.cur.Some? {
      var p := n.cur.value;
      assert PageOk(n.pages[p], elems, Some(n.bumped));
      assert n.bumped == elems && n.pages[p].next == [];
      assert PageOk(n.pages[p], elems, None);
      assert forall q :: q in n.pages && q != p ==> BumpOf(Retire(n), q) == BumpOf(n, q);
      hide PageOk;
    }
  }

  lemma ReuseOk(n: Node, elems: nat, live: set<Item>)
    requires NodeOk(n, elems, live) && n.cur.None? && n.partial != []
    ensures var n' := n.(cur := Some(n.partial[0]), partial := n.partial[1..]);
      NodeOk(n', elems, live) && n'.pages[n'.cur.value].count > 0
  {
    var p := n.partial[0];
    var n' := n.(cur := Some(p), partial := n.partial[1..]);
    assert p in n.partial && n.bumped == elems;
    assert forall q :: q in n.partial <==> q == p || q in n'.partial;
    assert PageOk(n.pages[p], elems, None);
    assert PageOk(n.pages[p], elems, Some(n.bumped));
    hide PageOk;
    assert LiveOk(n', elems, live) by {
      hide ListsOk;
      assert forall q, i :: q in n.pages && 0 <= i < elems ==>
        (IsFree(n.pages[q], elems, BumpOf(n', q), i) <==> IsFree(n.pages[q], elems, BumpOf(n, q), i));
    }
    hide LiveOk;
  }

  lemma FreshOk(n: Node, elems: nat, live: set<Item>, page: nat)
    requires NodeOk(n, elems, live) && n.cur.None? && n.partial == [] && page !in n.pages
    ensures var n' := n.(cur := Some(page), bumped := 0, pages := n.pages[page := Page([], elems)]);
      NodeOk(n', elems, live)
  {
    var n' := n.(cur := Some(page), bumped := 0, pages := n.pages[page := Page([], elems)]);
    assert PageOk(n'.pages[page], elems, Some(0));
    hide PageOk;
    assert LiveOk(n', elems, live) by {
      hide ListsOk;
    }
    hide LiveOk;
  }

  lemma GetPageOk(n: Node, elems: nat, live: set<Item>, page: Option<nat>)
    requires NodeOk(n, elems, live) && n.cur.None? && (page.Some? ==> page.value !in n.pages)
    ensures var n' := GetPage(n, elems, page);
      && NodeOk(n', elems, live)
      && (n'.cur.Some? ==> n'.cur.value in n'.pages && n'.pages[n'.cur.value].count > 0)
      && (n'.cur.None? <==> n.partial == [] && page.None?)
  {
    hide ListsOk, LiveOk, PageOk;
    if n.partial != [] {
      ReuseOk(n, elems, live);
    } else if page.Some? {
      FreshOk(n, elems, live, page.value);
    }
  }

  // ---------------------------------------------------------------- alloc and free

  datatype Allocated = Allocated(item: Option<Item>, n: Node)

  /** __slab_node_alloc; `page` is what the page allocator would give. */
  function Alloc(n0: Node, elems: nat, page: Option<nat>): Allocated {
    var n := if n0.cur.None? || n0.cur.value !in n0.pages || n0.pages[n0.cur.value].count == 0
             then GetPage(Retire(n0), elems, page) else n0;
    if n.cur.None? || n.cur.value !in n.pages then Allocated(None, n)
    else
      var p := n.cur.value;
      var (i, pg, bumped) := TakeSlot(n.pages[p], n.bumped);
      Allocated(Some(Item(p, i)), n.(pages := n.pages[p := pg], bumped := bumped))
  }

  lemma TakeOk(n: Node, elems: nat, live: set<Item>)
    requires NodeOk(n, elems, live) && n.cur.Some? && n.pages[n.cur.value].count > 0
    ensures var (i, pg, bumped) := TakeSlot(n.pages[n.cur.value], n.bumped);
      && i < elems && Item(n.cur.value, i) !in live
      && NodeOk(n.(pages := n.pages[n.cur.value := pg], bumped := bumped), elems, live + {Item(n.cur.value, i)})
  {
    hide PageOk, TakeSlot, IsFree, Distinct;
    var p := n.cur.value;
    TakeSlotOk(n.pages[p], elems, n.bumped);
    var (i, pg, bumped) := TakeSlot(n.pages[p], n.bumped);
    var n' := n.(pages := n.pages[p := pg], bumped := bumped);
    assert BumpOf(n', p) == Some(bumped) && BumpOf(n, p) == Some(n.bumped);
    assert forall q :: q in n.pages && q != p ==> n'.pages[q] == n.pages[q] && BumpOf(n', q) == BumpOf(n, q);
    assert PagesOk(n', elems);
    assert LiveOk(n', elems, live + {Item(p, i)}) by {
      hide ListsOk, IsFree;
    }
    hide LiveOk;
  }

  /** No item is handed out twice: what is handed out was in nobody's hands.  Allocation fails only if
      the current page has nothing left, no page is on the partial list, and no fresh page is to be
      had; pages on the full list may well have a few free items. */
  lemma AllocOk(n: Node, elems: nat, live: set<Item>, page: Option<nat>)
    requires NodeOk(n, elems, live) && (page.Some? ==> page.value !in n.pages)
    ensures var a := Alloc(n, elems, page);
      && (a.item.None? <==> page.None? && n.partial == [] && (n.cur.Some? ==> n.pages[n.cur.value].count == 0))
      && (a.item.None? ==> NodeOk(a.n, elems, live))
      && (a.item.Some? ==> a.item.value !in live && NodeOk(a.n, elems, live + {a.item.value}))
  {
    hide ListsOk, LiveOk, PageOk, TakeSlot, GetPage, Retire;
    var n1 := n;
    if n.cur.None? || n.pages[n.cur.value].count == 0 {
      RetireOk(n, elems, live);
      RetirePages(n);
      n1 := GetPage(Retire(n), elems, page);
      GetPageOk(Retire(n), elems, live, page);
    } else {
      assert n.pages[n.cur.value].count > 0 by { CurrentCount(n, elems); }
    }
    if n1.cur.Some? {
      TakeOk(n1, elems, live);
    }
  }

  lemma RetirePages(n: Node)
    ensures Retire(n).pages == n.pages && Retire(n).partial == n.partial
  {
  }

  lemma CurrentCount(n: Node, elems: nat)
    requires PagesOk(n, elems) && n.cur.Some?
    ensures n.pages[n.cur.value].count >= 0
  {
    assert PageOk(n.pages[n.cur.value], elems, BumpOf(n, n.cur.value));
  }

  datatype Freed = Freed(n: Node, released: Option<nat>)

  /** slab_node_free, of an item of a page of this node */
  function Free(n0: Node, elems: nat, x: Item): Freed
    requires x.page in n0.pages
  {
    var p := x.page;
    var pg := Page([x.slot] + n0.pages[p].next, n0.pages[p].count + 1);
    var n := n0.(pages := n0.pages[p := pg]);
    if n.cur == Some(p) then Freed(n, None)
    else if pg.count == PARTIAL_THRESH then
      Freed(n.(full := Without(n.full, p), partial := [p] + n.partial), None)
    else if pg.count == elems then
      Freed(n.(full := Without(n.full, p), partial := Without(n.partial, p), pages := n.pages - {p}), Some(p))
    else Freed(n, None)
  }

  lemma PutOk(n: Node, elems: nat, live: set<Item>, x: Item)
    requires PagesOk(n, elems) && LiveOk(n, elems, live) && x in live
    ensures x.page in n.pages && x.slot < elems
    ensures var pg := Page([x.slot] + n.pages[x.page].next, n.pages[x.page].count + 1);
      var n' := n.(pages := n.pages[x.page := pg]);
      PagesOk(n', elems) && LiveOk(n', elems, live - {x})
  {
    var p := x.page;
    assert PageOk(n.pages[p], elems, BumpOf(n, p)) && x == Item(p, x.slot);
    PutSlotOk(n.pages[p], elems, BumpOf(n, p), x.slot);
    hide PageOk, IsFree;
    var pg := Page([x.slot] + n.pages[p].next, n.pages[p].count + 1);
    var n' := n.(pages := n.pages[p := pg]);
    assert forall q :: q in n.pages ==> BumpOf(n', q) == BumpOf(n, q);
  }

  /** One page is on the right list, as in ListsOk. */
  ghost predicate IsListed(n: Node, elems: nat, p: nat) {
    && (p in n.full <==> p in n.pages && n.cur != Some(p) && n.pages[p].count < PARTIAL_THRESH)
    && (p in n.partial <==> p in n.pages && n.cur != Some(p) && n.pages[p].count >= PARTIAL_THRESH)
    && (p in n.pages && n.cur != Some(p) ==> n.pages[p].count < elems)
  }

  lemma ListsStep(n: Node, n': Node, elems: nat, p: nat)
    requires ListsOk(n, elems) && n'.cur == n.cur && Distinct(n'.full) && Distinct(n'.partial) && IsListed(n', elems, p)
    requires forall q :: q != p ==> (q in n'.pages <==> q in n.pages) && (q in n.pages ==> n'.pages[q] == n.pages[q])
    requires forall q :: q != p ==> (q in n'.full <==> q in n.full) && (q in n'.partial <==> q in n.partial)
    ensures ListsOk(n', elems)
  {
    hide Distinct;
  }

  lemma FreeLists(n: Node, elems: nat, x: Item)
    requires elems >= MIN_ELEMS && ListsOk(n, elems) && x.page in n.pages && 0 <= n.pages[x.page].count < elems
    ensures ListsOk(Free(n, elems, x).n, elems)
  {
    var p, n' := x.page, Free(n, elems, x).n;
    assert IsListed(n, elems, p);
    WithoutDrops(n.full, p);
    WithoutDrops(n.partial, p);
    ConsDistinct([p] + n.partial);
    assert Distinct(n.full) && Distinct(n.partial);
    hide Distinct, Without, ListsOk;
    ListsStep(n, n', elems, p);
  }

  lemma DropPage(n: Node, elems: nat, live: set<Item>, p: nat)
    requires PagesOk(n, elems) && LiveOk(n, elems, live) && p in n.pages && n.cur != Some(p)
    requires n.pages[p].count == elems && (n.cur.None? ==> n.bumped == elems)
    ensures forall i :: 0 <= i < elems ==> Item(p, i) !in live
    ensures PagesOk(n.(pages := n.pages - {p}), elems) && LiveOk(n.(pages := n.pages - {p}), elems, live)
  {
    assert PageOk(n.pages[p], elems, None) && BumpOf(n, p) == None;
    CountIsExact(n.pages[p], elems, None);
    hide PageOk, IsFree;
    assert forall i :: 0 <= i < elems ==> Item(p, i) !in live;
    assert forall x :: x in live ==> x == Item(x.page, x.slot);
  }

  lemma ListsFrame(n: Node, n': Node, elems: nat, live: set<Item>)
    requires PagesOk(n, elems) && LiveOk(n, elems, live)
    requires n'.pages == n.pages && n'.cur == n.cur && n'.bumped == n.bumped
    ensures PagesOk(n', elems) && LiveOk(n', elems, live)
  {
    assert forall q :: BumpOf(n', q) == BumpOf(n, q);
    hide PageOk, IsFree, BumpOf;
  }

  /** A page's count says how its items are spread: all are free exactly if none is live. */
  lemma PageCount(n: Node, elems: nat, live: set<Item>, p: nat)
    requires PagesOk(n, elems) && LiveOk(n, elems, live) && p in n.pages
    ensures 0 <= n.pages[p].count <= elems
    ensures n.pages[p].count == elems <==> forall i :: 0 <= i < elems ==> Item(p, i) !in live
    ensures n.pages[p].count == 0 <==> forall i :: 0 <= i < elems ==> Item(p, i) in live
  {
    hide IsFree;
    assert PageOk(n.pages[p], elems, BumpOf(n, p));
    hide PageOk;
    CountIsExact(n.pages[p], elems, BumpOf(n, p));
  }

  lemma FreeKeepsOk(n: Node, elems: nat, live: set<Item>, x: Item)
    requires NodeOk(n, elems, live) && x in live
    ensures x.page in n.pages && NodeOk(Free(n, elems, x).n, elems, live - {x})
  {
    hide PageOk, IsFree, ListsOk;
    var p := x.page;
    PutOk(n, elems, live, x);
    PageCount(n, elems, live, p);
    assert x == Item(p, x.slot);
    var pg := Page([x.slot] + n.pages[p].next, n.pages[p].count + 1);
    var n1 := n.(pages := n.pages[p := pg]);
    FreeLists(n, elems, x);
    hide LiveOk;
    if n.cur != Some(p) {
      if pg.count == PARTIAL_THRESH {
        ListsFrame(n1, Free(n, elems, x).n, elems, live - {x});
      } else if pg.count == elems {
        DropPage(n1, elems, live - {x}, p);
        ListsFrame(n1.(pages := n1.pages - {p}), Free(n, elems, x).n, elems, live - {x});
      }
    }
  }

  /** Freeing takes exactly that item out of users' hands.  A page is released exactly if it is not
      the current one and none of its items is left in users' hands. */
  lemma FreeOk(n: Node, elems: nat, live: set<Item>, x: Item)
    requires NodeOk(n, elems, live) && x in live
    ensures x.page in n.pages
    ensures var f := Free(n, elems, x);
      && NodeOk(f.n, elems, live - {x})
      && (f.released.Some? ==> f.released.value == x.page && x.page !in f.n.pages)
      && (f.released.Some? <==> n.cur != Some(x.page) && forall i :: 0 <= i < elems ==> Item(x.page, i) !in live - {x})
  {
    hide PageOk, IsFree, ListsOk, Without;
    FreeKeepsOk(n, elems, live, x);
    PutOk(n, elems, live, x);
    var pg := Page([x.slot] + n.pages[x.page].next, n.pages[x.page].count + 1);
    PageCount(n.(pages := n.pages[x.page := pg]), elems, live - {x}, x.page);
    hide LiveOk, PagesOk;
  }

  // ---------------------------------------------------------------- runs

  datatype Event = Get(page: Option<nat>) | Put(item: Item)

  datatype State = State(n: Node, live: set<Item>)

  ghost predicate IsEvent(s: State, e: Event) {
    match e
    case Get(page) => page.Some? ==> page.value !in s.n.pages
    case Put(x) => x in s.live
  }

  ghost predicate IsStep(elems: nat, s: State, e: Event, s': State) {
    && IsEvent(s, e)
    && match e
       case Get(page) =>
         var a := Alloc(s.n, elems, page);
         s' == State(a.n, s.live + if a.item.Some? then {a.item.value} else {})
       case Put(x) => x.page in s.n.pages ==> s' == State(Free(s.n, elems, x).n, s.live - {x})
  }

  ghost predicate IsRun(elems: nat, run: seq<State>, events: seq<Event>) {
    && elems >= MIN_ELEMS && |run| == |events| + 1 && run[0] == State(Node(map[], None, 0, [], []), {})
    && forall i :: 0 <= i < |events| ==> IsStep(elems, run[i], events[i], run[i + 1])
  }

  lemma {:induction false} RunOk(elems: nat, run: seq<State>, events: seq<Event>, i: nat)
    requires IsRun(elems, run, events) && i < |run|
    ensures NodeOk(run[i].n, elems, run[i].live)
  {
    if i > 0 {
      hide NodeOk, Alloc, Free;
      RunOk(elems, run, events, i - 1);
      var s := run[i - 1];
      assert IsStep(elems, s, events[i - 1], run[i - 1 + 1]);
      match events[i - 1]
      case Get(page) =>
        AllocOk(s.n, elems, s.live, page);
        assert s.live + {} == s.live;
      case Put(x) => FreeOk(s.n, elems, s.live, x);
    }
  }

  /** In every run of allocations and frees: an item handed out was in nobody's hands. */
  lemma NeverTwice(elems: nat, run: seq<State>, events: seq<Event>, i: nat)
    requires IsRun(elems, run, events) && i < |events| && events[i].Get?
    ensures var a := Alloc(run[i].n, elems, events[i].page);
      a.item.Some? ==> a.item.value !in run[i].live && run[i + 1].live == run[i].live + {a.item.value}
  {
    hide NodeOk, Alloc;
    RunOk(elems, run, events, i);
    assert IsStep(elems, run[i], events[i], run[i + 1]);
    AllocOk(run[i].n, elems, run[i].live, events[i].page);
  }

  /** In every run: a page's item_count is its free-list length plus, on the current page, its items
      beyond the bump pointer, and this is the number of slots not in users' hands; the other pages
      are on the full list if it is below the threshold, else on the partial list; and none of them
      stays once all its items are free. */
  lemma PagesAccounted(elems: nat, run: seq<State>, events: seq<Event>, i: nat, p: nat)
    requires IsRun(elems, run, events) && i < |run| && p in run[i].n.pages
    ensures var n := run[i].n;
      && n.pages[p].count == |n.pages[p].next| + (if n.cur == Some(p) then elems - n.bumped else 0)
      && (n.pages[p].count == elems <==> forall k :: 0 <= k < elems ==> Item(p, k) !in run[i].live)
      && (n.pages[p].count == 0 <==> forall k :: 0 <= k < elems ==> Item(p, k) in run[i].live)
      && (n.cur != Some(p) ==> (p in n.full <==> n.pages[p].count < PARTIAL_THRESH))
      && (n.cur != Some(p) ==> (p in n.partial <==> PARTIAL_THRESH <= n.pages[p].count < elems))
      && !(p in n.full && p in n.partial)
  {
    hide IsRun, LiveOk;
    RunOk(elems, run, events, i);
    PageCount(run[i].n, elems, run[i].live, p);
    assert PageOk(run[i].n.pages[p], elems, BumpOf(run[i].n, p));
  }

  // ---------------------------------------------------------------- failing with free items

  ghost predicate EndsIn(elems: nat, run: seq<State>, events: seq<Event>, s: State) {
    IsRun(elems, run, events) && run[|run| - 1] == s
  }

  lemma Then(elems: nat, run: seq<State>, events: seq<Event>, s: State, e: Event, s': State)
    returns (r: seq<State>, es: seq<Event>)
    requires EndsIn(elems, run, events, s) && IsStep(elems, s, e, s')
    ensures EndsIn(elems, r, es, s')
  {
    hide IsStep;
    r, es := run + [s'], events + [e];
    forall i | 0 <= i < |es| ensures IsStep(elems, r[i], es[i], r[i + 1]) {
      assert i < |events| ==> IsStep(elems, run[i], events[i], run[i + 1]);
    }
  }

  /** Page `p` is current and `k` of its items were handed out, all from the bump pointer. */
  predicate Bumping(n: Node, elems: nat, p: nat, k: nat) {
    n.cur == Some(p) && n.bumped == k <= elems && p in n.pages && n.pages[p] == Page([], elems - k)
  }

  /** Allocations use up a fresh page. */
  lemma {:induction false} UsesUp(elems: nat, run: seq<State>, events: seq<Event>, s: State, p: nat, k: nat)
    returns (r: seq<State>, es: seq<Event>, s': State)
    requires EndsIn(elems, run, events, s) && Bumping(s.n, elems, p, k)
    ensures EndsIn(elems, r, es, s') && s'.n == s.n.(pages := s.n.pages[p := Page([], 0)], bumped := elems)
    decreases elems - k
  {
    hide EndsIn;
    if k == elems {
      assert s.n.pages[p := Page([], 0)] == s.n.pages;
      r, es, s' := run, events, s;
    } else {
      var a := Alloc(s.n, elems, None);
      s' := State(a.n, s.live + {a.item.value});
      assert IsStep(elems, s, Get(None), s');
      r, es := Then(elems, run, events, s, Get(None), s');
      assert Bumping(s'.n, elems, p, k + 1);
      r, es, s' := UsesUp(elems, r, es, s', p, k + 1);
      assert a.n.pages[p := Page([], 0)] == s.n.pages[p := Page([], 0)];
    }
  }

  /** A fresh page is fetched and used up. */
  lemma FillsPage(elems: nat, run: seq<State>, events: seq<Event>, s: State, p: nat)
    returns (r: seq<State>, es: seq<Event>, s': State)
    requires EndsIn(elems, run, events, s) && p !in s.n.pages && s.n.partial == []
    requires s.n.cur.Some? ==> s.n.cur.value in s.n.pages && s.n.pages[s.n.cur.value].count == 0
    requires elems >= MIN_ELEMS
    ensures EndsIn(elems, r, es, s')
    ensures s'.n == Node(s.n.pages[p := Page([], 0)], Some(p), elems, Retire(s.n).full, [])
  {
    hide EndsIn;
    var a := Alloc(s.n, elems, Some(p));
    s' := State(a.n, s.live + {a.item.value});
    assert IsStep(elems, s, Get(Some(p)), s');
    r, es := Then(elems, run, events, s, Get(Some(p)), s');
    assert Bumping(s'.n, elems, p, 1);
    r, es, s' := UsesUp(elems, r, es, s', p, 1);
    assert a.n.pages[p := Page([], 0)] == s.n.pages[p := Page([], 0)];
  }

  /** Whatever the number of items in a page, there is a run after which allocation fails while an item
      of a page on the full list is free: two pages are used up and one item of the first is freed. */
  lemma FailsWithFreeItem(elems: nat) returns (run: seq<State>, events: seq<Event>)
    requires elems >= MIN_ELEMS
    ensures IsRun(elems, run, events)
    ensures var s := run[|run| - 1];
      && Alloc(s.n, elems, None).item.None?
      && 0 in s.n.full && 0 in s.n.pages && s.n.pages[0].next == [0] && Item(0, 0) !in s.live
  {
    var s := State(Node(map[], None, 0, [], []), {});
    run, events := [s], [];
    assert EndsIn(elems, run, events, s);
    hide EndsIn;
    run, events, s := FillsPage(elems, run, events, s, 0);
    run, events, s := FillsPage(elems, run, events, s, 1);
    assert s.n.pages[0] == Page([], 0) && s.n.full == [0];
    assert Item(0, 0) in s.live by { UsedUp(elems, run, events, s, 0); }
    var s' := State(Free(s.n, elems, Item(0, 0)).n, s.live - {Item(0, 0)});
    assert s'.n == s.n.(pages := s.n.pages[0 := Page([0], 1)]);
    run, events := Then(elems, run, events, s, Put(Item(0, 0)), s');
    assert EndsIn(elems, run, events, s');
    Last(elems, run, events, s');
  }

  lemma Last(elems: nat, run: seq<State>, events: seq<Event>, s: State)
    requires EndsIn(elems, run, events, s)
    ensures IsRun(elems, run, events) && run[|run| - 1] == s
  {
  }

  lemma UsedUp(elems: nat, run: seq<State>, events: seq<Event>, s: State, p: nat)
    requires EndsIn(elems, run, events, s) && p in s.n.pages && s.n.cur != Some(p) && s.n.pages[p].next == []
    ensures elems > 0 && Item(p, 0) in s.live
  {
    RunOk(elems, run, events, |run| - 1);
  }

  // ---------------------------------------------------------------- the allocator

  class SlabNode {
    const elems: nat
    var n: Node
    ghost var live: set<Item>

    ghost predicate Valid()
      reads this
    {
      NodeOk(n, elems, live)
    }

    constructor (elems: nat)
      requires elems >= MIN_ELEMS
      ensures Valid() && live == {} && n == Node(map[], None, 0, [], []) && this.elems == elems
    {
      this.elems := elems;
      n := Node(map[], None, 0, [], []);
      live := {};
    }

    /** __slab_node_alloc */
    method NodeAlloc(page: Option<nat>) returns (item: Option<Item>)
      requires Valid() && (page.Some? ==> page.value !in n.pages)
      modifies this
      ensures Valid() && Allocated(item, n) == Alloc(old(n), elems, page)
      ensures item.None? ==> live == old(live)
      ensures item.Some? ==> item.value !in old(live) && live == old(live) + {item.value}
    {
      hide ListsOk, LiveOk, PageOk, TakeSlot, GetPage, Retire;
      AllocOk(n, elems, live, page);
      if n.cur.None? || n.pages[n.cur.value].count == 0 {
        RetireOk(n, elems, live);
        RetirePages(n);
        GetPageOk(Retire(n), elems, live, page);
        NextPage(page);
        if n.cur.None? {
          return None;
        }
      }
      var slot := TakeItem();
      item := Some(Item(n.cur.value, slot));
      live := live + {item.value};
    }

    /** The current page is retired and another one fetched. */
    method NextPage(page: Option<nat>)
      modifies this`n
      ensures n == GetPage(Retire(old(n)), elems, page)
    {
      if n.cur.Some? {
        n := n.(full := [n.cur.value] + n.full);
        n := n.(cur := None);
      }
      if n.partial != [] {
        n := n.(cur := Some(n.partial[0]), partial := n.partial[1..]);
      } else if page.Some? {
        n := n.(cur := page);
        n := n.(bumped := 0, pages := n.pages[page.value := Page([], elems)]);
      }
    }

    method TakeItem() returns (slot: nat)
      requires n.cur.Some? && n.cur.value in n.pages
      modifies this`n
      ensures var (i, pg, bumped) := TakeSlot(old(n).pages[old(n).cur.value], old(n).bumped);
        slot == i && n == old(n).(pages := old(n).pages[old(n).cur.value := pg], bumped := bumped)
    {
      var p := n.cur.value;
      var pg := n.pages[p];
      if pg.next != [] {
        slot, pg := pg.next[0], pg.(next := pg.next[1..]);
      } else {
        slot := n.bumped;
        n := n.(bumped := n.bumped + 1);
      }
      pg := pg.(count := pg.count - 1);
      n := n.(pages := n.pages[p := pg]);
    }

    /** slab_node_free */
    method NodeFree(item: Item)
      requires Valid() && item in live
      modifies this
      ensures Valid() && live == old(live) - {item}
      ensures item.page in old(n).pages && n == Free(old(n), elems, item).n
    {
      hide NodeOk, Without;
      FreeOk(n, elems, live, item);
      var p := item.page;
      var pg := n.pages[p];
      pg := pg.(next := [item.slot] + pg.next);
      pg := pg.(count := pg.count + 1);
      n := n.(pages := n.pages[p := pg]);
      live := live - {item};
      if n.cur == Some(p) {
        return;
      }
      if pg.count == PARTIAL_THRESH {
        n := n.(full := Without(n.full, p));
        n := n.(partial := [p] + n.partial);
      } else if pg.count == elems {
        n := n.(full := Without(n.full, p), partial := Without(n.partial, p));
        n := n.(pages := n.pages - {p});
      }
    }

    /** slab_tcache_alloc: all of `nr` items or none; `pages[i]` is what the page allocator would give
        during the i-th allocation. */
    method TcacheAlloc(nr: nat, items: array<Item>, pages: seq<Option<nat>>) returns (ok: bool)
      requires Valid() && nr <= items.Length && |pages| == nr
      requires forall i :: 0 <= i < nr && pages[i].Some? ==> pages[i].value !in n.pages
      requires forall i, j :: 0 <= i < j < nr && pages[i].Some? ==> pages[i] != pages[j]
      modifies this, items
      ensures Valid()
      ensures ok ==> live == old(live) + set i | 0 <= i < nr :: items[i]
      ensures ok ==> forall i :: 0 <= i < nr ==> items[i] !in old(live)
      ensures ok ==> forall i, j :: 0 <= i < j < nr ==> items[i] != items[j]
      ensures !ok ==> live == old(live)
    {
      hide NodeOk;
      var i := 0;
      while i < nr
        invariant 0 <= i <= nr && Valid() && Handed(old(live), live, items[..i])
        invariant forall j :: i <= j < nr && pages[j].Some? ==> pages[j].value !in n.pages
      {
        ghost var before := n.pages;
        AllocPages(n, elems, live, pages[i]);
        var item := NodeAlloc(pages[i]);
        if item.None? {
          RollBack(items, i, old(live));
          return false;
        }
        items[i] := item.value;
        assert items[..i + 1] == items[..i] + [item.value];
        i := i + 1;
      }
      assert items[..nr] == items[..i];
      HandedMeans(old(live), live, items[..nr]);
      return true;
    }

    /** The failure path of slab_tcache_alloc: the items taken so far go back, last first. */
    method RollBack(items: array<Item>, taken: nat, ghost start: set<Item>)
      requires Valid() && taken <= items.Length && Handed(start, live, items[..taken])
      modifies this
      ensures Valid() && live == start
    {
      hide NodeOk;
      var i := taken;
      while i > 0
        invariant 0 <= i <= taken && Valid() && Handed(start, live, items[..i])
      {
        i := i - 1;
        assert items[..i + 1] == items[..i] + [items[i]];
        NodeFree(items[i]);
      }
    }

    /** slab_tcache_free */
    method TcacheFree(items: seq<Item>)
      requires Valid() && (forall i :: 0 <= i < |items| ==> items[i] in live)
      requires forall i, j :: 0 <= i < j < |items| ==> items[i] != items[j]
      modifies this
      ensures Valid() && live == old(live) - set x | x in items
    {
      hide NodeOk;
      for i := 0 to |items|
        invariant Valid() && live == old(live) - set x | x in items[..i]
      {
        assert items[i] !in items[..i];
        assert items[..i + 1] == items[..i] + [items[i]];
        NodeFree(items[i]);
      }
      assert items[..|items|] == items;
    }
  }

  /** `live` is `start` and, besides, each of the distinct items handed out since. */
  ghost predicate Handed(start: set<Item>, live: set<Item>, items: seq<Item>) {
    && (forall x :: x in live <==> x in start || x in items)
    && (forall i :: 0 <= i < |items| ==> items[i] !in start)
    && (forall i, j :: 0 <= i < j < |items| ==> items[i] != items[j])
  }

  lemma HandedMeans(start: set<Item>, live: set<Item>, items: seq<Item>)
    requires Handed(start, live, items)
    ensures live == start + set i | 0 <= i < |items| :: items[i]
  {
  }

  lemma AllocPages(n: Node, elems: nat, live: set<Item>, page: Option<nat>)
    requires NodeOk(n, elems, live)
    ensures Alloc(n, elems, page).n.pages.Keys <= n.pages.Keys + if page.Some? then {page.value} else {}
  {
    hide ListsOk, LiveOk, PageOk;
  }
}
