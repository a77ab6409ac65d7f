/**
 The blk-mq dispatch loop: requests are taken from a list one by one, given a driver tag and offered
 to the driver, looking ahead to the next request's tag; what is left when the loop stops goes to the
 end of the hardware queue's dispatch list.
 */
module Dispatch {
  import opened Prelude

  /** Tags are -1 if not held.  `inflight` is RQF_MQ_INFLIGHT. */
  datatype Request = Request(tag: int, internalTag: int, inflight: bool)

  datatype Status = Ok | Resource | DevResource | Error

  /** What the world does in one turn of the loop: is there budget; the tag allocator's answers to the
      first try, the try after queueing for a tag, and the look-ahead; whether this context already
      waits for a tag; and the driver's verdict. */
  datatype Turn = Turn(budget: bool, first: Tag, waiting: bool, second: Tag, ahead: Tag, status: Status)

  /** The tag allocator's answer: a tag, or -1. */
  type Tag = t: int | t >= -1

  datatype Outcome = Accepted(id: nat) | Errored(id: nat)

  /** How many of the requests `ids` count as active. */
  function ActiveIn(rqs: map<nat, Request>, ids: seq<nat>): nat
    requires forall i :: 0 <= i < |ids| ==> ids[i] in rqs
  {
    if ids == [] then 0 else One(rqs[ids[0]].inflight) + ActiveIn(rqs, ids[1..])
  }

  lemma {:induction false} ActiveUpdate(rqs: map<nat, Request>, ids: seq<nat>, id: nat, r: Request)
    requires id in rqs && Distinct(ids) && forall i :: 0 <= i < |ids| ==> ids[i] in rqs
    ensures id in ids ==>
      ActiveIn(rqs[id := r], ids) + One(rqs[id].inflight) == ActiveIn(rqs, ids) + One(r.inflight)
    ensures id !in ids ==> ActiveIn(rqs[id := r], ids) == ActiveIn(rqs, ids)
  {
    if ids != [] {
      assert Distinct(ids[1..]) && ids[0] !in ids[1..];
      assert forall i :: 0 <= i < |ids[1..]| ==> ids[1..][i] == ids[i + 1];
      assert id in ids <==> id == ids[0] || id in ids[1..];
      ActiveUpdate(rqs, ids[1..], id, r);
    }
  }

  /** As requests come in: with a scheduler attached (an internal tag) they hold no driver tag; without
      one they hold theirs from the start. */
  predicate Arrives(r: Request) {
    if r.internalTag != -1 then r.tag == -1 && !r.inflight else r.tag >= 0
  }

  /** blk_mq_get_driver_tag, on the request; `got` is the tag allocator's answer. */
  function WithTag(r: Request, got: Tag, shared: bool): Request {
    if r.tag != -1 || got < 0 then r else r.(tag := got, inflight := shared)
  }

  /** blk_mq_put_driver_tag, on the request */
  function WithoutTag(r: Request): Request {
    if r.tag == -1 || r.internalTag == -1 then r else r.(tag := -1, inflight := false)
  }

  /** A request counts as active only while it has a driver tag. */
  predicate Sane(r: Request) {
    r.tag >= -1 && (r.inflight ==> r.tag != -1)
  }

  /** While the requests `list[k..]` are left: those from `m` on are as they came, and those before `m`
      but for a driver tag; the active count moves with the requests. */
  ghost predicate Left(rqs0: map<nat, Request>, active0: int, rqs: map<nat, Request>, active: int,
                       list: seq<nat>, k: nat, m: nat) {
    && rqs.Keys == rqs0.Keys && k <= |list| && Distinct(list)
    && (forall i :: 0 <= i < |list| ==> list[i] in rqs0 && Arrives(rqs0[list[i]]))
    && (forall id :: id in rqs0 && id !in list ==> rqs[id] == rqs0[id])
    && (forall i :: k <= i < |list| ==> Sane(rqs[list[i]]) && WithoutTag(rqs[list[i]]) == rqs0[list[i]])
    && (forall i :: m <= i < |list| ==> rqs[list[i]] == rqs0[list[i]])
    && active - ActiveIn(rqs, list) == active0 - ActiveIn(rqs0, list)
  }

  /** Each of `list[..k]` was accepted, and has a driver tag, or ended with an error, and has none. */
  ghost predicate Served(rqs: map<nat, Request>, out: seq<Outcome>, list: seq<nat>, k: nat) {
    && |out| == k <= |list|
    && forall i :: 0 <= i < k ==> list[i] in rqs && IsServed(rqs[list[i]], out[i], list[i])
  }

  predicate IsServed(r: Request, o: Outcome, id: nat) {
    match o
    case Accepted(x) => x == id && r.tag != -1
    case Errored(x) => x == id && r.tag == -1 && !r.inflight
  }

  /** How things stood when a dispatch of `list` began. */
  datatype Start = Start(rqs: map<nat, Request>, active: int, list: seq<nat>, out: seq<Outcome>)

  class HwCtx {
    const shared: bool
    var rqs: map<nat, Request>
    var nrActive: int
    var dispatch: seq<nat>
    ghost var out: seq<Outcome>

    constructor (shared: bool)
      ensures this.shared == shared && rqs == map[] && nrActive == 0 && dispatch == [] && out == []
    {
      this.shared := shared;
      rqs, nrActive, dispatch, out := map[], 0, [], [];
    }

    /** blk_mq_get_driver_tag */
    method GetDriverTag(id: nat, got: Tag) returns (ok: bool)
      requires id in rqs && Sane(rqs[id])
      modifies this`rqs, this`nrActive
      ensures rqs == old(rqs)[id := WithTag(old(rqs)[id], got, shared)]
      ensures nrActive - old(nrActive) == One(rqs[id].inflight) - One(old(rqs)[id].inflight)
      ensures ok == (rqs[id].tag != -1)
    {
      var rq := rqs[id];
      if rq.tag == -1 {
        rq := rq.(tag := got);
        if rq.tag >= 0 {
          if shared {
            rq := rq.(inflight := true);
            nrActive := nrActive + 1;
          }
        }
      }
      rqs := rqs[id := rq];
      ok := rq.tag != -1;
    }

    /** blk_mq_put_driver_tag */
    method PutDriverTag(id: nat)
      requires id in rqs && Sane(rqs[id])
      modifies this`rqs, this`nrActive
      ensures rqs == old(rqs)[id := WithoutTag(old(rqs)[id])]
      ensures nrActive - old(nrActive) == One(rqs[id].inflight) - One(old(rqs)[id].inflight)
    {
      var rq := rqs[id];
      if rq.tag == -1 || rq.internalTag == -1 {
        assert rqs == rqs[id := rq];
        return;
      }
      rq := rq.(tag := -1);
      if rq.inflight {
        rq := rq.(inflight := false);
        nrActive := nrActive - 1;
      }
      rqs := rqs[id := rq];
    }

    /** blk_mq_end_request: the request gives up its tag, if it has one. */
    method EndRequest(id: nat)
      requires id in rqs
      modifies this`rqs, this`nrActive
      ensures rqs == old(rqs)[id := old(rqs)[id].(tag := -1, inflight := false)]
      ensures nrActive - old(nrActive) == One(rqs[id].inflight) - One(old(rqs)[id].inflight)
    {
      if rqs[id].inflight {
        nrActive := nrActive - 1;
      }
      rqs := rqs[id := rqs[id].(tag := -1, inflight := false)];
    }

    /** blk_mq_mark_tag_wait: after queueing for a tag, one more try. */
    method MarkTagWait(id: nat, waiting: bool, got: Tag) returns (ok: bool)
      requires id in rqs && Sane(rqs[id]) && rqs[id].tag == -1
      modifies this`rqs, this`nrActive
      ensures rqs == old(rqs)[id := if ok then WithTag(old(rqs)[id], got, shared) else old(rqs)[id]]
      ensures ok ==> rqs[id].tag != -1
      ensures nrActive - old(nrActive) == One(rqs[id].inflight) - One(old(rqs)[id].inflight)
    {
      if shared && waiting {
        assert rqs == rqs[id := rqs[id]];
        return false;
      }
      ok := GetDriverTag(id, got);
    }

    /** During a dispatch that began as `g`: `list[k..]` is left, and `list[m..]` untouched. */
    ghost predicate At(g: Start, k: nat, m: nat)
      reads this
    {
      && Left(g.rqs, g.active, rqs, nrActive, g.list, k, m)
      && |out| == |g.out| + k && out[..|g.out|] == g.out && Served(rqs, out[|g.out|..], g.list, k)
    }

    method TryTag(ghost g: Start, ghost k: nat, ghost m: nat, ghost i: nat, id: nat, got: Tag) returns (ok: bool)
      requires At(g, k, m) && k <= i < m && i < |g.list| && id == g.list[i]
      modifies this`rqs, this`nrActive
      ensures At(g, k, m) && id in rqs && ok == (rqs[id].tag != -1)
      ensures rqs == old(rqs)[id := rqs[id]]
    {
      ghost var r, rs, a := rqs[id], rqs, nrActive;
      Tagged(r, got, shared, g.rqs[id]);
      ok := GetDriverTag(id, got);
      hide Left, Served;
      LeftUpdate(g.rqs, g.active, rs, a, g.list, k, m, i, WithTag(r, got, shared), nrActive);
      ServedUpdate(rs, out[|g.out|..], g.list, k, i, WithTag(r, got, shared));
    }

    method TryAgain(ghost g: Start, ghost k: nat, ghost m: nat, id: nat, waiting: bool, got: Tag) returns (ok: bool)
      requires At(g, k, m) && k < m && k < |g.list| && id == g.list[k] && rqs[id].tag == -1
      modifies this`rqs, this`nrActive
      ensures At(g, k, m) && id in rqs && ok == (rqs[id].tag != -1)
    {
      ghost var r, rs, a := rqs[id], rqs, nrActive;
      Tagged(r, got, shared, g.rqs[id]);
      ok := MarkTagWait(id, waiting, got);
      ghost var r' := if ok then WithTag(r, got, shared) else r;
      hide Left, Served;
      LeftUpdate(g.rqs, g.active, rs, a, g.list, k, m, k, r', nrActive);
      ServedUpdate(rs, out[|g.out|..], g.list, k, k, r');
    }

    /** Afterwards request `m` is untouched again. */
    method DropTag(ghost g: Start, ghost k: nat, ghost m: nat, id: nat)
      requires At(g, k, m + 1) && k <= m < |g.list| && id == g.list[m]
      modifies this`rqs, this`nrActive
      ensures At(g, k, m)
    {
      ghost var r, rs, a := rqs[id], rqs, nrActive;
      assert Sane(WithoutTag(r)) && WithoutTag(WithoutTag(r)) == WithoutTag(r) == g.rqs[id];
      PutDriverTag(id);
      hide Left, Served;
      LeftUpdate(g.rqs, g.active, rs, a, g.list, k, m + 1, m, WithoutTag(r), nrActive);
      ServedUpdate(rs, out[|g.out|..], g.list, k, m, WithoutTag(r));
      LeftClean(g.rqs, g.active, rqs, nrActive, g.list, k, m);
    }

    /** The driver accepted the request. */
    ghost method Accept(g: Start, k: nat, m: nat)
      requires At(g, k, m) && k < |g.list| && g.list[k] in rqs && rqs[g.list[k]].tag != -1
      modifies this`out
      ensures At(g, k + 1, m)
    {
      assert g.list[k] in rqs;
      hide Left, Served;
      ServeOne(rqs, out[|g.out|..], g.list, k, Accepted(g.list[k]));
      LeftLess(g.rqs, g.active, rqs, nrActive, g.list, k, m, k + 1, m);
      out := out + [Accepted(g.list[k])];
      assert out[|g.out|..] == old(out)[|g.out|..] + [Accepted(g.list[k])];
    }

    /** The driver refused the request for good. */
    method Fail(ghost g: Start, ghost k: nat, ghost m: nat, id: nat)
      requires At(g, k, m) && k < |g.list| && id == g.list[k] && k < m
      modifies this
      ensures At(g, k + 1, m) && dispatch == old(dispatch)
    {
      ghost var r, rs, a := rqs[id], rqs, nrActive;
      ghost var r' := r.(tag := -1, inflight := false);
      EndRequest(id);
      hide Left, Served;
      LeftLess(g.rqs, g.active, rs, a, g.list, k, m, k + 1, m);
      LeftUpdate(g.rqs, g.active, rs, a, g.list, k + 1, m, k, r', nrActive);
      ServedUpdate(rs, out[|g.out|..], g.list, k, k, r');
      ServeOne(rqs, out[|g.out|..], g.list, k, Errored(id));
      out := out + [Errored(id)];
      assert out[|g.out|..] == old(out)[|g.out|..] + [Errored(id)];
    }

    /** One turn of the loop of blk_mq_dispatch_rq_list, for the first request of `list`. */
    method OneTurn(ghost g: Start, ghost k: nat, list: seq<nat>, gotBudget: bool, t: Turn)
      returns (stop: bool, rest: seq<nat>)
      requires At(g, k, k + 1) && k < |g.list| && list == g.list[k..] && Distinct(g.list)
      modifies this
      ensures stop ==> At(g, k, k) && rest == list
      ensures !stop ==> At(g, k + 1, k + 2) && rest == list[1..]
      ensures dispatch == old(dispatch)
    {
      hide Left, Served;
      var id := list[0];
      assert id == g.list[k];
      if !gotBudget && !t.budget {
        DropTag(g, k, k, id);
        return true, list;
      }
      var ok := TryTag(g, k, k + 1, k, id, t.first);
      if !ok {
        ok := TryAgain(g, k, k + 1, id, t.waiting, t.second);
        if !ok {
          LeftCleanNow(g.rqs, g.active, rqs, nrActive, g.list, k);
          return true, list;
        }
      }
      rest := list[1..];
      stop := Offer(g, k, id, rest, t);
      if stop {
        rest := [id] + rest;
      }
    }

    /** The request, which has a driver tag, is offered to the driver; the next one's tag is tried for
        first, and given back if the driver cannot take more. */
    method Offer(ghost g: Start, ghost k: nat, id: nat, rest: seq<nat>, t: Turn) returns (stop: bool)
      requires At(g, k, k + 1) && k < |g.list| && id == g.list[k] && rest == g.list[k + 1..]
      requires id in rqs && rqs[id].tag != -1 && Distinct(g.list)
      modifies this
      ensures stop ==> At(g, k, k)
      ensures !stop ==> At(g, k + 1, k + 2)
      ensures dispatch == old(dispatch)
    {
      hide Left, Served;
      assert rest != [] ==> rest[0] == g.list[k + 1] && rest[0] != id;
      LeftLess(g.rqs, g.active, rqs, nrActive, g.list, k, k + 1, k, k + 2);
      if rest != [] {
        var last := TryTag(g, k, k + 2, k + 1, rest[0], t.ahead);
      }
      stop := t.status == Resource || t.status == DevResource;
      if stop {
        if rest != [] {
          DropTag(g, k, k + 1, rest[0]);
        } else {
          LeftEnd(g.rqs, g.active, rqs, nrActive, g.list, k);
        }
        DropTag(g, k, k, id);
      } else if t.status == Error {
        Fail(g, k, k + 2, id);
      } else {
        Accept(g, k, k + 2);
      }
    }

    /** blk_mq_dispatch_rq_list.  The first `k` requests are accepted or end with an error, in order;
        the others go to the end of the dispatch list, in order, and are as they came: with a scheduler
        attached, none of them holds a driver tag.  `turns[i]` is the world during the i-th turn. */
    method DispatchRqList(list0: seq<nat>, gotBudget: bool, turns: seq<Turn>) returns (more: bool, ghost k: nat)
      requires Distinct(list0) && (forall i :: 0 <= i < |list0| ==> list0[i] in rqs && Arrives(rqs[list0[i]]))
      requires |turns| == |list0|
      modifies this
      ensures k <= |list0| && dispatch == old(dispatch) + list0[k..]
      ensures |out| == |old(out)| + k && out[..|old(out)|] == old(out)
      ensures Served(rqs, out[|old(out)|..], list0, k)
      ensures forall i :: k <= i < |list0| ==> list0[i] in rqs && rqs[list0[i]] == old(rqs)[list0[i]]
      ensures forall i :: k <= i < |list0| && rqs[list0[i]].internalTag != -1 ==> rqs[list0[i]].tag == -1
      ensures forall id :: id in old(rqs) && id !in list0 ==> id in rqs && rqs[id] == old(rqs)[id]
      ensures rqs.Keys == old(rqs).Keys
      ensures nrActive - old(nrActive) == ActiveIn(rqs, list0) - ActiveIn(old(rqs), list0)
      ensures more == (list0 != [] && k == |list0|)
    {
      ghost var g := Start(rqs, nrActive, list0, out);
      k := 0;
      var list, n, stop := list0, 0, false;
      assert At(g, 0, 0);
      Begin(g.rqs, g.active, g.list);
      hide Left, Served;
      while list != [] && !stop
        invariant n == k <= |list0| && list == list0[k..]
        invariant At(g, k, if stop then k else k + 1) && dispatch == old(dispatch)
        invariant stop ==> k < |list0|
        decreases |list0| - k, !stop
      {
        stop, list := OneTurn(g, k, list, gotBudget, turns[n]);
        if !stop {
          n := n + 1;
          k := k + 1;
        }
      }
      WhenDone(g.rqs, g.active, rqs, nrActive, g.list, k);
      dispatch := dispatch + list;
      more := list0 != [] && list == [];
    }
  }

  lemma LeftUpdate(rqs0: map<nat, Request>, active0: int, rqs: map<nat, Request>, active: int, list: seq<nat>,
                   k: nat, m: nat, i: nat, r: Request, active': int)
    requires Left(rqs0, active0, rqs, active, list, k, m) && i < |list|
    requires active' - active == One(r.inflight) - One(rqs[list[i]].inflight)
    requires i >= k ==> Sane(r) && WithoutTag(r) == rqs0[list[i]]
    requires i >= m ==> r == rqs0[list[i]]
    ensures Left(rqs0, active0, rqs[list[i] := r], active', list, k, m)
  {
    hide ActiveIn, Arrives, Sane, WithoutTag;
    assert list[i] in list;
    assert forall j :: 0 <= j < |list| ==> list[j] in rqs;
    ActiveUpdate(rqs, list, list[i], r);
    assert forall j :: 0 <= j < |list| && j != i ==> list[j] != list[i];
  }

  lemma ServedUpdate(rqs: map<nat, Request>, out: seq<Outcome>, list: seq<nat>, k: nat, i: nat, r: Request)
    requires Served(rqs, out, list, k) && Distinct(list) && k <= i < |list|
    ensures Served(rqs[list[i] := r], out, list, k)
  {
  }

  lemma ServeOne(rqs: map<nat, Request>, out: seq<Outcome>, list: seq<nat>, k: nat, o: Outcome)
    requires Served(rqs, out, list, k) && k < |list| && list[k] in rqs && IsServed(rqs[list[k]], o, list[k])
    ensures Served(rqs, out + [o], list, k + 1)
  {
  }

  lemma LeftLess(rqs0: map<nat, Request>, active0: int, rqs: map<nat, Request>, active: int, list: seq<nat>,
                 k: nat, m: nat, k': nat, m': nat)
    requires Left(rqs0, active0, rqs, active, list, k, m) && k <= k' <= |list| && m <= m'
    ensures Left(rqs0, active0, rqs, active, list, k', m')
  {
    hide ActiveIn, Arrives;
  }

  /** A request without its tag again is as it came. */
  lemma LeftClean(rqs0: map<nat, Request>, active0: int, rqs: map<nat, Request>, active: int, list: seq<nat>,
                  k: nat, m: nat)
    requires Left(rqs0, active0, rqs, active, list, k, m + 1)
    requires k <= m && (m < |list| ==> WithoutTag(rqs[list[m]]) == rqs[list[m]])
    ensures Left(rqs0, active0, rqs, active, list, k, m)
  {
    hide ActiveIn, Arrives;
  }

  lemma Tagged(r: Request, got: Tag, shared: bool, r0: Request)
    requires Arrives(r0) && Sane(r) && WithoutTag(r) == r0
    ensures Sane(WithTag(r, got, shared)) && WithoutTag(WithTag(r, got, shared)) == r0
  {
  }

  lemma LeftCleanNow(rqs0: map<nat, Request>, active0: int, rqs: map<nat, Request>, active: int, list: seq<nat>, k: nat)
    requires Left(rqs0, active0, rqs, active, list, k, k + 1) && k < |list| && rqs[list[k]].tag == -1
    ensures Left(rqs0, active0, rqs, active, list, k, k)
  {
    LeftClean(rqs0, active0, rqs, active, list, k, k);
  }

  lemma LeftEnd(rqs0: map<nat, Request>, active0: int, rqs: map<nat, Request>, active: int, list: seq<nat>, k: nat)
    requires Left(rqs0, active0, rqs, active, list, k, k + 2) && k + 1 == |list|
    ensures Left(rqs0, active0, rqs, active, list, k, k + 1)
  {
    hide ActiveIn, Arrives;
  }

  lemma Begin(rqs: map<nat, Request>, active: int, list: seq<nat>)
    requires Left(rqs, active, rqs, active, list, 0, 0)
    ensures Left(rqs, active, rqs, active, list, 0, 1)
  {
    LeftLess(rqs, active, rqs, active, list, 0, 0, 0, 1);
  }

  /** When the loop has stopped, or nothing is left, the rest is untouched. */
  lemma WhenDone(rqs0: map<nat, Request>, active0: int, rqs: map<nat, Request>, active: int, list: seq<nat>, k: nat)
    requires || Left(rqs0, active0, rqs, active, list, k, k)
             || (Left(rqs0, active0, rqs, active, list, k, k + 1) && k == |list|)
    ensures rqs.Keys == rqs0.Keys && (forall i :: 0 <= i < |list| ==> list[i] in rqs)
    ensures forall i :: k <= i < |list| ==> rqs[list[i]] == rqs0[list[i]] && Arrives(rqs[list[i]])
    ensures forall id :: id in rqs0 && id !in list ==> rqs[id] == rqs0[id]
    ensures active - active0 == ActiveIn(rqs, list) - ActiveIn(rqs0, list)
  {
    hide ActiveIn, Arrives;
  }
}
