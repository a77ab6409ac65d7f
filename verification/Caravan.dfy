/**
 The send side of an i10 I/O queue on the delayed path, with data digests off: PDUs are collected
 in a caravan, an array of at most 32 pieces, and a caravan is handed to TCP as one message.

 `TrySend` is one call of the sender.  The main result is that the bytes sent, followed by the
 bytes in the caravan and those still to come, are at all times what the sender puts on the wire for
 the queued requests in order; and that this is the PDUs their headers announce exactly if every PDU
 that takes more than one piece belongs to a write.
 */
module Caravan {
  import opened Prelude
  import Receiver

  type Byte = Receiver.Byte

  const CAPACITY := 65536
  const AGGREGATION := 16
  const MAX_IOVS := 2 * AGGREGATION

  /** I10_HOST_SEND_CMD_PDU, I10_HOST_SEND_H2C_PDU, I10_HOST_SEND_DATA */
  datatype Stage = CmdPdu | H2cPdu | Data

  datatype Config = Config(hdrDigest: bool, inlineSize: nat)

  /** struct i10_host_request.  `bios` are the current bio and those after it, each a list of
      segments; `iter` is what is left of the current bio once the iterator is set up. */
  datatype Request = Request(
    stage: Stage, pdu: seq<Byte>, write: bool, nodelay: bool,
    pduLen: nat, pduSent: nat, dataLen: nat, dataSent: nat,
    iter: seq<seq<Byte>>, bios: seq<seq<seq<Byte>>>)

  /** The send fields of struct i10_host_queue, and what TCP has been given. */
  datatype Tx = Tx(iovs: seq<seq<Byte>>, len: nat, sendNow: bool, mapped: nat,
                   request: Option<Request>, list: seq<Request>, sent: seq<Byte>)

  // ---------------------------------------------------------------- bytes

  function Flat(segs: seq<seq<Byte>>): seq<Byte> {
    if segs == [] then [] else Flat(segs[..|segs| - 1]) + segs[|segs| - 1]
  }

  function FlatBios(bios: seq<seq<seq<Byte>>>): seq<Byte> {
    if bios == [] then [] else Flat(bios[0]) + FlatBios(bios[1..])
  }

  lemma {:induction false} FlatCons(s: seq<Byte>, segs: seq<seq<Byte>>)
    ensures Flat([s] + segs) == s + Flat(segs)
  {
    var all, n := [s] + segs, |segs| - 1;
    if segs == [] {
      assert all[..0] == [];
    } else {
      assert all[..|all| - 1] == [s] + segs[..n];
      FlatCons(s, segs[..n]);
    }
  }

  lemma FlatHead(segs: seq<seq<Byte>>)
    requires segs != []
    ensures Flat(segs) == segs[0] + Flat(segs[1..])
  {
    assert segs == [segs[0]] + segs[1..];
    FlatCons(segs[0], segs[1..]);
  }

  lemma FlatSnoc(segs: seq<seq<Byte>>, s: seq<Byte>)
    ensures Flat(segs + [s]) == Flat(segs) + s
  {
    assert (segs + [s])[..|segs|] == segs;
  }

  // ---------------------------------------------------------------- requests

  /** i10_host_has_inline_data */
  predicate HasInline(cfg: Config, r: Request) {
    r.write && r.dataLen > 0 && r.dataLen <= cfg.inlineSize
  }

  predicate CarriesData(cfg: Config, r: Request) {
    r.stage == CmdPdu ==> HasInline(cfg, r)
  }

  /** The iterator is set up. */
  predicate IterSet(r: Request) {
    r.stage == Data || r.dataSent > 0
  }

  /** The data of the request that has not been put in a caravan. */
  function Unsent(r: Request): seq<Byte>
    requires r.bios != []
  {
    if IterSet(r) then Flat(r.iter) + FlatBios(r.bios[1..]) else FlatBios(r.bios)
  }

  predicate SegsOk(segs: seq<seq<Byte>>) {
    segs != [] && forall i :: 0 <= i < |segs| ==> segs[i] != []
  }

  /** The request's bios hold the data not sent yet, and the PDU asks for no more than that.  Once all
      data has gone out the iterator is at its end. */
  predicate ReqOk(cfg: Config, r: Request) {
    && r.pdu != []
    && (CarriesData(cfg, r) ==>
          && r.bios != [] && (forall i :: 0 <= i < |r.bios| ==> SegsOk(r.bios[i]))
          && (IterSet(r) ==> if r.dataSent < r.dataLen then SegsOk(r.iter) else r.iter == [])
          && r.dataSent <= r.dataLen && r.dataLen > 0 && |Unsent(r)| == r.dataLen - r.dataSent
          && 0 <= r.pduLen - r.pduSent <= |Unsent(r)|)
  }

  /** The segment the next data of the request come from. */
  function Segment(r: Request): seq<Byte> {
    if IterSet(r) then (if r.iter == [] then [] else r.iter[0])
    else if r.bios != [] && r.bios[0] != [] then r.bios[0][0]
    else []
  }

  /** i10_host_pdu_data_left: only a write has data to send. */
  function DataLeft(r: Request): int {
    if r.write then r.pduLen - r.pduSent else 0
  }

  /** How much data the PDU will have been sent with when it is done: the last piece is taken to be one
      that DataLeft does not exceed, which is the first one if the request is not a write. */
  function ToSend(r: Request): int {
    if r.write || r.pduLen - r.pduSent <= |Segment(r)| then r.pduLen - r.pduSent else |Segment(r)|
  }

  /** The PDU takes more than one piece, and its request is no write: it is cut short. */
  predicate IsCut(cfg: Config, r: Request) {
    CarriesData(cfg, r) && !r.write && r.pduLen - r.pduSent > |Segment(r)|
  }

  /** A PDU header, with its digest if those are on. */
  function Header(cfg: Config, r: Request): seq<Byte> {
    if cfg.hdrDigest then r.pdu + Receiver.Crc32c(r.pdu) else r.pdu
  }

  /** The bytes of this PDU that are still to come, as its header says. */
  function Promised(cfg: Config, r: Request): seq<Byte>
    requires ReqOk(cfg, r)
  {
    (if r.stage == Data then [] else Header(cfg, r))
    + (if CarriesData(cfg, r) then Unsent(r)[..r.pduLen - r.pduSent] else [])
  }

  /** The bytes of this PDU that the sender still puts in a caravan. */
  function Rest(cfg: Config, r: Request): seq<Byte>
    requires ReqOk(cfg, r)
  {
    (if r.stage == Data then [] else Header(cfg, r))
    + (if CarriesData(cfg, r) then Unsent(r)[..ToSend(r)] else [])
  }

  /** What is sent is what was promised, exactly if the PDU is not cut short. */
  lemma CutIsShort(cfg: Config, r: Request)
    requires ReqOk(cfg, r)
    ensures Rest(cfg, r) <= Promised(cfg, r)
    ensures Rest(cfg, r) == Promised(cfg, r) <==> !IsCut(cfg, r)
  {
    hide Unsent, Segment;
    if CarriesData(cfg, r) {
      var u, n := Unsent(r), ToSend(r);
      assert u[..n] <= u[..r.pduLen - r.pduSent];
      assert |Promised(cfg, r)| - |Rest(cfg, r)| == r.pduLen - r.pduSent - n;
    }
  }

  /** i10_host_advance_req */
  function Advance(r: Request, n: nat): Request
    requires r.iter != [] && n <= |r.iter[0]|
    requires |r.iter| == 1 && n == |r.iter[0]| && r.dataSent + n < r.dataLen ==> |r.bios| > 1
  {
    var iter := if n == |r.iter[0]| then r.iter[1..] else [r.iter[0][n..]] + r.iter[1..];
    var r1 := r.(dataSent := r.dataSent + n, pduSent := r.pduSent + n, iter := iter);
    if iter == [] && r1.dataSent < r1.dataLen then r1.(bios := r.bios[1..], iter := r.bios[1]) else r1
  }

  lemma AdvanceIter(segs: seq<seq<Byte>>, n: nat)
    requires segs != [] && n <= |segs[0]|
    ensures var iter := if n == |segs[0]| then segs[1..] else [segs[0][n..]] + segs[1..];
      n <= |Flat(segs)| && Flat(segs)[..n] == segs[0][..n] && Flat(iter) == Flat(segs)[n..]
  {
    FlatHead(segs);
    FlatCons(segs[0][n..], segs[1..]);
  }

  lemma MoreBios(r: Request, n: nat)
    requires r.bios != [] && r.iter != [] && n <= |r.iter[0]| && n < |Flat(r.iter) + FlatBios(r.bios[1..])|
    ensures |r.iter| == 1 && n == |r.iter[0]| ==> |r.bios| > 1
  {
    FlatHead(r.iter);
  }

  lemma AdvanceUnsent(r: Request, n: nat)
    requires r.stage == Data && r.bios != [] && r.iter != [] && n <= |r.iter[0]| && n < |Unsent(r)|
    ensures |r.iter| == 1 && n == |r.iter[0]| && r.dataSent + n < r.dataLen ==> |r.bios| > 1
    ensures r.dataSent + n < r.dataLen ==> Advance(r, n).bios != [] && Unsent(Advance(r, n)) == Unsent(r)[n..]
    ensures Unsent(r)[..n] == r.iter[0][..n]
  {
    MoreBios(r, n);
    AdvanceIter(r.iter, n);
    hide Flat;
    var iter := if n == |r.iter[0]| then r.iter[1..] else [r.iter[0][n..]] + r.iter[1..];
    assert Unsent(r)[n..] == Flat(iter) + FlatBios(r.bios[1..]);
    if iter == [] && r.dataSent + n < r.dataLen {
      assert FlatBios(r.bios[1..]) == Flat(r.bios[1]) + FlatBios(r.bios[1..][1..]);
    }
  }

  /** The last piece of a PDU. */
  lemma RestIsPiece(cfg: Config, r: Request)
    requires ReqOk(cfg, r) && r.stage == Data && DataLeft(r) <= CurLength(r)
    ensures Rest(cfg, r) == Piece(r)
  {
    assert ToSend(r) == CurLength(r);
    if r.iter != [] {
      AdvanceIter(r.iter, CurLength(r));
    }
  }

  lemma TakeTwice(u: seq<Byte>, n: nat, k: nat)
    requires n <= k <= |u|
    ensures u[..k] == u[..n] + u[n..][..k - n]
  {
  }

  /** What is sent and what is left make up what was left before. */
  lemma AdvanceOk(cfg: Config, r: Request, n: nat)
    requires ReqOk(cfg, r) && r.stage == Data && r.write && n < r.pduLen - r.pduSent
    requires r.iter != [] ==> n <= |r.iter[0]|
    ensures r.iter != [] && n <= |r.iter[0]|
    ensures |r.iter| == 1 && n == |r.iter[0]| && r.dataSent + n < r.dataLen ==> |r.bios| > 1
    ensures var r' := Advance(r, n);
      && ReqOk(cfg, r') && r'.stage == Data && r'.pduLen - r'.pduSent == r.pduLen - r.pduSent - n
      && Rest(cfg, r) == r.iter[0][..n] + Rest(cfg, r')
  {
    hide Unsent, Flat, FlatBios;
    AdvanceUnsent(r, n);
    assert forall i :: 0 < i < |r.bios| ==> r.bios[i] == r.bios[1..][i - 1];
    TakeTwice(Unsent(r), n, r.pduLen - r.pduSent);
  }

  // ---------------------------------------------------------------- sending

  /** i10_host_is_caravan_full */
  predicate IsFull(len: nat, iovs: nat, mapped: nat) {
    len >= CAPACITY || iovs >= MAX_IOVS || mapped >= AGGREGATION
  }

  predicate Full(q: Tx) {
    IsFull(q.len, |q.iovs|, q.mapped)
  }

  function Push(q: Tx, piece: seq<Byte>): Tx {
    q.(iovs := q.iovs + [piece], len := q.len + |piece|)
  }

  datatype Result = Result(ret: int, q: Tx)

  /** i10_host_init_iter */
  function InitIter(r: Request): Request
    requires r.bios != []
  {
    r.(iter := r.bios[0])
  }

  /** i10_host_try_send_cmd_pdu */
  function SendCmdPdu(cfg: Config, q: Tx, r: Request): Result
    requires ReqOk(cfg, r) && r.stage == CmdPdu
  {
    if Full(q) then Result(1, q.(sendNow := true))
    else
      var q1 := Push(q, Header(cfg, r)).(sendNow := q.sendNow || r.nodelay);
      Result(1, q1.(request := if HasInline(cfg, r) then Some(InitIter(r.(stage := Data))) else None))
  }

  /** i10_host_try_send_data_pdu */
  function SendDataPdu(cfg: Config, q: Tx, r: Request): Result
    requires ReqOk(cfg, r) && r.stage == H2cPdu
  {
    if Full(q) then Result(1, q.(sendNow := true))
    else
      var r1 := r.(stage := Data);
      Result(1, Push(q, Header(cfg, r)).(request := Some(if r.dataSent == 0 then InitIter(r1) else r1)))
  }

  /** i10_host_req_cur_length.  At the end of the iterator the PDU has nothing left to ask for. */
  function CurLength(r: Request): nat
    requires r.pduSent <= r.pduLen
  {
    if r.iter != [] && |r.iter[0]| <= r.pduLen - r.pduSent then |r.iter[0]| else r.pduLen - r.pduSent
  }

  function Piece(r: Request): seq<Byte>
    requires r.pduSent <= r.pduLen
  {
    if r.iter == [] then [] else r.iter[0][..CurLength(r)]
  }

  /** i10_host_try_send_data: one piece of a segment at a time, until the PDU or the caravan is full. */
  function SendData(cfg: Config, q: Tx, r: Request): Result
    requires ReqOk(cfg, r) && r.stage == Data
    decreases r.pduLen - r.pduSent
  {
    var n := CurLength(r);
    var last := DataLeft(r) <= n;
    if Full(q) then Result(1, q.(sendNow := true, request := Some(r)))
    else
      var q1 := Push(q, Piece(r)).(mapped := q.mapped + 1);
      if n == 0 then Result(0, q1.(request := Some(r)))
      else if last then Result(1, q1.(request := None))
      else
        AdvanceOk(cfg, r, n);
        SendData(cfg, q1.(request := Some(Advance(r, n))), Advance(r, n))
  }

  /** The socket and the timer: is the doorbell timer active, is there room in the send buffer, and
      what kernel_sendmsg returns; a positive result means the whole caravan was taken. */
  datatype World = World(timer: bool, space: bool, ret: int)

  /** The start of i10_host_try_send: fetch a request if there is none. */
  function Fetch(q: Tx): Tx {
    if q.request.None? && q.list != [] then q.(request := Some(q.list[0]), list := q.list[1..]) else q
  }

  /** i10_host_send_caravan */
  predicate MustSend(q: Tx, w: World) {
    q.sendNow || (!w.timer && q.request.None? && q.len > 0)
  }

  /** The caravan leaves. */
  function Depart(q: Tx): Tx {
    q.(sent := q.sent + Flat(q.iovs), iovs := [], len := 0, mapped := 0, sendNow := false)
  }

  /** The rest of i10_host_try_send: what the current request puts in the caravan. */
  function Load(cfg: Config, q: Tx): Result
    requires q.request.Some? ==> Queued(cfg, q.request.value)
  {
    if q.request.None? then Result(0, q)
    else
      var r := q.request.value;
      match r.stage
      case Data => SendData(cfg, q, r)
      case H2cPdu =>
        var a := SendDataPdu(cfg, q, r);
        if Full(q) then a
        else
          HeaderOk(cfg, r);
          SendData(cfg, a.q, a.q.request.value)
      case CmdPdu =>
        var a := SendCmdPdu(cfg, q, r);
        if Full(q) || !HasInline(cfg, r) then a
        else
          HeaderOk(cfg, r);
          SendData(cfg, a.q, a.q.request.value)
  }

  /** i10_host_try_send */
  function TrySend(cfg: Config, q0: Tx, w: World): Result
    requires QueueOk(cfg, q0)
  {
    var q := Fetch(q0);
    if q.request.None? && q.len == 0 then Result(0, q)
    else if !MustSend(q, w) then Load(cfg, q)
    else if !w.space then Result(0, q)
    else if w.ret <= 0 then Result(w.ret, q)
    else Load(cfg, Depart(q))
  }

  /** Once its header is in the caravan, a request is in order to send its data. */
  lemma HeaderOk(cfg: Config, r: Request)
    requires ReqOk(cfg, r) && r.stage != Data && CarriesData(cfg, r) && (r.stage == CmdPdu ==> r.dataSent == 0)
    ensures r.bios != []
    ensures var r1 := r.(stage := Data);
      var r' := if r.dataSent == 0 then InitIter(r1) else r1;
      ReqOk(cfg, r') && Rest(cfg, r) == Header(cfg, r) + Rest(cfg, r')
  {
    hide Flat, FlatBios, Unsent, Segment, Header;
    IterStarted(cfg, r);
  }

  lemma IterStarted(cfg: Config, r: Request)
    requires ReqOk(cfg, r) && r.stage != Data && CarriesData(cfg, r)
    ensures r.bios != []
    ensures var r1 := r.(stage := Data);
      var r' := if r.dataSent == 0 then InitIter(r1) else r1;
      Unsent(r') == Unsent(r) && Segment(r') == Segment(r)
  {
    hide Flat, Header;
  }

  predicate QueueOk(cfg: Config, q: Tx) {
    && (q.request.Some? ==> Queued(cfg, q.request.value))
    && (forall i :: 0 <= i < |q.list| ==> Queued(cfg, q.list[i]))
  }

  /** A request in order; a command PDU is sent before any data. */
  predicate Queued(cfg: Config, r: Request) {
    ReqOk(cfg, r) && (r.stage == CmdPdu ==> r.dataSent == 0)
  }

  // ---------------------------------------------------------------- the stream

  function WireAll(cfg: Config, rs: seq<Request>): seq<Byte>
    requires forall i :: 0 <= i < |rs| ==> Queued(cfg, rs[i])
  {
    if rs == [] then []
    else
      assert Queued(cfg, rs[|rs| - 1]);
      WireAll(cfg, rs[..|rs| - 1]) + Rest(cfg, rs[|rs| - 1])
  }

  lemma {:induction false} WireHead(cfg: Config, rs: seq<Request>)
    requires rs != [] && forall i :: 0 <= i < |rs| ==> Queued(cfg, rs[i])
    ensures Queued(cfg, rs[0]) && WireAll(cfg, rs) == Rest(cfg, rs[0]) + WireAll(cfg, rs[1..])
  {
    hide ReqOk, Rest;
    assert Queued(cfg, rs[0]);
    var n := |rs| - 1;
    if n == 0 {
      assert rs[..0] == [] && rs[1..] == [];
    } else {
      WireHead(cfg, rs[..n]);
      assert rs[..n][1..] == rs[1..][..n - 1];
    }
  }

  /** The bytes of the PDUs as their headers say. */
  function PromisedAll(cfg: Config, rs: seq<Request>): seq<Byte>
    requires forall i :: 0 <= i < |rs| ==> Queued(cfg, rs[i])
  {
    if rs == [] then []
    else
      assert Queued(cfg, rs[|rs| - 1]);
      PromisedAll(cfg, rs[..|rs| - 1]) + Promised(cfg, rs[|rs| - 1])
  }

  predicate NoneCut(cfg: Config, rs: seq<Request>) {
    forall i :: 0 <= i < |rs| ==> !IsCut(cfg, rs[i])
  }

  /** The stream is the one promised, exactly if no PDU is cut short: every PDU that takes more than
      one piece belongs to a write. */
  lemma {:induction false} PromisesKept(cfg: Config, rs: seq<Request>)
    requires forall i :: 0 <= i < |rs| ==> Queued(cfg, rs[i])
    ensures |WireAll(cfg, rs)| <= |PromisedAll(cfg, rs)|
    ensures WireAll(cfg, rs) == PromisedAll(cfg, rs) <==> NoneCut(cfg, rs)
    ensures !NoneCut(cfg, rs) ==> |WireAll(cfg, rs)| < |PromisedAll(cfg, rs)|
  {
    hide ReqOk, Rest, Promised, IsCut;
    if rs != [] {
      var n := |rs| - 1;
      assert Queued(cfg, rs[n]);
      PromisesKept(cfg, rs[..n]);
      CutIsShort(cfg, rs[n]);
      assert NoneCut(cfg, rs) <==> NoneCut(cfg, rs[..n]) && !IsCut(cfg, rs[n]);
    }
  }

  function RestOf(cfg: Config, r: Option<Request>): seq<Byte>
    requires r.Some? ==> Queued(cfg, r.value)
  {
    if r.Some? then Rest(cfg, r.value) else []
  }

  /** Bytes of queued PDUs that are not in a caravan yet. */
  function Pending(cfg: Config, q: Tx): seq<Byte>
    requires QueueOk(cfg, q)
  {
    RestOf(cfg, q.request) + WireAll(cfg, q.list)
  }

  /** The caravan fits its arrays, and its length is the sum of its pieces. */
  predicate CaravanOk(q: Tx) {
    |q.iovs| <= MAX_IOVS && q.mapped <= AGGREGATION && q.len == |Flat(q.iovs)|
  }

  /** From `q` to `q'`, bytes move from the request to the end of the caravan. */
  predicate Loads(cfg: Config, q: Tx, before: Option<Request>, q': Tx) {
    && CaravanOk(q') && q'.sent == q.sent && q'.list == q.list
    && (before.Some? ==> Queued(cfg, before.value)) && (q'.request.Some? ==> Queued(cfg, q'.request.value))
    && Flat(q'.iovs) + RestOf(cfg, q'.request) == Flat(q.iovs) + RestOf(cfg, before)
  }

  lemma PushOk(q: Tx, piece: seq<Byte>)
    requires CaravanOk(q) && |q.iovs| < MAX_IOVS
    ensures CaravanOk(Push(q, piece)) && Flat(Push(q, piece).iovs) == Flat(q.iovs) + piece
  {
    FlatSnoc(q.iovs, piece);
  }

  lemma {:induction false} SendDataOk(cfg: Config, q: Tx, r: Request)
    requires CaravanOk(q) && ReqOk(cfg, r) && r.stage == Data
    ensures Loads(cfg, q, Some(r), SendData(cfg, q, r).q)
    decreases r.pduLen - r.pduSent
  {
    hide Flat, ReqOk, Rest;
    if !Full(q) {
      DataReady(cfg, r);
      var n := CurLength(r);
      var q1 := Push(q, Piece(r)).(mapped := q.mapped + 1);
      PushOk(q, Piece(r));
      if DataLeft(r) <= n {
        RestIsPiece(cfg, r);
      } else if n > 0 {
        AdvanceOk(cfg, r, n);
        SendDataOk(cfg, q1.(request := Some(Advance(r, n))), Advance(r, n));
        Regroup(Flat(q.iovs), Piece(r), Rest(cfg, Advance(r, n)));
      }
    }
  }

  lemma DataReady(cfg: Config, r: Request)
    requires ReqOk(cfg, r) && r.stage == Data
    ensures (r.iter != [] ==> SegsOk(r.iter)) && r.pduSent <= r.pduLen
    ensures r.iter == [] ==> r.pduSent == r.pduLen
  {
  }

  lemma Regroup(a: seq<Byte>, b: seq<Byte>, c: seq<Byte>)
    ensures (a + b) + c == a + (b + c)
  {
  }

  lemma LoadOk(cfg: Config, q: Tx)
    requires CaravanOk(q) && (q.request.Some? ==> Queued(cfg, q.request.value))
    ensures Loads(cfg, q, q.request, Load(cfg, q).q)
  {
    hide Flat, ReqOk, Rest, SendData;
    if q.request.Some? {
      var r := q.request.value;
      if r.stage == Data {
        SendDataOk(cfg, q, r);
      } else if !Full(q) {
        PushOk(q, Header(cfg, r));
        if CarriesData(cfg, r) {
          HeaderOk(cfg, r);
          var r1 := r.(stage := Data);
          var r' := if r.dataSent == 0 then InitIter(r1) else r1;
          Regroup(Flat(q.iovs), Header(cfg, r), Rest(cfg, r'));
          var q1 := if r.stage == CmdPdu then SendCmdPdu(cfg, q, r).q else SendDataPdu(cfg, q, r).q;
          SendDataOk(cfg, q1, r');
        } else {
          assert Rest(cfg, r) == Header(cfg, r) by { OnlyHeader(cfg, r); }
        }
      }
    }
  }

  lemma OnlyHeader(cfg: Config, r: Request)
    requires ReqOk(cfg, r) && r.stage != Data && !CarriesData(cfg, r)
    ensures Rest(cfg, r) == Header(cfg, r)
  {
  }

  lemma FetchOk(cfg: Config, q: Tx)
    requires QueueOk(cfg, q)
    ensures QueueOk(cfg, Fetch(q)) && Pending(cfg, Fetch(q)) == Pending(cfg, q)
  {
    hide Queued, Rest;
    if q.request.None? && q.list != [] {
      WireHead(cfg, q.list);
    }
  }

  /** Everything queued: what was sent, what is in the caravan, and what is to come. */
  function Stream(cfg: Config, q: Tx): seq<Byte>
    requires QueueOk(cfg, q)
  {
    q.sent + Flat(q.iovs) + Pending(cfg, q)
  }

  lemma LoadedStream(cfg: Config, q: Tx)
    requires QueueOk(cfg, q) && CaravanOk(q)
    ensures var q' := Load(cfg, q).q; QueueOk(cfg, q') && CaravanOk(q') && Stream(cfg, q') == Stream(cfg, q)
  {
    hide Flat, Queued, Rest, Load, WireAll;
    LoadOk(cfg, q);
    var q' := Load(cfg, q).q;
    var w := WireAll(cfg, q.list);
    Regroup(q.sent, Flat(q.iovs), RestOf(cfg, q.request));
    Regroup(q.sent, Flat(q'.iovs), RestOf(cfg, q'.request));
    Regroup(q.sent + Flat(q.iovs), RestOf(cfg, q.request), w);
    Regroup(q.sent + Flat(q'.iovs), RestOf(cfg, q'.request), w);
  }

  /** One call of the sender neither loses, adds, repeats nor reorders a byte, whatever the socket
      and the timer do; and what is sent is whole caravans. */
  lemma TrySendOk(cfg: Config, q: Tx, w: World)
    requires QueueOk(cfg, q) && CaravanOk(q)
    ensures var q' := TrySend(cfg, q, w).q;
      && QueueOk(cfg, q') && CaravanOk(q') && Stream(cfg, q') == Stream(cfg, q)
      && (q'.sent == q.sent || q'.sent == q.sent + Flat(q.iovs))
  {
    hide Flat, Queued, Rest, Load, WireAll, Pending;
    FetchOk(cfg, q);
    var q1 := Fetch(q);
    EmptyFlat();
    LoadKeepsSent(cfg, q1);
    LoadKeepsSent(cfg, Depart(q1));
    LoadedStream(cfg, q1);
    assert Stream(cfg, Depart(q1)) == Stream(cfg, q1) by { PendingDepart(cfg, q1); }
    LoadedStream(cfg, Depart(q1));
  }

  lemma EmptyFlat()
    ensures Flat([]) == []
  {
  }

  lemma PendingDepart(cfg: Config, q: Tx)
    requires QueueOk(cfg, q)
    ensures Pending(cfg, Depart(q)) == Pending(cfg, q)
  {
  }

  lemma LoadKeepsSent(cfg: Config, q: Tx)
    requires QueueOk(cfg, q) && CaravanOk(q)
    ensures Load(cfg, q).q.sent == q.sent
  {
    hide Flat, Queued, Rest, Load;
    LoadOk(cfg, q);
  }

  // ---------------------------------------------------------------- runs

  datatype Event = Enqueue(r: Request) | Send(w: World)

  function Do(cfg: Config, q: Tx, e: Event): Tx
    requires QueueOk(cfg, q)
  {
    match e
    case Enqueue(r) => q.(list := q.list + [r])
    case Send(w) => TrySend(cfg, q, w).q
  }

  predicate IsStep(cfg: Config, q: Tx, e: Event, q': Tx) {
    && (e.Enqueue? ==> Queued(cfg, e.r))
    && (QueueOk(cfg, q) ==> q' == Do(cfg, q, e))
  }

  predicate IsRun(cfg: Config, run: seq<Tx>, events: seq<Event>) {
    && |run| == |events| + 1 && run[0] == Tx([], 0, false, 0, None, [], [])
    && forall i :: 0 <= i < |events| ==> IsStep(cfg, run[i], events[i], run[i + 1])
  }

  /** The requests queued by the first `n` events, in order. */
  function Jobs(events: seq<Event>, n: nat): seq<Request>
    requires n <= |events|
  {
    if n == 0 then []
    else if events[n - 1].Enqueue? then Jobs(events, n - 1) + [events[n - 1].r]
    else Jobs(events, n - 1)
  }

  lemma EnqueueOk(cfg: Config, q: Tx, r: Request)
    requires QueueOk(cfg, q) && Queued(cfg, r)
    ensures var q' := q.(list := q.list + [r]); QueueOk(cfg, q') && Stream(cfg, q') == Stream(cfg, q) + Rest(cfg, r)
  {
    hide Flat, ReqOk, Rest;
    var list := q.list + [r];
    assert list[..|list| - 1] == q.list;
    assert WireAll(cfg, list) == WireAll(cfg, q.list) + Rest(cfg, r);
    hide WireAll;
  }

  lemma {:induction false} RunOk(cfg: Config, run: seq<Tx>, events: seq<Event>, i: nat)
    requires IsRun(cfg, run, events) && i < |run|
    ensures QueueOk(cfg, run[i]) && CaravanOk(run[i])
    ensures forall k :: 0 <= k < |Jobs(events, i)| ==> Queued(cfg, Jobs(events, i)[k])
    ensures Stream(cfg, run[i]) == WireAll(cfg, Jobs(events, i))
  {
    hide Queued, Rest, Stream, TrySend, QueueOk;
    if i == 0 {
      NothingQueued(cfg);
    } else {
      RunOk(cfg, run, events, i - 1);
      assert IsStep(cfg, run[i - 1], events[i - 1], run[i - 1 + 1]);
      match events[i - 1]
      case Send(w) => TrySendOk(cfg, run[i - 1], w);
      case Enqueue(r) =>
        EnqueueOk(cfg, run[i - 1], r);
        var jobs := Jobs(events, i);
        assert jobs[..|jobs| - 1] == Jobs(events, i - 1);
    }
  }

  lemma NothingQueued(cfg: Config)
    ensures var q := Tx([], 0, false, 0, None, [], []); QueueOk(cfg, q) && Stream(cfg, q) == []
  {
  }

  /** In every run, bytes sent, then bytes in the caravan, then what the current and the waiting
      requests still have to send, are the bytes the sender puts on the wire for the queued requests,
      in order.  They are the PDUs that the headers announce, exactly if every PDU that takes more than
      one piece belongs to a write; in particular once everything has been sent. */
  lemma StreamPreserved(cfg: Config, run: seq<Tx>, events: seq<Event>, i: nat)
    requires IsRun(cfg, run, events) && i < |run|
    ensures QueueOk(cfg, run[i])
    ensures forall k :: 0 <= k < |Jobs(events, i)| ==> Queued(cfg, Jobs(events, i)[k])
    ensures Stream(cfg, run[i]) == WireAll(cfg, Jobs(events, i))
    ensures Stream(cfg, run[i]) == PromisedAll(cfg, Jobs(events, i)) <==> NoneCut(cfg, Jobs(events, i))
    ensures Drained(run[i]) ==> (run[i].sent == PromisedAll(cfg, Jobs(events, i)) <==> NoneCut(cfg, Jobs(events, i)))
  {
    hide Queued, Rest, Promised, NoneCut;
    RunOk(cfg, run, events, i);
    PromisesKept(cfg, Jobs(events, i));
    EmptyFlat();
    hide Flat;
  }

  predicate Drained(q: Tx) {
    q.request.None? && q.list == [] && q.iovs == []
  }

  /** A read of two one-byte segments for which the target has sent an R2T. */
  function SomeRead(): Request {
    Request(H2cPdu, [7], false, false, 2, 0, 2, 0, [], [[[1], [2]]])
  }

  function Idle(sent: seq<Byte>): Tx {
    Tx([], 0, false, 0, None, [], sent)
  }

  lemma TwoSegments(a: seq<Byte>, b: seq<Byte>)
    ensures Flat([a, b]) == a + b
  {
    FlatSnoc([a], b);
    FlatSnoc([], a);
    assert [a] + [b] == [a, b] && [] + [a] == [a];
  }

  lemma SomeReadIsQueued(cfg: Config)
    requires !cfg.hdrDigest
    ensures Queued(cfg, SomeRead()) && PromisedAll(cfg, [SomeRead()]) == [7, 1, 2]
  {
    TwoSegments([1], [2]);
    assert FlatBios(SomeRead().bios[1..]) == [];
    hide Flat;
    assert Queued(cfg, SomeRead()) && Promised(cfg, SomeRead()) == [7, 1, 2];
    hide Queued;
    assert [SomeRead()][..0] == [];
  }

  lemma SomeReadLoads(cfg: Config, w: World)
    requires !cfg.hdrDigest && Queued(cfg, SomeRead())
    ensures Load(cfg, Idle([]).(request := Some(SomeRead()))).q == Idle([]).(iovs := [[7], [1]], len := 2, mapped := 1)
  {
    var r, q := SomeRead(), Idle([]).(request := Some(SomeRead()));
    HeaderOk(cfg, r);
    hide ReqOk, Flat, FlatBios, Rest;
    var r' := InitIter(r.(stage := Data));
    assert SendDataPdu(cfg, q, r).q == Idle([]).(iovs := [[7]], len := 1, request := Some(r'));
    assert [[7]] + [[1]] == [[7], [1]];
    assert CurLength(r') == 1 && Piece(r') == [1] && DataLeft(r') == 0;
  }

  lemma SomeReadIsSent(cfg: Config, w: World)
    requires !cfg.hdrDigest && !w.timer && w.space && w.ret > 0 && Queued(cfg, SomeRead())
    ensures var q2 := Idle([]).(iovs := [[7], [1]], len := 2, mapped := 1);
      TrySend(cfg, Idle([]).(list := [SomeRead()]), w).q == q2 && TrySend(cfg, q2, w).q == Idle([7, 1])
  {
    hide ReqOk, Load, Flat;
    SomeReadLoads(cfg, w);
    TwoSegments([7], [1]);
    NothingLoads(cfg, Idle([7, 1]));
    assert [] + [7, 1] == [7, 1] && [7] + [1] == [7, 1];
  }

  /** A PDU is cut short in a run of three calls. */
  lemma ReadIsCutShort() returns (cfg: Config, run: seq<Tx>, events: seq<Event>)
    ensures IsRun(cfg, run, events) && |run| == 4 && Drained(run[3])
    ensures forall k :: 0 <= k < |Jobs(events, 3)| ==> Queued(cfg, Jobs(events, 3)[k])
    ensures run[3].sent == [7, 1] && PromisedAll(cfg, Jobs(events, 3)) == [7, 1, 2]
  {
    hide Queued, PromisedAll, TrySend;
    cfg := Config(false, 0);
    var r, w := SomeRead(), World(false, true, 1);
    SomeReadIsQueued(cfg);
    SomeReadIsSent(cfg, w);
    var q0, q1, q3 := Idle([]), Idle([]).(list := [r]), Idle([7, 1]);
    var q2 := Idle([]).(iovs := [[7], [1]], len := 2, mapped := 1);
    assert IsStep(cfg, q0, Enqueue(r), q1) by { assert [] + [r] == [r]; }
    assert IsStep(cfg, q1, Send(w), q2) && IsStep(cfg, q2, Send(w), q3);
    hide IsStep, SomeRead;
    run, events := [q0, q1, q2, q3], [Enqueue(r), Send(w), Send(w)];
    assert Jobs(events, 3) == Jobs(events, 2) == Jobs(events, 1) == [r];
  }

  lemma NothingLoads(cfg: Config, q: Tx)
    requires q.request.None?
    ensures Load(cfg, q).q == q
  {
  }

  /** In every run, the caravan fits its arrays and caravan_len is the sum of its pieces. */
  lemma CaravanFits(cfg: Config, run: seq<Tx>, events: seq<Event>, i: nat)
    requires IsRun(cfg, run, events) && i < |run|
    ensures |run[i].iovs| <= 32 && run[i].mapped <= 16 && run[i].len == |Flat(run[i].iovs)|
  {
    hide Queued, Rest, Stream, WireAll;
    RunOk(cfg, run, events, i);
  }

  // ---------------------------------------------------------------- progress

  /** The current PDU has no data left to send, yet is not done: it asked for none. */
  predicate Stalled(q: Tx) {
    q.request.Some? && q.request.value.stage == Data && q.request.value.pduSent == q.request.value.pduLen
  }

  lemma {:induction false} SendDataGrows(cfg: Config, q: Tx, r: Request)
    requires ReqOk(cfg, r) && r.stage == Data
    ensures SendData(cfg, q, r).q.len >= q.len
    ensures !Full(q) && r.pduSent < r.pduLen ==> SendData(cfg, q, r).q.len > q.len
    decreases r.pduLen - r.pduSent
  {
    hide ReqOk, Advance;
    DataReady(cfg, r);
    var n := CurLength(r);
    if !Full(q) && 0 < n < DataLeft(r) {
      AdvanceOk(cfg, r, n);
      var q1 := Push(q, Piece(r)).(mapped := q.mapped + 1);
      SendDataGrows(cfg, q1.(request := Some(Advance(r, n))), Advance(r, n));
    }
  }

  lemma LoadGrows(cfg: Config, q: Tx)
    requires q.request.Some? && Queued(cfg, q.request.value) && !Full(q) && !Stalled(q)
    ensures Load(cfg, q).q.len > q.len
  {
    hide SendData;
    var r := q.request.value;
    if r.stage == Data {
      SendDataGrows(cfg, q, r);
    } else if CarriesData(cfg, r) {
      HeaderOk(cfg, r);
      var q1 := if r.stage == CmdPdu then SendCmdPdu(cfg, q, r).q else SendDataPdu(cfg, q, r).q;
      SendDataGrows(cfg, q1, q1.request.value);
    }
  }

  /** Bytes that enter the caravan leave those still to come. */
  lemma LoadShrinks(cfg: Config, q: Tx)
    requires QueueOk(cfg, q) && CaravanOk(q) && q.request.Some? && !Full(q) && !Stalled(q)
    ensures QueueOk(cfg, Load(cfg, q).q) && |Pending(cfg, Load(cfg, q).q)| < |Pending(cfg, q)|
  {
    hide Flat, ReqOk, Rest, Load, WireAll;
    LoadOk(cfg, q);
    LoadedStream(cfg, q);
    LoadGrows(cfg, q);
    assert |Flat(q.iovs) + RestOf(cfg, q.request)| == |Flat(q.iovs)| + |RestOf(cfg, q.request)|;
  }

  /** With a free socket and no timer, every call that has something to send either puts bytes in the
      caravan, or sends bytes, or decides to send: unless the current PDU has asked for no data. */
  lemma Progress(cfg: Config, q: Tx, w: World)
    requires QueueOk(cfg, q) && CaravanOk(q) && w.space && w.ret > 0 && !w.timer
    requires q.request.Some? || q.list != [] || q.len > 0
    requires !Stalled(Fetch(q))
    ensures var q' := TrySend(cfg, q, w).q;
      && QueueOk(cfg, q')
      && (|Pending(cfg, q')| < |Pending(cfg, q)| || |q'.sent| > |q.sent| || (q'.sendNow && !q.sendNow))
  {
    hide Flat, Queued, Rest, Load, WireAll, Pending;
    TrySendOk(cfg, q, w);
    FetchOk(cfg, q);
    EmptyFlat();
    var q1 := Fetch(q);
    var q2 := if MustSend(q1, w) then Depart(q1) else q1;
    PendingDepart(cfg, q1);
    LoadKeepsSent(cfg, q2);
    if MustSend(q1, w) && q.len > 0 {
      assert |q2.sent| > |q.sent|;
    } else if Full(q2) {
      FullDecides(cfg, q2);
    } else {
      LoadShrinks(cfg, q2);
    }
  }

  lemma FullDecides(cfg: Config, q: Tx)
    requires QueueOk(cfg, q) && Full(q) && q.request.Some?
    ensures Load(cfg, q).q.sendNow
  {
    hide ReqOk, Rest;
  }

  lemma StallsOnce(cfg: Config, q: Tx, w: World)
    requires QueueOk(cfg, q) && Stalled(q)
    ensures TrySend(cfg, q, w).q.request == q.request && TrySend(cfg, q, w).q.list == q.list
  {
    hide Flat;
    DataReady(cfg, q.request.value);
    hide ReqOk;
  }

  /** A PDU that asks for no data is never done: once it is current it stays so in every continuation,
      and no request behind it is ever taken up. */
  lemma {:induction false} StallsForever(cfg: Config, run: seq<Tx>, events: seq<Event>, i: nat, j: nat)
    requires IsRun(cfg, run, events) && i <= j < |run| && Stalled(run[i])
    ensures run[j].request == run[i].request && run[i].list <= run[j].list
  {
    hide QueueOk, TrySend;
    if i < j {
      StallsForever(cfg, run, events, i, j - 1);
      RunOk(cfg, run, events, j - 1);
      assert IsStep(cfg, run[j - 1], events[j - 1], run[j - 1 + 1]);
      if events[j - 1].Send? {
        StallsOnce(cfg, run[j - 1], events[j - 1].w);
      }
    }
  }

  lemma {:induction false} SendDataStalls(cfg: Config, q: Tx, r: Request)
    requires ReqOk(cfg, r) && r.stage == Data
    ensures Stalled(SendData(cfg, q, r).q) <==> r.pduSent == r.pduLen
    decreases r.pduLen - r.pduSent
  {
    hide ReqOk, Advance;
    DataReady(cfg, r);
    var n := CurLength(r);
    if !Full(q) && 0 < n < DataLeft(r) {
      AdvanceOk(cfg, r, n);
      var q1 := Push(q, Piece(r)).(mapped := q.mapped + 1);
      SendDataStalls(cfg, q1.(request := Some(Advance(r, n))), Advance(r, n));
    }
  }

  /** How it comes about: exactly by an R2T for no data, once its header is in the caravan. */
  lemma EmptyR2tStalls(cfg: Config, q: Tx)
    requires QueueOk(cfg, q) && q.request.Some? && q.request.value.stage == H2cPdu && !Full(q)
    ensures Stalled(Load(cfg, q).q) <==> q.request.value.pduLen == q.request.value.pduSent
  {
    hide Flat, SendData;
    var r := q.request.value;
    HeaderOk(cfg, r);
    var q1 := SendDataPdu(cfg, q, r).q;
    SendDataStalls(cfg, q1, q1.request.value);
  }

  // ---------------------------------------------------------------- from an R2T to its PDU

  function Bytes16(n: nat): (s: seq<Byte>)
    ensures |s| == 2
  {
    [n % 0x100, n / 0x100 % 0x100]
  }

  function Bytes32(n: nat): (s: seq<Byte>)
    ensures |s| == 4
  {
    Bytes16(n) + Bytes16(n / 0x1_0000)
  }

  /** The header that i10_host_setup_h2c_data_pdu fills in. */
  function H2cHeader(cfg: Config, d: Receiver.H2cData): seq<Byte> {
    var dgst := if cfg.hdrDigest then 4 else 0;
    [0x6, if cfg.hdrDigest then 5 else 4, 24, 24 + dgst] + Bytes32(24 + dgst + d.length)
    + Bytes16(d.tag) + Bytes16(d.ttag) + Bytes32(d.offset) + Bytes32(d.length) + [0, 0, 0, 0]
  }

  lemma Le16At(b: Receiver.Buffer, at: nat, n: nat)
    requires at + 2 <= Receiver.BUFFER_SIZE && b[at..at + 2] == Bytes16(n)
    ensures Receiver.Le16(b, at) == n % 0x1_0000
  {
    assert b[at] == b[at..at + 2][0] && b[at + 1] == b[at..at + 2][1];
  }

  lemma Le32At(b: Receiver.Buffer, at: nat, n: nat)
    requires at + 4 <= Receiver.BUFFER_SIZE && b[at..at + 4] == Bytes32(n)
    ensures Receiver.Le32(b, at) == n % TWO32
  {
    hide Receiver.Le16, Bytes16;
    assert b[at..at + 2] == b[at..at + 4][..2] == Bytes16(n);
    assert b[at + 2..at + 4] == b[at..at + 4][2..] == Bytes16(n / 0x1_0000);
    Le16At(b, at, n);
    Le16At(b, at + 2, n / 0x1_0000);
  }

  /** Round trip: read by the layout the receiver goes by, the header says what it was made from. */
  lemma H2cHeaderReads(cfg: Config, d: Receiver.H2cData, b: Receiver.Buffer)
    requires d.tag < 0x1_0000 && d.ttag < 0x1_0000 && d.offset < TWO32 && d.length < TWO32
    requires b[..24] == H2cHeader(cfg, d)
    ensures Receiver.DataTag(b) == d.tag && Receiver.Ttag(b) == d.ttag
    ensures Receiver.DataOffset(b) == d.offset && Receiver.DataLength(b) == d.length
    ensures Receiver.HeaderLength(b) == 24
    ensures Receiver.PduLength(b) == (24 + (if cfg.hdrDigest then 4 else 0) + d.length) % TWO32
  {
    hide Bytes16, Bytes32, Receiver.Le16;
    var h, dgst := b[..24], if cfg.hdrDigest then 4 else 0;
    assert b[4..8] == h[4..8] == Bytes32(24 + dgst + d.length);
    assert b[8..10] == h[8..10] == Bytes16(d.tag) && b[10..12] == h[10..12] == Bytes16(d.ttag);
    assert b[12..16] == h[12..16] == Bytes32(d.offset) && b[16..20] == h[16..20] == Bytes32(d.length);
    assert b[2] == h[2];
    hide H2cHeader;
    Le32At(b, 4, 24 + dgst + d.length);
    Le16At(b, 8, d.tag);
    Le16At(b, 10, d.ttag);
    Le32At(b, 12, d.offset);
    Le32At(b, 16, d.length);
  }

  /** What i10_host_handle_r2t makes of a request when the R2T has been accepted. */
  function Setup(cfg: Config, r: Request, d: Receiver.H2cData): Request {
    r.(stage := H2cPdu, pdu := H2cHeader(cfg, d), pduLen := d.length, pduSent := 0)
  }

  /** The same request as the receiver and as the sender see it: it has data, and its bios hold what has
      not been sent. */
  ghost predicate SameRequest(req: Receiver.Request, r: Request) {
    && req.dataLen == r.dataLen > 0 && req.dataSent == r.dataSent <= r.dataLen
    && r.bios != [] && (forall i :: 0 <= i < |r.bios| ==> SegsOk(r.bios[i]))
    && (r.dataSent > 0 ==> if r.dataSent < r.dataLen then SegsOk(r.iter) else r.iter == [])
    && |Unsent(r.(stage := H2cPdu))| == r.dataLen - r.dataSent
  }

  /** Every R2T the receiver accepts becomes a request the sender can take: also one for no data, and one
      for a request that is no write.  Whether its PDU will be cut short is decided here. */
  lemma R2tBecomesPdu(rcfg: Receiver.Config, cfg: Config, q: Receiver.Queue, h: seq<Byte>, r: Request)
    requires Receiver.Sound(q) && Receiver.BetweenPdus(rcfg, q) && |h| == Receiver.RSP_PDU_SIZE
    requires var b := Receiver.Write(q.rx.pdu, 0, Receiver.Header(rcfg, h));
      && Receiver.R2tHeader(rcfg, b) && Receiver.DataTag(b) in q.reqs
      && SameRequest(q.reqs[Receiver.DataTag(b)], r)
    ensures var q' := Receiver.Feed(rcfg, q, Receiver.Header(rcfg, h));
      var b := Receiver.Write(q.rx.pdu, 0, Receiver.Header(rcfg, h));
      && (q'.status.Live? <==> r.dataSent + Receiver.DataLength(b) <= r.dataLen && r.dataSent <= Receiver.DataOffset(b))
      && (q'.status.Live? ==>
            && |q'.sendList| == |q.sendList| + 1
            && var d := q'.sendList[|q.sendList|];
               && d.length == Receiver.DataLength(b) && Queued(cfg, Setup(cfg, r, d))
               && (IsCut(cfg, Setup(cfg, r, d)) <==> !r.write && d.length > |Segment(r.(stage := H2cPdu))|))
  {
    hide Receiver.Feed, Receiver.Write, Receiver.Header, Receiver.R2tHeader, Receiver.Le16, Receiver.Le32;
    hide H2cHeader, Flat, FlatBios;
    Receiver.R2tArrives(rcfg, q, h);
    var q' := Receiver.Feed(rcfg, q, Receiver.Header(rcfg, h));
    if q'.status.Live? {
      var d := q'.sendList[|q.sendList|];
      assert Unsent(Setup(cfg, r, d)) == Unsent(r.(stage := H2cPdu));
      assert Setup(cfg, r, d).pdu != [] by { HeaderNotEmpty(cfg, d); }
    }
  }

  lemma HeaderNotEmpty(cfg: Config, d: Receiver.H2cData)
    ensures H2cHeader(cfg, d) != []
  {
  }

  // ---------------------------------------------------------------- an R2T for no data

  /** The current request is to send a PDU that asks for no data. */
  predicate AsksForNothing(q: Tx) {
    && q.request.Some? && q.request.value.stage == H2cPdu
    && q.request.value.pduLen == q.request.value.pduSent
  }

  lemma NothingStaysOnce(cfg: Config, q: Tx, w: World)
    requires QueueOk(cfg, q) && AsksForNothing(q)
    ensures var q' := TrySend(cfg, q, w).q; q'.list == q.list && (q'.request == q.request || Stalled(q'))
  {
    hide Flat, ReqOk, Load;
    var q1 := if MustSend(q, w) then Depart(q) else q;
    NothingLoadsOnce(cfg, q1);
  }

  lemma NothingLoadsOnce(cfg: Config, q: Tx)
    requires QueueOk(cfg, q) && AsksForNothing(q)
    ensures var q' := Load(cfg, q).q; q'.list == q.list && (q'.request == q.request || Stalled(q'))
  {
    if !Full(q) {
      EmptyR2tStalls(cfg, q);
      var r := q.request.value;
      HeaderOk(cfg, r);
      DataReady(cfg, SendDataPdu(cfg, q, r).q.request.value);
    }
    hide Flat, ReqOk;
  }

  /** The sender never gets past such a PDU: in every continuation it is current, and no request behind
      it is taken up. */
  lemma {:induction false} NothingIsNeverDone(cfg: Config, run: seq<Tx>, events: seq<Event>, i: nat, j: nat)
    requires IsRun(cfg, run, events) && i <= j < |run| && AsksForNothing(run[i])
    ensures (run[j].request == run[i].request || Stalled(run[j])) && run[i].list <= run[j].list
  {
    hide QueueOk, TrySend;
    if i < j {
      NothingIsNeverDone(cfg, run, events, i, j - 1);
      RunOk(cfg, run, events, j - 1);
      assert IsStep(cfg, run[j - 1], events[j - 1], run[j - 1 + 1]);
      if events[j - 1].Send? {
        if Stalled(run[j - 1]) {
          StallsOnce(cfg, run[j - 1], events[j - 1].w);
        } else {
          NothingStaysOnce(cfg, run[j - 1], events[j - 1].w);
        }
      }
    }
  }

  /** Acceptance and stall: the receiver accepts an R2T for no data of any request that has data, also one
      that has sent all of it; and once the PDU it makes is current, the queue never gets past it. */
  lemma EmptyR2tHalts(rcfg: Receiver.Config, cfg: Config, q: Receiver.Queue, h: seq<Byte>, r: Request,
                      run: seq<Tx>, events: seq<Event>, i: nat, j: nat)
    requires Receiver.Sound(q) && Receiver.BetweenPdus(rcfg, q) && |h| == Receiver.RSP_PDU_SIZE
    requires var b := Receiver.Write(q.rx.pdu, 0, Receiver.Header(rcfg, h));
      && Receiver.R2tHeader(rcfg, b) && Receiver.DataTag(b) in q.reqs && SameRequest(q.reqs[Receiver.DataTag(b)], r)
      && Receiver.DataLength(b) == 0 && r.dataSent <= Receiver.DataOffset(b)
    requires IsRun(cfg, run, events) && i <= j < |run|
    ensures var q' := Receiver.Feed(rcfg, q, Receiver.Header(rcfg, h));
      && q'.status.Live? && |q'.sendList| == |q.sendList| + 1
      && var pdu := Setup(cfg, r, q'.sendList[|q.sendList|]);
         && Queued(cfg, pdu)
         && (run[i].request == Some(pdu) ==> run[j].request.Some? && run[i].list <= run[j].list)
  {
    hide Receiver.Feed, Receiver.Write, Receiver.Header, Receiver.R2tHeader, Receiver.Le16, Receiver.Le32;
    hide H2cHeader, Unsent, Queued;
    R2tBecomesPdu(rcfg, cfg, q, h, r);
    var q' := Receiver.Feed(rcfg, q, Receiver.Header(rcfg, h));
    if run[i].request == Some(Setup(cfg, r, q'.sendList[|q.sendList|])) {
      NothingIsNeverDone(cfg, run, events, i, j);
    }
  }

  /** A 24-byte R2T for tag 1 and no data. */
  function SomeR2t(): seq<Byte> {
    [9, 0, 24, 0, 24, 0, 0, 0, 1, 0, 0, 0, 0, 0, 0, 0, 0, 0, 0, 0, 0, 0, 0, 0]
  }

  /** A write of one byte with tag 1, of which nothing has been sent. */
  function SomeWrite(): Request {
    Request(CmdPdu, [7], true, false, 0, 0, 1, 0, [], [[[5]]])
  }

  lemma SomeR2tReads(b: Receiver.Buffer)
    requires b[..24] == SomeR2t()
    ensures Receiver.R2tHeader(Receiver.Config(false, false, false), b)
    ensures Receiver.DataTag(b) == 1 && Receiver.DataLength(b) == 0 && Receiver.DataOffset(b) == 0
  {
    assert forall i :: 0 <= i < 24 ==> b[i] == SomeR2t()[i];
  }

  lemma SomeWriteIsSame()
    ensures SameRequest(Receiver.Request(true, 1, [], [], 1, 0, 0, 0), SomeWrite())
  {
    assert Flat([[5]]) == [5] by { FlatSnoc([], [5]); assert [] + [[5]] == [[5]]; }
    assert SomeWrite().bios[1..] == [];
  }

  /** A receive queue between PDUs that knows the write. */
  function SomeQueue(pdu: Receiver.Buffer): Receiver.Queue {
    Receiver.Queue(Receiver.Rx(pdu, 24, 0, Receiver.SIZE_MAX, 0, [0, 0, 0, 0], [0, 0, 0, 0], []),
                   map[1 := Receiver.Request(true, 1, [], [], 1, 0, 0, 0)], [], [], 0, Receiver.Live)
  }

  lemma SomeR2tIsTaken(pdu: Receiver.Buffer, cfg: Config)
    ensures var q' := Receiver.Feed(Receiver.Config(false, false, false), SomeQueue(pdu), SomeR2t());
      && q'.status.Live? && |q'.sendList| == 1 && q'.sendList[0].length == 0
      && Queued(cfg, Setup(cfg, SomeWrite(), q'.sendList[0]))
  {
    hide Receiver.Feed, SameRequest, Receiver.R2tHeader, Receiver.DataTag, Receiver.DataLength, Receiver.DataOffset;
    hide ReqOk, H2cHeader, IsCut;
    var rcfg, h := Receiver.Config(false, false, false), SomeR2t();
    assert Receiver.Header(rcfg, h) == h && Receiver.Write(pdu, 0, h)[..24] == h;
    SomeR2tReads(Receiver.Write(pdu, 0, h));
    SomeWriteIsSame();
    R2tBecomesPdu(rcfg, cfg, SomeQueue(pdu), h, SomeWrite());
  }

  /** An input that halts the queue: the receiver takes the 24 bytes, and two calls later the sender is
      stalled. */
  lemma SomeR2tHalts(pdu: Receiver.Buffer) returns (cfg: Config, run: seq<Tx>, events: seq<Event>)
    ensures var q' := Receiver.Feed(Receiver.Config(false, false, false), SomeQueue(pdu), SomeR2t());
      && q'.status.Live? && |q'.sendList| == 1 && IsRun(cfg, run, events) && |run| == 3
      && events[0] == Enqueue(Setup(cfg, SomeWrite(), q'.sendList[0])) && Stalled(run[2])
  {
    hide Receiver.Feed, Queued, IsRun, SomeR2t, H2cHeader;
    cfg := Config(false, 0);
    SomeR2tIsTaken(pdu, cfg);
    var q' := Receiver.Feed(Receiver.Config(false, false, false), SomeQueue(pdu), SomeR2t());
    run, events := HaltsIn(cfg, Setup(cfg, SomeWrite(), q'.sendList[0]));
  }

  /** The run: the PDU is queued, and the sender is called once. */
  lemma HaltsIn(cfg: Config, r: Request) returns (run: seq<Tx>, events: seq<Event>)
    requires Queued(cfg, r) && r.stage == H2cPdu && r.pduLen == r.pduSent
    ensures IsRun(cfg, run, events) && |run| == 3 && events[0] == Enqueue(r) && Stalled(run[2])
  {
    hide ReqOk, Load, Flat;
    var w := World(false, true, 1);
    var q1 := Idle([]).(list := [r]);
    var q2 := TrySend(cfg, q1, w).q;
    assert Fetch(q1) == Idle([]).(request := Some(r));
    EmptyR2tStalls(cfg, Fetch(q1));
    assert IsStep(cfg, Idle([]), Enqueue(r), q1) by { assert [] + [r] == [r]; }
    assert IsStep(cfg, q1, Send(w), q2);
    hide IsStep;
    run, events := [Idle([]), q1, q2], [Enqueue(r), Send(w)];
  }

  // ---------------------------------------------------------------- the sender

  class HostSender {
    const iovs: array<seq<Byte>>
    const mapped: array<seq<Byte>>
    var nrIovs: nat
    var nrMapped: nat
    var caravanLen: nat
    var sendNow: bool
    var request: Option<Request>
    var list: seq<Request>
    ghost var sent: seq<Byte>

    ghost predicate Valid()
      reads this, iovs
    {
      && iovs.Length == MAX_IOVS && mapped.Length == AGGREGATION && iovs != mapped
      && nrIovs <= MAX_IOVS && CaravanOk(View())
    }

    ghost function View(): Tx
      reads this, iovs
      requires nrIovs <= iovs.Length
    {
      Tx(iovs[..nrIovs], caravanLen, sendNow, nrMapped, request, list, sent)
    }

    constructor ()
      ensures Valid() && View() == Tx([], 0, false, 0, None, [], []) && fresh(iovs) && fresh(mapped)
    {
      iovs := new seq<Byte>[MAX_IOVS](_ => []);
      mapped := new seq<Byte>[AGGREGATION](_ => []);
      nrIovs, nrMapped, caravanLen, sendNow := 0, 0, 0, false;
      request, list, sent := None, [], [];
    }

    method AddPiece(piece: seq<Byte>)
      requires Valid() && nrIovs < MAX_IOVS
      modifies this`nrIovs, this`caravanLen, iovs
      ensures Valid() && View() == Push(old(View()), piece)
    {
      PushOk(View(), piece);
      iovs[nrIovs] := piece;
      nrIovs := nrIovs + 1;
      caravanLen := caravanLen + |piece|;
      assert View().iovs == Push(old(View()), piece).iovs;
      hide Flat;
    }

    method TrySendCmdPdu(cfg: Config, r: Request) returns (ret: int)
      requires Valid() && ReqOk(cfg, r) && r.stage == CmdPdu && request == Some(r)
      modifies this, iovs
      ensures Valid() && Result(ret, View()) == SendCmdPdu(cfg, old(View()), r)
    {
      hide Flat;
      if IsFull(caravanLen, nrIovs, nrMapped) {
        sendNow := true;
        return 1;
      }
      AddPiece(Header(cfg, r));
      if r.nodelay {
        sendNow := true;
      }
      if HasInline(cfg, r) {
        request := Some(InitIter(r.(stage := Data)));
      } else {
        request := None;
      }
      return 1;
    }

    method TrySendDataPdu(cfg: Config, r: Request) returns (ret: int)
      requires Valid() && ReqOk(cfg, r) && r.stage == H2cPdu && request == Some(r)
      modifies this, iovs
      ensures Valid() && Result(ret, View()) == SendDataPdu(cfg, old(View()), r)
    {
      hide Flat;
      if IsFull(caravanLen, nrIovs, nrMapped) {
        sendNow := true;
        return 1;
      }
      AddPiece(Header(cfg, r));
      request := Some(r.(stage := Data));
      if r.dataSent == 0 {
        request := Some(InitIter(request.value));
      }
      return 1;
    }

    method AddData(piece: seq<Byte>, segment: seq<Byte>)
      requires Valid() && nrIovs < MAX_IOVS && nrMapped < AGGREGATION
      modifies this`nrIovs, this`caravanLen, this`nrMapped, iovs, mapped
      ensures Valid() && View() == Push(old(View()), piece).(mapped := old(nrMapped) + 1)
    {
      hide Flat;
      AddPiece(piece);
      mapped[nrMapped] := segment;
      nrMapped := nrMapped + 1;
    }

    /** One turn of the loop of i10_host_try_send_data; `more` says that it goes on. */
    method SendPiece(cfg: Config, r: Request) returns (more: bool, ret: int, r': Request)
      requires Valid() && ReqOk(cfg, r) && r.stage == Data && request == Some(r)
      modifies this, iovs, mapped
      ensures Valid()
      ensures !more ==> Result(ret, View()) == SendData(cfg, old(View()), r)
      ensures more ==> ReqOk(cfg, r') && r'.stage == Data && request == Some(r')
      ensures more ==> 0 <= r'.pduLen - r'.pduSent < r.pduLen - r.pduSent
      ensures more ==> SendData(cfg, old(View()), r) == SendData(cfg, View(), r')
    {
      hide Flat, ReqOk, Advance;
      DataReady(cfg, r);
      more, ret, r' := false, 1, r;
      var len := CurLength(r);
      var last := DataLeft(r) <= len;
      if IsFull(caravanLen, nrIovs, nrMapped) {
        sendNow := true;
        return;
      }
      AddData(Piece(r), Segment(r));
      if len == 0 {
        ret := 0;
        return;
      }
      if last {
        request := None;
        return;
      }
      AdvanceOk(cfg, r, len);
      r' := Advance(r, len);
      request := Some(r');
      more := true;
    }

    /** i10_host_try_send_data */
    method TrySendData(cfg: Config, r0: Request) returns (ret: int)
      requires Valid() && ReqOk(cfg, r0) && r0.stage == Data && request == Some(r0)
      modifies this, iovs, mapped
      ensures Valid() && Result(ret, View()) == SendData(cfg, old(View()), r0)
    {
      hide CaravanOk, ReqOk, SendData;
      ret := 1;
      var r, more := r0, true;
      while more
        invariant Valid()
        invariant more ==> ReqOk(cfg, r) && r.stage == Data && request == Some(r)
        invariant more ==> SendData(cfg, old(View()), r0) == SendData(cfg, View(), r)
        invariant !more ==> Result(ret, View()) == SendData(cfg, old(View()), r0)
        decreases more, r.pduLen - r.pduSent
      {
        more, ret, r := SendPiece(cfg, r);
      }
    }

    /** i10_host_try_send */
    method TrySendQueue(cfg: Config, w: World) returns (ret: int)
      requires Valid() && QueueOk(cfg, View())
      modifies this, iovs, mapped
      ensures Valid() && Result(ret, View()) == TrySend(cfg, old(View()), w)
    {
      hide Flat, ReqOk, SendData, SendCmdPdu, SendDataPdu;
      if request.None? {
        if list != [] {
          request, list := Some(list[0]), list[1..];
        }
        if request.None? && caravanLen == 0 {
          return 0;
        }
      }
      if sendNow || (!w.timer && request.None? && caravanLen > 0) {
        if !w.space {
          return 0;
        }
        if w.ret <= 0 {
          return w.ret;
        }
        sent := sent + Flat(iovs[..nrIovs]);
        nrIovs, nrMapped, caravanLen, sendNow := 0, 0, 0, false;
        EmptyFlat();
      }
      ret := LoadRequest(cfg);
    }

    method LoadRequest(cfg: Config) returns (ret: int)
      requires Valid() && (request.Some? ==> Queued(cfg, request.value))
      modifies this, iovs, mapped
      ensures Valid() && Result(ret, View()) == Load(cfg, old(View()))
    {
      hide Flat, ReqOk, SendData;
      if request.None? {
        return 0;
      }
      var r := request.value;
      if r.stage == CmdPdu {
        ret := TrySendCmdPdu(cfg, r);
        if !HasInline(cfg, r) {
          return;
        }
      }
      if r.stage == H2cPdu {
        ret := TrySendDataPdu(cfg, r);
      }
      if CarriesData(cfg, r) && r.stage != Data {
        HeaderOk(cfg, r);
      }
      if request.value.stage == Data {
        ret := TrySendData(cfg, request.value);
      }
    }
  }
}
