/**
 The receive side of an i10 queue: PDUs of the NVMe/TCP transport arrive as a byte stream that
 TCP hands over in chunks of any size.

 The reference semantics is a byte-at-a-time machine, `Feed`.  The class below is the driver's
 own receiver, which copies as much of a chunk as it can at a time; it is proved to compute
 `Feed`, so that how the stream is cut into chunks cannot matter.

 PDU layouts are those of section 7.4 of NVMe over Fabrics 1.1.  The memory behind the queue's
 PDU buffer is part of the model, since the digest check indexes it by an unchecked header
 length of up to 255.
 */
module Receiver {
  import opened Prelude

  type Byte = x: int | 0 <= x < 256

  type Digest = d: seq<Byte> | |d| == DIGEST_LENGTH witness [0, 0, 0, 0]

  /** 24 bytes of PDU, 4 of digest, and every byte a one-byte header length can reach. */
  type Buffer = b: seq<Byte> | |b| == BUFFER_SIZE witness seq(BUFFER_SIZE, _ => 0)

  const DIGEST_LENGTH := 4
  const BUFFER_SIZE := 260
  const RSP_PDU_SIZE := 24
  const SIZE_MAX: nat := 0xFFFF_FFFF_FFFF_FFFF
  const NVME_AQ_BLK_MQ_DEPTH := 31

  const TYPE_RSP := 0x5
  const TYPE_C2H_DATA := 0x7
  const TYPE_R2T := 0x9

  const F_HDGST := 1
  const F_DDGST := 2
  const F_DATA_LAST := 4
  const F_DATA_SUCCESS := 8

  datatype Errno = EIO | ENOENT | EINVAL | EPROTO

  datatype Status = Live | Failed(error: Errno)

  /** Negotiated options of a queue. */
  datatype Config = Config(hdrDigest: bool, dataDigest: bool, admin: bool)

  /** The receive fields of struct i10_host_queue; `hash` is what the digest in progress covers. */
  datatype Rx = Rx(
    pdu: Buffer, pduRemaining: nat, pduOffset: nat, dataRemaining: nat, ddgstRemaining: nat,
    recvDdgst: Digest, expDdgst: Digest, hash: seq<Byte>)

  /** A request: `room` is left in the current bio, `bios` are the sizes of those after it. */
  datatype Request = Request(
    payload: bool, room: nat, bios: seq<nat>, delivered: seq<Byte>,
    dataLen: nat, dataSent: nat, pduLen: nat, pduSent: nat)

  datatype Completion =
    | Command(tag: nat, cqe: seq<Byte>)
    | DataSuccess(tag: nat)
    | AsyncEvent(cqe: seq<Byte>)

  datatype H2cData = H2cData(tag: nat, ttag: nat, offset: nat, length: nat)

  /** What a chunk can change: completions, PDUs queued for sending, the requests, the status. */
  datatype Queue = Queue(
    rx: Rx, reqs: map<nat, Request>, done: seq<Completion>, sendList: seq<H2cData>,
    nrCqe: nat, status: Status)

  // ---------------------------------------------------------------- digests

  /** One step of CRC-32C: the reversed polynomial is 0x82F63B78. */
  function CrcBits(crc: nat, n: nat): nat
    decreases n
  {
    if n == 0 then crc
    else CrcBits(if crc % 2 == 1 then XorBits(crc / 2, 0x82F63B78, 32) else crc / 2, n - 1)
  }

  function CrcBytes(crc: nat, bytes: seq<Byte>): nat
    decreases |bytes|
  {
    if bytes == [] then crc else CrcBytes(CrcBits(XorBits(crc, bytes[0], 32), 8), bytes[1..])
  }

  /** The digest of a byte string: its CRC-32C, inverted, least significant byte first. */
  function Crc32c(bytes: seq<Byte>): Digest {
    var crc := XorBits(CrcBytes(0xFFFF_FFFF, bytes), 0xFFFF_FFFF, 32);
    [crc % 0x100, crc / 0x100 % 0x100, crc / 0x1_0000 % 0x100, crc / 0x100_0000 % 0x100]
  }

  // ---------------------------------------------------------------- PDU fields

  function Le16(b: Buffer, at: nat): nat
    requires at + 2 <= BUFFER_SIZE
  {
    b[at] as int + 0x100 * (b[at + 1] as int)
  }

  function Le32(b: Buffer, at: nat): nat
    requires at + 4 <= BUFFER_SIZE
  {
    Le16(b, at) + 0x1_0000 * Le16(b, at + 2)
  }

  function Type(b: Buffer): Byte { b[0] }
  predicate Flag(b: Buffer, mask: nat) requires mask > 0 { (b[1] / mask) % 2 == 1 }
  function HeaderLength(b: Buffer): nat { b[2] }
  function PduLength(b: Buffer): nat { Le32(b, 4) }
  function DataTag(b: Buffer): nat { Le16(b, 8) }
  function Ttag(b: Buffer): nat { Le16(b, 10) }
  function DataOffset(b: Buffer): nat { Le32(b, 12) }
  function DataLength(b: Buffer): nat { Le32(b, 16) }
  function CqeTag(b: Buffer): nat { Le16(b, 20) }

  /** `b` with `bytes` written at `at`. */
  function Write(b: Buffer, at: nat, bytes: seq<Byte>): Buffer
    requires at + |bytes| <= BUFFER_SIZE
  {
    b[..at] + bytes + b[at + |bytes|..]
  }

  // ---------------------------------------------------------------- handlers

  function HdgstLen(cfg: Config): nat { if cfg.hdrDigest then DIGEST_LENGTH else 0 }

  function Fail(q: Queue, e: Errno): Queue { q.(status := Failed(e)) }

  /** i10_host_init_recv_ctx */
  function InitRecvCtx(cfg: Config, q: Queue): Queue {
    q.(rx := q.rx.(pduRemaining := RSP_PDU_SIZE + HdgstLen(cfg), pduOffset := 0,
                   dataRemaining := SIZE_MAX, ddgstRemaining := 0))
  }

  /** i10_host_verify_hdgst: the computed digest is written over the received one. */
  function VerifyHdgst(cfg: Config, q: Queue): (r: Queue)
    ensures r.rx == q.rx.(pdu := r.rx.pdu)
  {
    var b := q.rx.pdu;
    if !Flag(b, F_HDGST) then Fail(q, EPROTO)
    else
      var n := HeaderLength(b);
      var expected := Crc32c(b[..n]);
      var q' := q.(rx := q.rx.(pdu := Write(b, n, expected)));
      if b[n..n + DIGEST_LENGTH] != expected then Fail(q', EIO) else q'
  }

  /** i10_host_check_ddgst: a PDU with data must carry a data digest. */
  function CheckDdgst(cfg: Config, q: Queue): (r: Queue)
    ensures r.rx == q.rx.(hash := r.rx.hash)
  {
    var b := q.rx.pdu;
    var len := (PduLength(b) - HeaderLength(b) - if Flag(b, F_HDGST) then HdgstLen(cfg) else 0) % TWO32;
    if len != 0 && !Flag(b, F_DDGST) then Fail(q, EPROTO) else q.(rx := q.rx.(hash := []))
  }

  /** i10_host_handle_c2h_data */
  function HandleC2hData(q: Queue): (r: Queue)
    ensures r.rx == q.rx.(dataRemaining := r.rx.dataRemaining)
  {
    var b := q.rx.pdu;
    if DataTag(b) !in q.reqs then Fail(q, ENOENT)
    else if !q.reqs[DataTag(b)].payload then Fail(q, EIO)
    else
      var q' := q.(rx := q.rx.(dataRemaining := DataLength(b)));
      if Flag(b, F_DATA_SUCCESS) && !Flag(b, F_DATA_LAST) then Fail(q', EPROTO) else q'
  }

  /** i10_host_handle_comp */
  function HandleComp(cfg: Config, q: Queue): (r: Queue)
    ensures r.rx == q.rx
  {
    var b := q.rx.pdu;
    var cqe := b[8..24];
    if cfg.admin && CqeTag(b) >= NVME_AQ_BLK_MQ_DEPTH then q.(done := q.done + [AsyncEvent(cqe)])
    else if CqeTag(b) !in q.reqs then Fail(q, EINVAL)
    else q.(done := q.done + [Command(CqeTag(b), cqe)], nrCqe := q.nrCqe + 1)
  }

  /** i10_host_handle_r2t and i10_host_setup_h2c_data_pdu */
  function HandleR2t(q: Queue): (r: Queue)
    ensures r.rx == q.rx
  {
    var b := q.rx.pdu;
    var tag := DataTag(b);
    if tag !in q.reqs then Fail(q, ENOENT)
    else
      var req := q.reqs[tag].(pduLen := DataLength(b), pduSent := 0);
      var q' := q.(reqs := q.reqs[tag := req]);
      if req.dataSent + req.pduLen > req.dataLen then Fail(q', EPROTO)
      else if DataOffset(b) < req.dataSent then Fail(q', EPROTO)
      else q'.(sendList := q.sendList + [H2cData(tag, Ttag(b), req.dataSent, req.pduLen)])
  }

  function Dispatch(cfg: Config, q: Queue): Queue {
    if Type(q.rx.pdu) == TYPE_C2H_DATA then HandleC2hData(q)
    else if Type(q.rx.pdu) == TYPE_RSP then HandleComp(cfg, InitRecvCtx(cfg, q))
    else if Type(q.rx.pdu) == TYPE_R2T then HandleR2t(InitRecvCtx(cfg, q))
    else Fail(q, EINVAL)
  }

  /** A whole PDU header has arrived: the second half of i10_host_recv_pdu. */
  function ProcessPdu(cfg: Config, q: Queue): Queue {
    var q1 := if cfg.hdrDigest then VerifyHdgst(cfg, q) else q;
    if q1.status.Failed? then q1 else
    var q2 := if cfg.dataDigest then CheckDdgst(cfg, q1) else q1;
    if q2.status.Failed? then q2 else Dispatch(cfg, q2)
  }

  /** All data of a PDU has arrived: the end of i10_host_recv_data. */
  function FinishData(cfg: Config, q: Queue): Queue {
    if cfg.dataDigest then
      q.(rx := q.rx.(expDdgst := Crc32c(q.rx.hash), ddgstRemaining := DIGEST_LENGTH))
    else InitRecvCtx(cfg, Succeed(q))
  }

  /** Complete the request if the data PDU stands for its completion as well. */
  function Succeed(q: Queue): Queue {
    if Flag(q.rx.pdu, F_DATA_SUCCESS)
    then q.(done := q.done + [DataSuccess(DataTag(q.rx.pdu))], nrCqe := q.nrCqe + 1)
    else q
  }

  /** The data digest has arrived: the end of i10_host_recv_ddgst. */
  function FinishDdgst(cfg: Config, q: Queue): Queue {
    if q.rx.recvDdgst != q.rx.expDdgst then Fail(q, EIO) else InitRecvCtx(cfg, Succeed(q))
  }

  // ---------------------------------------------------------------- the byte machine

  /** Empty bios are passed over; without room in the result, the request has none left. */
  function NextRoom(req: Request): (r: Request)
    ensures r == req.(room := r.room, bios := r.bios)
    ensures r.room > 0 || r.bios == []
    decreases |req.bios|
  {
    if req.room > 0 || req.bios == [] then req
    else NextRoom(req.(room := req.bios[0], bios := req.bios[1..]))
  }

  function PduByte(cfg: Config, q: Queue, b: Byte): Queue
    requires Sound(q) && q.rx.pduRemaining > 0
  {
    var q' := q.(rx := q.rx.(pdu := q.rx.pdu[q.rx.pduOffset := b],
                             pduRemaining := q.rx.pduRemaining - 1, pduOffset := q.rx.pduOffset + 1));
    if q'.rx.pduRemaining == 0 then ProcessPdu(cfg, q') else q'
  }

  function DataByte(cfg: Config, q: Queue, b: Byte): Queue
    requires q.rx.dataRemaining > 0
  {
    var tag := DataTag(q.rx.pdu);
    if tag !in q.reqs then Fail(q, ENOENT) else
    var req := NextRoom(q.reqs[tag]);
    if req.room == 0 then Fail(InitRecvCtx(cfg, q.(reqs := q.reqs[tag := req])), EIO) else
    var q' := q.(reqs := q.reqs[tag := req.(room := req.room - 1, delivered := req.delivered + [b])],
                 rx := q.rx.(dataRemaining := q.rx.dataRemaining - 1,
                             hash := if cfg.dataDigest then q.rx.hash + [b] else q.rx.hash));
    if q'.rx.dataRemaining == 0 then FinishData(cfg, q') else q'
  }

  function DdgstByte(cfg: Config, q: Queue, b: Byte): Queue
    requires 0 < q.rx.ddgstRemaining <= DIGEST_LENGTH
  {
    var q' := q.(rx := q.rx.(recvDdgst := q.rx.recvDdgst[DIGEST_LENGTH - q.rx.ddgstRemaining := b],
                             ddgstRemaining := q.rx.ddgstRemaining - 1));
    if q'.rx.ddgstRemaining == 0 then FinishDdgst(cfg, q') else q'
  }

  /** A data PDU without data is finished when the next byte shows up. */
  function Settle(cfg: Config, q: Queue): Queue {
    if q.status.Live? && q.rx.pduRemaining == 0 && q.rx.ddgstRemaining == 0 && q.rx.dataRemaining == 0
    then (if DataTag(q.rx.pdu) !in q.reqs then Fail(q, ENOENT) else FinishData(cfg, q))
    else q
  }

  predicate Sound(q: Queue) {
    && q.rx.ddgstRemaining <= DIGEST_LENGTH
    && q.rx.pduOffset + q.rx.pduRemaining <= RSP_PDU_SIZE + DIGEST_LENGTH
  }

  function FeedByte(cfg: Config, q: Queue, b: Byte): Queue
    requires Sound(q)
  {
    var q := Settle(cfg, q);
    if q.status.Failed? then q
    else if q.rx.pduRemaining > 0 then PduByte(cfg, q, b)
    else if q.rx.ddgstRemaining > 0 then DdgstByte(cfg, q, b)
    else if q.rx.dataRemaining > 0 then DataByte(cfg, q, b)
    else q
  }

  lemma ProcessPduSound(cfg: Config, q: Queue)
    requires Sound(q)
    ensures Sound(ProcessPdu(cfg, q))
  {
    hide VerifyHdgst, CheckDdgst, HandleC2hData, HandleComp, HandleR2t;
  }

  lemma FeedByteSound(cfg: Config, q: Queue, b: Byte)
    requires Sound(q)
    ensures Sound(FeedByte(cfg, q, b))
  {
    hide ProcessPdu, NextRoom;
    var q := Settle(cfg, q);
    if q.status.Live? && q.rx.pduRemaining > 0 {
      var q' := q.(rx := q.rx.(pdu := q.rx.pdu[q.rx.pduOffset := b],
                               pduRemaining := q.rx.pduRemaining - 1, pduOffset := q.rx.pduOffset + 1));
      ProcessPduSound(cfg, q');
    }
  }

  function Feed(cfg: Config, q: Queue, bytes: seq<Byte>): Queue
    requires Sound(q)
    ensures Sound(Feed(cfg, q, bytes))
    decreases |bytes|
  {
    if bytes == [] then q
    else
      FeedByteSound(cfg, q, bytes[0]);
      Feed(cfg, FeedByte(cfg, q, bytes[0]), bytes[1..])
  }

  lemma {:induction false} FeedAppend(cfg: Config, q: Queue, a: seq<Byte>, b: seq<Byte>)
    requires Sound(q)
    ensures Feed(cfg, Feed(cfg, q, a), b) == Feed(cfg, q, a + b)
    decreases |a|
  {
    hide FeedByte;
    if a == [] {
      assert a + b == b;
    } else {
      FeedByteSound(cfg, q, a[0]);
      FeedAppend(cfg, FeedByte(cfg, q, a[0]), a[1..], b);
      assert (a + b)[0] == a[0] && (a + b)[1..] == a[1..] + b;
    }
  }

  lemma {:induction false} FeedFailed(cfg: Config, q: Queue, bytes: seq<Byte>)
    requires Sound(q) && q.status.Failed?
    ensures Feed(cfg, q, bytes) == q
    decreases |bytes|
  {
    if bytes != [] {
      FeedFailed(cfg, q, bytes[1..]);
    }
  }

  lemma FeedOne(cfg: Config, q: Queue, b: Byte)
    requires Sound(q)
    ensures Feed(cfg, q, [b]) == FeedByte(cfg, q, b)
  {
    hide FeedByte;
    assert [b][1..] == [];
  }

  /** Feeding a settled queue is feeding the unsettled one, as long as there is a byte. */
  lemma FeedSettled(cfg: Config, q: Queue, bytes: seq<Byte>)
    requires Sound(q) && bytes != []
    ensures Sound(Settle(cfg, q)) && Feed(cfg, Settle(cfg, q), bytes) == Feed(cfg, q, bytes)
  {
    hide PduByte, DataByte, DdgstByte;
    assert Settle(cfg, Settle(cfg, q)) == Settle(cfg, q);
  }

  // ---------------------------------------------------------------- runs of bytes of one kind

  /** `bytes` copied into the PDU buffer. */
  function FillPdu(q: Queue, bytes: seq<Byte>): Queue
    requires Sound(q) && |bytes| <= q.rx.pduRemaining
  {
    q.(rx := q.rx.(pdu := Write(q.rx.pdu, q.rx.pduOffset, bytes),
                   pduRemaining := q.rx.pduRemaining - |bytes|, pduOffset := q.rx.pduOffset + |bytes|))
  }

  lemma FillPduStep(q: Queue, bytes: seq<Byte>)
    requires Sound(q) && 0 < |bytes| <= q.rx.pduRemaining
    ensures FillPdu(FillPdu(q, [bytes[0]]), bytes[1..]) == FillPdu(q, bytes)
  {
    var b, at := q.rx.pdu, q.rx.pduOffset;
    assert Write(Write(b, at, [bytes[0]]), at + 1, bytes[1..]) == Write(b, at, bytes);
  }

  lemma {:induction false} FeedPdu(cfg: Config, q: Queue, bytes: seq<Byte>)
    requires Sound(q) && q.status.Live? && 0 < |bytes| <= q.rx.pduRemaining
    ensures Feed(cfg, q, bytes) ==
      if |bytes| == q.rx.pduRemaining then ProcessPdu(cfg, FillPdu(q, bytes)) else FillPdu(q, bytes)
    decreases |bytes|
  {
    hide ProcessPdu;
    var q1 := FillPdu(q, [bytes[0]]);
    FillPduStep(q, bytes);
    assert q1.rx.pdu == q.rx.pdu[q.rx.pduOffset := bytes[0]];
    if |bytes| == 1 {
      assert bytes == [bytes[0]];
      FeedOne(cfg, q, bytes[0]);
    } else {
      assert FeedByte(cfg, q, bytes[0]) == q1;
      FeedPdu(cfg, q1, bytes[1..]);
    }
  }

  function FillDdgst(q: Queue, bytes: seq<Byte>): Queue
    requires Sound(q) && |bytes| <= q.rx.ddgstRemaining
  {
    var at := DIGEST_LENGTH - q.rx.ddgstRemaining;
    q.(rx := q.rx.(recvDdgst := q.rx.recvDdgst[..at] + bytes + q.rx.recvDdgst[at + |bytes|..],
                   ddgstRemaining := q.rx.ddgstRemaining - |bytes|))
  }

  lemma FillDdgstStep(q: Queue, bytes: seq<Byte>)
    requires Sound(q) && 0 < |bytes| <= q.rx.ddgstRemaining
    ensures FillDdgst(FillDdgst(q, [bytes[0]]), bytes[1..]) == FillDdgst(q, bytes)
  {
    var d, at := q.rx.recvDdgst, DIGEST_LENGTH - q.rx.ddgstRemaining;
    var d1 := d[..at] + [bytes[0]] + d[at + 1..];
    assert d1[..at + 1] + bytes[1..] + d1[at + |bytes|..] == d[..at] + bytes + d[at + |bytes|..];
  }

  lemma {:induction false} FeedDdgst(cfg: Config, q: Queue, bytes: seq<Byte>)
    requires Sound(q) && q.status.Live? && q.rx.pduRemaining == 0
    requires 0 < |bytes| <= q.rx.ddgstRemaining
    ensures Feed(cfg, q, bytes) ==
      if |bytes| == q.rx.ddgstRemaining then FinishDdgst(cfg, FillDdgst(q, bytes)) else FillDdgst(q, bytes)
    decreases |bytes|
  {
    hide FinishDdgst;
    var q1 := FillDdgst(q, [bytes[0]]);
    FillDdgstStep(q, bytes);
    assert q1.rx.recvDdgst == q.rx.recvDdgst[DIGEST_LENGTH - q.rx.ddgstRemaining := bytes[0]];
    if |bytes| == 1 {
      assert bytes == [bytes[0]];
      FeedOne(cfg, q, bytes[0]);
    } else {
      assert FeedByte(cfg, q, bytes[0]) == q1;
      FeedDdgst(cfg, q1, bytes[1..]);
    }
  }

  predicate ExpectsData(q: Queue) {
    && Sound(q) && q.status.Live? && q.rx.pduRemaining == 0 && q.rx.ddgstRemaining == 0
    && DataTag(q.rx.pdu) in q.reqs
  }

  /** `bytes` copied into the request's current bio. */
  function FillData(cfg: Config, q: Queue, bytes: seq<Byte>): Queue
    requires ExpectsData(q) && |bytes| <= q.rx.dataRemaining && |bytes| <= q.reqs[DataTag(q.rx.pdu)].room
  {
    var tag := DataTag(q.rx.pdu);
    var req := q.reqs[tag];
    q.(reqs := q.reqs[tag := req.(room := req.room - |bytes|, delivered := req.delivered + bytes)],
       rx := q.rx.(dataRemaining := q.rx.dataRemaining - |bytes|,
                   hash := if cfg.dataDigest then q.rx.hash + bytes else q.rx.hash))
  }

  lemma FillDataStep(cfg: Config, q: Queue, bytes: seq<Byte>)
    requires ExpectsData(q)
    requires 0 < |bytes| <= q.rx.dataRemaining && |bytes| <= q.reqs[DataTag(q.rx.pdu)].room
    ensures FillData(cfg, FillData(cfg, q, [bytes[0]]), bytes[1..]) == FillData(cfg, q, bytes)
  {
    hide Le16;
    var tag := DataTag(q.rx.pdu);
    assert q.rx.hash + [bytes[0]] + bytes[1..] == q.rx.hash + bytes;
    assert q.reqs[tag].delivered + [bytes[0]] + bytes[1..] == q.reqs[tag].delivered + bytes;
  }

  lemma {:induction false} FeedData(cfg: Config, q: Queue, bytes: seq<Byte>)
    requires ExpectsData(q)
    requires 0 < |bytes| <= q.rx.dataRemaining && |bytes| <= q.reqs[DataTag(q.rx.pdu)].room
    ensures Feed(cfg, q, bytes) ==
      if |bytes| == q.rx.dataRemaining then FinishData(cfg, FillData(cfg, q, bytes)) else FillData(cfg, q, bytes)
    decreases |bytes|
  {
    hide FinishData, Le16;
    var q1 := FillData(cfg, q, [bytes[0]]);
    FillDataStep(cfg, q, bytes);
    if |bytes| == 1 {
      assert bytes == [bytes[0]];
      FeedOne(cfg, q, bytes[0]);
    } else {
      assert FeedByte(cfg, q, bytes[0]) == q1;
      FeedData(cfg, q1, bytes[1..]);
    }
  }

  /** Moving to the next bio changes nothing the byte machine can see. */
  function NextBio(q: Queue): Queue
    requires ExpectsData(q) && q.reqs[DataTag(q.rx.pdu)].bios != []
  {
    var tag := DataTag(q.rx.pdu);
    var req := q.reqs[tag];
    q.(reqs := q.reqs[tag := req.(room := req.bios[0], bios := req.bios[1..])])
  }

  lemma FeedNextBio(cfg: Config, q: Queue, bytes: seq<Byte>)
    requires ExpectsData(q) && q.rx.dataRemaining > 0 && bytes != []
    requires q.reqs[DataTag(q.rx.pdu)].room == 0 && q.reqs[DataTag(q.rx.pdu)].bios != []
    ensures Feed(cfg, NextBio(q), bytes) == Feed(cfg, q, bytes)
  {
    hide FinishData, Le16;
    var tag := DataTag(q.rx.pdu);
    var q1, req := NextBio(q), NextRoom(q.reqs[tag]);
    assert NextRoom(q1.reqs[tag]) == req;
    assert forall r: Request {:trigger q.reqs[tag := r]} :: q1.reqs[tag := r] == q.reqs[tag := r];
    assert FeedByte(cfg, q1, bytes[0]) == FeedByte(cfg, q, bytes[0]);
  }

  lemma FeedNoRoom(cfg: Config, q: Queue, bytes: seq<Byte>)
    requires ExpectsData(q) && q.rx.dataRemaining > 0 && bytes != []
    requires q.reqs[DataTag(q.rx.pdu)].room == 0 && q.reqs[DataTag(q.rx.pdu)].bios == []
    ensures Feed(cfg, q, bytes) == Fail(InitRecvCtx(cfg, q), EIO)
  {
    hide Le16;
    var tag := DataTag(q.rx.pdu);
    assert q.reqs[tag := q.reqs[tag]] == q.reqs;
    assert FeedByte(cfg, q, bytes[0]) == Fail(InitRecvCtx(cfg, q), EIO);
    FeedFailed(cfg, Fail(InitRecvCtx(cfg, q), EIO), bytes[1..]);
  }

  lemma FeedNoTag(cfg: Config, q: Queue, bytes: seq<Byte>)
    requires Sound(q) && q.status.Live? && q.rx.pduRemaining == 0 && q.rx.ddgstRemaining == 0
    requires DataTag(q.rx.pdu) !in q.reqs && bytes != []
    ensures Feed(cfg, q, bytes) == Fail(q, ENOENT)
  {
    hide Le16;
    assert FeedByte(cfg, q, bytes[0]) == Fail(q, ENOENT);
    FeedFailed(cfg, Fail(q, ENOENT), bytes[1..]);
  }

  lemma FinishDataLeaves(cfg: Config, q: Queue)
    ensures var r := FinishData(cfg, q); r.rx.pduRemaining > 0 || r.rx.ddgstRemaining > 0
  {
  }

  // ---------------------------------------------------------------- the driver

  class HostQueue {
    const cfg: Config
    var rx: Rx
    var reqs: map<nat, Request>
    var done: seq<Completion>
    var sendList: seq<H2cData>
    var nrCqe: nat
    var status: Status

    function View(): Queue
      reads this
    {
      Queue(rx, reqs, done, sendList, nrCqe, status)
    }

    constructor (cfg: Config, reqs: map<nat, Request>, pdu: Buffer, zero: Digest)
      ensures this.cfg == cfg && Sound(View()) && status == Live
      ensures rx.pduRemaining == RSP_PDU_SIZE + HdgstLen(cfg) && this.reqs == reqs
    {
      this.cfg, this.reqs, done, sendList, nrCqe, status := cfg, reqs, [], [], 0, Live;
      rx := Rx(pdu, RSP_PDU_SIZE + HdgstLen(cfg), 0, SIZE_MAX, 0, zero, zero, []);
    }

    method Store(q: Queue)
      modifies this
      ensures View() == q
    {
      rx, reqs, done, sendList, nrCqe, status := q.rx, q.reqs, q.done, q.sendList, q.nrCqe, q.status;
    }

    /** i10_host_recv_pdu, on the bytes of `chunk` from `offset` on. */
    method RecvPdu(chunk: seq<Byte>, offset: nat) returns (next: nat)
      requires Sound(View()) && status.Live? && rx.pduRemaining > 0 && offset < |chunk|
      modifies this
      ensures offset < next <= |chunk| && View() == Feed(cfg, old(View()), chunk[offset..next])
    {
      hide FeedByte, Feed, ProcessPdu;
      ghost var q := View();
      var rcvLen := if |chunk| - offset < rx.pduRemaining then |chunk| - offset else rx.pduRemaining;
      next := offset + rcvLen;
      FeedPdu(cfg, q, chunk[offset..next]);
      rx := rx.(pdu := Write(rx.pdu, rx.pduOffset, chunk[offset..next]),
                pduRemaining := rx.pduRemaining - rcvLen, pduOffset := rx.pduOffset + rcvLen);
      if rx.pduRemaining == 0 {
        Store(ProcessPdu(cfg, View()));
      }
    }

    /** i10_host_recv_ddgst */
    method RecvDdgst(chunk: seq<Byte>, offset: nat) returns (next: nat)
      requires Sound(View()) && status.Live? && rx.pduRemaining == 0 && rx.ddgstRemaining > 0
      requires offset < |chunk|
      modifies this
      ensures offset < next <= |chunk| && View() == Feed(cfg, old(View()), chunk[offset..next])
    {
      hide FeedByte, Feed, FinishDdgst;
      ghost var q := View();
      var recvLen := if |chunk| - offset < rx.ddgstRemaining then |chunk| - offset else rx.ddgstRemaining;
      var off := DIGEST_LENGTH - rx.ddgstRemaining;
      next := offset + recvLen;
      FeedDdgst(cfg, q, chunk[offset..next]);
      rx := rx.(recvDdgst := rx.recvDdgst[..off] + chunk[offset..next] + rx.recvDdgst[off + recvLen..],
                ddgstRemaining := rx.ddgstRemaining - recvLen);
      if rx.ddgstRemaining == 0 {
        Store(FinishDdgst(cfg, View()));
      }
    }

    /** i10_host_recv_data: copies bio by bio.  It may consume nothing, when the PDU carries no
        data, and may stop early, when the request has no room. */
    method RecvData(chunk: seq<Byte>, offset: nat) returns (next: nat)
      requires Sound(View()) && status.Live? && rx.pduRemaining == 0 && rx.ddgstRemaining == 0
      requires offset < |chunk|
      modifies this
      ensures offset <= next <= |chunk| && Sound(View())
      ensures Feed(cfg, View(), chunk[next..]) == Feed(cfg, old(View()), chunk[offset..])
      ensures next > offset || status.Failed? || rx.pduRemaining > 0 || rx.ddgstRemaining > 0
    {
      hide FeedByte, Feed, FinishData, Le16;
      next := offset;
      ghost var target := Feed(cfg, View(), chunk[offset..]);
      var tag := DataTag(rx.pdu);
      if tag !in reqs {
        FeedNoTag(cfg, View(), chunk[offset..]);
        status := Failed(ENOENT);
        FeedFailed(cfg, View(), chunk[next..]);
        return;
      }
      FeedSettled(cfg, View(), chunk[offset..]);
      while next < |chunk| && rx.dataRemaining > 0
        invariant offset <= next <= |chunk| && ExpectsData(View()) && tag == DataTag(rx.pdu)
        invariant rx.dataRemaining > 0 ==> Feed(cfg, View(), chunk[next..]) == target
        invariant rx.dataRemaining == 0 ==>
          Sound(FinishData(cfg, View())) && Feed(cfg, FinishData(cfg, View()), chunk[next..]) == target
        invariant next > offset || next < |chunk|
        decreases |chunk| - next, |reqs[tag].bios|
      {
        if reqs[tag].room == 0 {
          if reqs[tag].bios == [] {
            // the controller sent more data than was asked for
            FeedNoRoom(cfg, View(), chunk[next..]);
            Store(Fail(InitRecvCtx(cfg, View()), EIO));
            FeedFailed(cfg, View(), chunk[next..]);
            return;
          }
          FeedNextBio(cfg, View(), chunk[next..]);
          reqs := reqs[tag := reqs[tag].(room := reqs[tag].bios[0], bios := reqs[tag].bios[1..])];
        } else {
          var left := |chunk| - next;
          var recvLen := if left < rx.dataRemaining then left else rx.dataRemaining;
          recvLen := if recvLen < reqs[tag].room then recvLen else reqs[tag].room;
          var q, piece := View(), chunk[next..next + recvLen];
          FeedData(cfg, q, piece);
          assert chunk[next..] == piece + chunk[next + recvLen..];
          FeedAppend(cfg, q, piece, chunk[next + recvLen..]);
          Store(FillData(cfg, q, piece));
          next := next + recvLen;
        }
      }
      if rx.dataRemaining == 0 {
        FinishDataLeaves(cfg, View());
        Store(FinishData(cfg, View()));
      }
    }

    /** i10_host_recv_skb: the whole chunk, or as much as there is before the first error. */
    method RecvSkb(chunk: seq<Byte>) returns (ok: bool)
      requires Sound(View()) && status.Live?
      modifies this
      ensures View() == Feed(cfg, old(View()), chunk) && ok == status.Live?
    {
      hide FeedByte, Feed;
      ghost var target := Feed(cfg, View(), chunk);
      var offset := 0;
      assert chunk[0..] == chunk;
      while offset < |chunk|
        invariant 0 <= offset <= |chunk| && Sound(View()) && status.Live?
        invariant Feed(cfg, View(), chunk[offset..]) == target
        decreases |chunk| - offset, rx.pduRemaining == 0 && rx.ddgstRemaining == 0
      {
        ghost var q, before := View(), offset;
        if rx.pduRemaining > 0 {
          offset := RecvPdu(chunk, offset);
          FeedPiece(cfg, q, chunk, before, offset);
        } else if rx.ddgstRemaining > 0 {
          offset := RecvDdgst(chunk, offset);
          FeedPiece(cfg, q, chunk, before, offset);
        } else {
          offset := RecvData(chunk, offset);
        }
        if status.Failed? {
          FeedFailed(cfg, View(), chunk[offset..]);
          return false;
        }
      }
      assert chunk[offset..] == [];
      FeedNothing(cfg, View());
      return true;
    }

    /** i10_host_try_recv: read_sock hands over chunk after chunk, until one is not taken whole. */
    method RecvAll(chunks: seq<seq<Byte>>) returns (ok: bool)
      requires Sound(View()) && status.Live?
      modifies this
      ensures View() == Feed(cfg, old(View()), Stream(chunks)) && ok == status.Live?
    {
      hide Feed, Sound;
      ghost var target := Feed(cfg, View(), Stream(chunks));
      assert chunks[0..] == chunks;
      for i := 0 to |chunks|
        invariant Sound(View()) && status.Live? && Feed(cfg, View(), Stream(chunks[i..])) == target
      {
        ghost var q, rest := View(), Stream(chunks[i + 1..]);
        assert chunks[i..][1..] == chunks[i + 1..];
        ok := RecvSkb(chunks[i]);
        FeedAppend(cfg, q, chunks[i], rest);
        if !ok {
          FeedFailed(cfg, View(), rest);
          return;
        }
      }
      FeedNothing(cfg, View());
      ok := true;
    }
  }

  lemma FeedNothing(cfg: Config, q: Queue)
    requires Sound(q)
    ensures Feed(cfg, q, []) == q
  {
  }

  lemma FeedPiece(cfg: Config, q: Queue, chunk: seq<Byte>, a: nat, b: nat)
    requires Sound(q) && a <= b <= |chunk|
    ensures Feed(cfg, Feed(cfg, q, chunk[a..b]), chunk[b..]) == Feed(cfg, q, chunk[a..])
  {
    FeedAppend(cfg, q, chunk[a..b], chunk[b..]);
    assert chunk[a..b] + chunk[b..] == chunk[a..];
  }

  // ---------------------------------------------------------------- segmentation

  function Stream(chunks: seq<seq<Byte>>): seq<Byte> {
    if chunks == [] then [] else chunks[0] + Stream(chunks[1..])
  }

  /** Two receivers in the same state that are handed the same byte stream, cut in two different ways,
      end in the same state: with the same data delivered, the same completions, the same PDUs to send
      and the same first error. */
  method SameStream(a: HostQueue, b: HostQueue, xs: seq<seq<Byte>>, ys: seq<seq<Byte>>) returns (ok: bool)
    requires a != b && a.cfg == b.cfg && a.View() == b.View() && Stream(xs) == Stream(ys)
    requires Sound(a.View()) && a.status.Live?
    modifies a, b
    ensures a.View() == b.View() && ok == a.status.Live?
  {
    ok := a.RecvAll(xs);
    var ok' := b.RecvAll(ys);
  }

  // ---------------------------------------------------------------- a data PDU, end to end

  function Sum(bios: seq<nat>): nat {
    if bios == [] then 0 else bios[0] + Sum(bios[1..])
  }

  function Capacity(req: Request): nat {
    req.room + Sum(req.bios)
  }

  /** The request once `bytes` have been spread over its bios. */
  function Absorb(req: Request, bytes: seq<Byte>): (r: Request)
    requires |bytes| <= Capacity(req)
    ensures r == req.(room := r.room, bios := r.bios, delivered := req.delivered + bytes)
    ensures Capacity(r) == Capacity(req) - |bytes|
    decreases |req.bios|
  {
    if |bytes| <= req.room then req.(room := req.room - |bytes|, delivered := req.delivered + bytes)
    else
      var r := req.(room := req.bios[0], bios := req.bios[1..], delivered := req.delivered + bytes[..req.room]);
      assert r.delivered + bytes[req.room..] == req.delivered + bytes;
      Absorb(r, bytes[req.room..])
  }

  /** The queue once all data of the current PDU is in. */
  function Filled(cfg: Config, q: Queue, bytes: seq<Byte>): Queue
    requires ExpectsData(q) && |bytes| <= Capacity(q.reqs[DataTag(q.rx.pdu)])
  {
    var tag := DataTag(q.rx.pdu);
    q.(reqs := q.reqs[tag := Absorb(q.reqs[tag], bytes)],
       rx := q.rx.(dataRemaining := 0, hash := if cfg.dataDigest then q.rx.hash + bytes else q.rx.hash))
  }

  lemma {:induction false} DataArrives(cfg: Config, q: Queue, bytes: seq<Byte>)
    requires ExpectsData(q) && 0 < |bytes| == q.rx.dataRemaining
    requires |bytes| <= Capacity(q.reqs[DataTag(q.rx.pdu)])
    ensures Feed(cfg, q, bytes) == FinishData(cfg, Filled(cfg, q, bytes))
    decreases |q.reqs[DataTag(q.rx.pdu)].bios|
  {
    hide FeedByte, Feed, FinishData, Le16;
    var tag := DataTag(q.rx.pdu);
    var room := q.reqs[tag].room;
    if |bytes| <= room {
      FeedData(cfg, q, bytes);
    } else {
      var head, rest := bytes[..room], bytes[room..];
      var q1 := FillData(cfg, q, head);
      var q2 := NextBio(q1);
      assert bytes == head + rest;
      FeedAppend(cfg, q, head, rest);
      if room > 0 {
        FeedData(cfg, q, head);
      } else {
        FeedNothing(cfg, q);
        assert q1 == q by {
          assert q.reqs[tag := q.reqs[tag]] == q.reqs;
          assert q.reqs[tag].delivered + [] == q.reqs[tag].delivered && q.rx.hash + [] == q.rx.hash;
        }
      }
      FeedNextBio(cfg, q1, rest);
      DataArrives(cfg, q2, rest);
      assert q.rx.hash + head + rest == q.rx.hash + bytes;
      assert Filled(cfg, q2, rest) == Filled(cfg, q, bytes);
    }
  }

  predicate BetweenPdus(cfg: Config, q: Queue) {
    && q.status.Live? && q.rx.ddgstRemaining == 0
    && q.rx.pduRemaining == RSP_PDU_SIZE + HdgstLen(cfg) && q.rx.pduOffset == 0
  }

  /** A data PDU as a conforming controller sends it: `h` is its 24-byte header. */
  function Wire(cfg: Config, h: seq<Byte>, payload: seq<Byte>): seq<Byte> {
    Header(cfg, h) + payload + (if cfg.dataDigest then Crc32c(payload) else [])
  }

  function Header(cfg: Config, h: seq<Byte>): seq<Byte> {
    h + (if cfg.hdrDigest then Crc32c(h) else [])
  }

  /** `b` is the buffer with a well-formed C2H data header for `n` bytes in it. */
  predicate DataHeader(cfg: Config, b: Buffer, n: nat) {
    && Type(b) == TYPE_C2H_DATA && HeaderLength(b) == RSP_PDU_SIZE && DataLength(b) == n
    && (cfg.hdrDigest ==> Flag(b, F_HDGST)) && (cfg.dataDigest ==> Flag(b, F_DDGST))
    && (Flag(b, F_DATA_SUCCESS) ==> Flag(b, F_DATA_LAST))
  }

  lemma DigestInPlace(b0: Buffer, h: seq<Byte>, d: Digest)
    requires |h| == RSP_PDU_SIZE
    ensures var b := Write(b0, 0, h + d);
      && b[..RSP_PDU_SIZE] == h && b[RSP_PDU_SIZE..RSP_PDU_SIZE + DIGEST_LENGTH] == d
      && Write(b, RSP_PDU_SIZE, d) == b
  {
  }

  lemma HeaderArrives(cfg: Config, q: Queue, h: seq<Byte>, n: nat)
    requires Sound(q) && BetweenPdus(cfg, q) && |h| == RSP_PDU_SIZE
    requires var b := Write(q.rx.pdu, 0, Header(cfg, h));
      DataHeader(cfg, b, n) && DataTag(b) in q.reqs && q.reqs[DataTag(b)].payload
    ensures var b := Write(q.rx.pdu, 0, Header(cfg, h)); var r := Feed(cfg, q, Header(cfg, h));
      r == q.(rx := q.rx.(pdu := b, pduRemaining := 0, pduOffset := |Header(cfg, h)|, dataRemaining := n,
                          hash := if cfg.dataDigest then [] else q.rx.hash))
  {
    hide FeedByte, Feed, Le16, Flag, Crc32c;
    var hdr := Header(cfg, h);
    var b := Write(q.rx.pdu, 0, hdr);
    FeedPdu(cfg, q, hdr);
    if cfg.hdrDigest {
      DigestInPlace(q.rx.pdu, h, Crc32c(h));
    }
  }

  /** Round trip: a well-formed data PDU for a request with room for it, however its bios are
      laid out and whichever digests are on, appends exactly its payload to the request, completes
      the request if it says so, changes no other request, and leaves the queue between PDUs. */
  lemma DataPduDelivers(cfg: Config, q: Queue, h: seq<Byte>, payload: seq<Byte>)
    requires Sound(q) && BetweenPdus(cfg, q) && |h| == RSP_PDU_SIZE && payload != []
    requires var b := Write(q.rx.pdu, 0, Header(cfg, h));
      && DataHeader(cfg, b, |payload|) && DataTag(b) in q.reqs && q.reqs[DataTag(b)].payload
      && |payload| <= Capacity(q.reqs[DataTag(b)])
    ensures var b := Write(q.rx.pdu, 0, Header(cfg, h)); var tag := DataTag(b);
      var r := Feed(cfg, q, Wire(cfg, h, payload));
      && BetweenPdus(cfg, r) && r.sendList == q.sendList
      && r.reqs == q.reqs[tag := Absorb(q.reqs[tag], payload)]
      && r.reqs[tag].delivered == q.reqs[tag].delivered + payload
      && r.done == q.done + (if Flag(b, F_DATA_SUCCESS) then [DataSuccess(tag)] else [])
  {
    hide FeedByte, Feed, Le16, Flag, FillDdgst, Crc32c;
    var hdr := Header(cfg, h);
    var tail: seq<Byte> := if cfg.dataDigest then Crc32c(payload) else [];
    HeaderArrives(cfg, q, h, |payload|);
    var q1 := Feed(cfg, q, hdr);
    DataArrives(cfg, q1, payload);
    FeedAppend(cfg, q, hdr, payload);
    FeedAppend(cfg, q, hdr + payload, tail);
    var q2 := Feed(cfg, q1, payload);
    if cfg.dataDigest {
      assert [] + payload == payload;
      assert q2.rx.expDdgst == Crc32c(payload);
      FeedDdgst(cfg, q2, tail);
      DigestMatches(q2, tail);
    } else {
      FeedNothing(cfg, q2);
    }
  }

  lemma DigestMatches(q: Queue, d: Digest)
    requires Sound(q) && q.rx.ddgstRemaining == DIGEST_LENGTH
    ensures FillDdgst(q, d) == q.(rx := q.rx.(recvDdgst := d, ddgstRemaining := 0))
  {
    var e := q.rx.recvDdgst;
    assert e[..0] + d + e[4..] == d;
  }

  // ---------------------------------------------------------------- an R2T

  /** `b` is the buffer with a well-formed R2T in it. */
  predicate R2tHeader(cfg: Config, b: Buffer) {
    && Type(b) == TYPE_R2T && HeaderLength(b) == RSP_PDU_SIZE && PduLength(b) == RSP_PDU_SIZE + HdgstLen(cfg)
    && (cfg.hdrDigest ==> Flag(b, F_HDGST))
  }

  /** The R2T in `b` asks for data that request `req` still has, from where it has got or later. */
  predicate Fits(req: Request, b: Buffer) {
    req.dataSent + DataLength(b) <= req.dataLen && req.dataSent <= DataOffset(b)
  }

  /** Past the digest checks, the R2T is handled. */
  lemma R2tProcessed(cfg: Config, q: Queue, h: seq<Byte>)
    requires Sound(q) && BetweenPdus(cfg, q) && |h| == RSP_PDU_SIZE
    requires R2tHeader(cfg, Write(q.rx.pdu, 0, Header(cfg, h)))
    ensures var q1 := FillPdu(q, Header(cfg, h));
      ProcessPdu(cfg, q1) ==
        HandleR2t(InitRecvCtx(cfg, q1.(rx := q1.rx.(hash := if cfg.dataDigest then [] else q.rx.hash))))
  {
    hide Le16, Flag, Crc32c, HandleR2t, HandleComp, HandleC2hData;
    if cfg.hdrDigest {
      DigestInPlace(q.rx.pdu, h, Crc32c(h));
    }
    hide Write;
  }

  /** An R2T is accepted exactly if its tag is known and it fits the request: whichever way the data of
      the request flow, and for no data as for any.  Then exactly one PDU is queued for sending. */
  lemma R2tArrives(cfg: Config, q: Queue, h: seq<Byte>)
    requires Sound(q) && BetweenPdus(cfg, q) && |h| == RSP_PDU_SIZE
    requires R2tHeader(cfg, Write(q.rx.pdu, 0, Header(cfg, h)))
    ensures var b := Write(q.rx.pdu, 0, Header(cfg, h)); var tag := DataTag(b);
      var r := Feed(cfg, q, Header(cfg, h));
      && (r.status.Live? <==> tag in q.reqs && Fits(q.reqs[tag], b))
      && (r.status.Live? ==>
            && BetweenPdus(cfg, r) && r.done == q.done
            && r.reqs == q.reqs[tag := q.reqs[tag].(pduLen := DataLength(b), pduSent := 0)]
            && r.sendList == q.sendList + [H2cData(tag, Ttag(b), q.reqs[tag].dataSent, DataLength(b))])
      && (r.status.Failed? ==>
            && r.sendList == q.sendList && r.done == q.done
            && r.status.error == if tag in q.reqs then EPROTO else ENOENT)
  {
    hide FeedByte, Feed, Write, Le16, Flag, Crc32c, ProcessPdu, R2tHeader;
    FeedPdu(cfg, q, Header(cfg, h));
    R2tProcessed(cfg, q, h);
  }
}
