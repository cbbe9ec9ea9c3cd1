/** What each operation of the ARQ keeps, with unbounded sequence numbers. */
module ArqIdeal {
  import opened Wrappers
  import opened Words
  import opened Seqs
  import opened ArqModel

  /** What a segment carries to the peer. */
  datatype Chunk = Chunk(frg: int, payload: seq<byte>)

  function ChunkOf(seg: Segment): Chunk { Chunk(seg.frg, seg.payload) }

  function Chunks(segs: seq<Segment>): seq<Chunk> { seq(|segs|, i requires 0 <= i < |segs| => ChunkOf(segs[i])) }

  ghost predicate Sorted(buf: seq<Segment>) {
    forall i, j :: 0 <= i < j < |buf| ==> buf[i].sn < buf[j].sn
  }

  ghost predicate Within(buf: seq<Segment>, lo: int, hi: int) {
    forall k :: 0 <= k < |buf| ==> lo <= buf[k].sn < hi
  }

  /** The chunk of every buffered segment is the one its sequence number was assigned to. */
  ghost predicate Faithful(buf: seq<Segment>, log: seq<Chunk>) {
    forall k :: 0 <= k < |buf| ==> 0 <= buf[k].sn < |log| && ChunkOf(buf[k]) == log[buf[k].sn]
  }

  /** The send buffer holds, in order, chunks that were assigned numbers from una up to nxt. */
  ghost predicate SendBufInv(buf: seq<Segment>, una: int, nxt: int, log: seq<Chunk>) {
    && Sorted(buf)
    && Within(buf, una, nxt)
    && Faithful(buf, log)
    && una == (if |buf| > 0 then buf[0].sn else nxt)
  }

  /** `log` is what was sent under each sequence number so far. */
  ghost predicate SenderInv(st: State, log: seq<Chunk>) {
    && SendBufInv(st.sendBuf, st.una, st.nxt, log)
    && |log| == st.nxt
    && 0 <= st.una <= st.nxt <= st.una + st.cfg.sendWindow
  }

  /** A sequence number the receiver holds or has passed on. */
  ghost predicate Received(rcv: int, buf: seq<Segment>, n: int) { 0 <= n < rcv || Holds(buf, n) }

  ghost predicate ReceiveBufInv(rcv: int, buf: seq<Segment>, window: int, log: seq<Chunk>) {
    Sorted(buf) && Within(buf, rcv, Min(rcv + window, |log|)) && Faithful(buf, log)
  }

  /** The receive queue holds the peer's chunks from number `delivered` on, in order and without a gap. */
  ghost predicate QueueInv(rcv: int, queue: seq<Segment>, log: seq<Chunk>, delivered: int) {
    0 <= delivered <= rcv <= |log| && Chunks(queue) == log[delivered..rcv]
  }

  ghost predicate AcksInv(rcv: int, buf: seq<Segment>, acks: seq<Ack>) {
    forall k :: 0 <= k < |acks| ==> Received(rcv, buf, acks[k].sn)
  }

  ghost predicate ReceiverInv(st: State, log: seq<Chunk>, delivered: int) {
    && ReceiveBufInv(st.rcv, st.receiveBuf, st.cfg.receiveWindow, log)
    && QueueInv(st.rcv, st.receiveQueue, log, delivered)
    && AcksInv(st.rcv, st.receiveBuf, st.acks)
  }

  /** Nothing received by the first is given up by the second. */
  ghost predicate Grows(rcv: int, buf: seq<Segment>, rcv1: int, buf1: seq<Segment>) {
    forall n :: Received(rcv, buf, n) ==> Received(rcv1, buf1, n)
  }

  /** A header the peer may have sent: data is what its log says. */
  ghost predicate DataOk(it: Item, log: seq<Chunk>) {
    it.cmd == CMD_PUSH ==> 0 <= it.sn < |log| && log[it.sn] == Chunk(it.frg, it.payload)
  }

  // ---------------------------------------------------------------- buffers

  lemma {:induction false} DropBeforeAt(buf: seq<Segment>, una: int) returns (i: int)
    ensures 0 <= i <= |buf| && DropBefore(Ideal, buf, una) == buf[i..]
    ensures forall k :: 0 <= k < i ==> buf[k].sn < una
  {
    i := 0;
    if buf != [] && una - buf[0].sn > 0 {
      var j := DropBeforeAt(buf[1..], una);
      i := j + 1;
      assert buf[1..][j..] == buf[i..];
      forall k | 0 <= k < i ensures buf[k].sn < una {
        if k > 0 { assert buf[1..][k - 1].sn < una; }
      }
    }
  }

  lemma {:induction false} DropAckedAt(buf: seq<Segment>, sn: int) returns (i: int)
    ensures 0 <= i <= |buf|
    ensures i < |buf| ==> buf[i].sn == sn && DropAcked(Ideal, buf, sn) == buf[..i] + buf[i + 1..]
    ensures i == |buf| ==> DropAcked(Ideal, buf, sn) == buf
  {
    if buf == [] || (buf[0].sn != sn && sn - buf[0].sn < 0) {
      i := |buf|;
    } else if buf[0].sn == sn {
      i := 0;
      assert buf[..0] + buf[1..] == buf[1..];
    } else {
      var j := DropAckedAt(buf[1..], sn);
      i := j + 1;
      DropAckedFront(buf, sn, j);
    }
  }

  lemma DropAckedFront(buf: seq<Segment>, sn: int, j: int)
    requires buf != [] && buf[0].sn != sn && sn - buf[0].sn >= 0 && 0 <= j < |buf|
    requires var tail := buf[1..];
             DropAcked(Ideal, tail, sn) == if j < |tail| then tail[..j] + tail[j + 1..] else tail
    ensures DropAcked(Ideal, buf, sn) == if j + 1 < |buf| then buf[..j + 1] + buf[j + 2..] else buf
  {
    var tail := buf[1..];
    assert DropAcked(Ideal, buf, sn) == [buf[0]] + DropAcked(Ideal, tail, sn);
    if j < |tail| { DropTail(buf, j + 1); } else { assert [buf[0]] + tail == buf; }
  }

  lemma {:induction false} CountSkippedKeeps(m: Mode, buf: seq<Segment>, sn: int)
    ensures |CountSkipped(m, buf, sn)| == |buf|
    ensures forall k :: 0 <= k < |buf| ==>
              CountSkipped(m, buf, sn)[k].sn == buf[k].sn && ChunkOf(CountSkipped(m, buf, sn)[k]) == ChunkOf(buf[k])
  {
    if buf == [] || Diff(m, sn, buf[0].sn) <= 0 {
    } else {
      CountSkippedKeeps(m, buf[1..], sn);
    }
  }

  lemma {:induction false} InsertSortedAt(buf: seq<Segment>, seg: Segment) returns (i: int)
    ensures 0 <= i <= |buf|
    ensures var r := InsertSorted(Ideal, buf, seg);
            || (r == buf && i < |buf| && buf[i].sn == seg.sn)
            || (r == buf[..i] + [seg] + buf[i..] && (i > 0 ==> buf[i - 1].sn < seg.sn)
                && (i < |buf| ==> seg.sn < buf[i].sn))
  {
    if buf == [] {
      i := 0;
    } else {
      var n := |buf| - 1;
      if buf[n].sn == seg.sn {
        i := n;
      } else if seg.sn > buf[n].sn {
        i := |buf|;
        assert buf[..i] + [seg] + buf[i..] == buf + [seg];
      } else {
        i := InsertSortedAt(buf[..n], seg);
        assert buf == buf[..n] + [buf[n]];
        PlaceBeforeLast(buf[..n], seg, buf[n], i);
      }
    }
  }

  lemma {:induction false} PromoteAt(rcv: int, queue: seq<Segment>, buf: seq<Segment>, window: int) returns (k: int)
    ensures 0 <= k <= |buf|
    ensures Promote(Ideal, rcv, queue, buf, window) == Promoted(rcv + k, queue + buf[..k], buf[k..])
    ensures forall i :: 0 <= i < k ==> buf[i].sn == rcv + i
    decreases |buf|
  {
    k := 0;
    if |buf| == 0 || buf[0].sn != rcv || |queue| >= window {
      assert queue + buf[..0] == queue;
    } else {
      var tail := buf[1..];
      var j := PromoteAt(rcv + 1, queue + [buf[0]], tail, window);
      k := j + 1;
      assert (queue + [buf[0]]) + tail[..j] == queue + buf[..k];
      assert tail[j..] == buf[k..];
      forall i | 0 <= i < k ensures buf[i].sn == rcv + i {
        if i > 0 { assert tail[i - 1].sn == rcv + 1 + (i - 1); }
      }
    }
  }

  /** A part of a sorted, faithful buffer is one too. */
  lemma PartSorted(buf: seq<Segment>, i: int, j: int, lo: int, hi: int)
    requires 0 <= i <= j <= |buf| && Sorted(buf) && Within(buf, lo, hi)
    ensures Sorted(buf[..i] + buf[j..]) && Within(buf[..i] + buf[j..], lo, hi)
  {
    var r := buf[..i] + buf[j..];
    assert forall k :: 0 <= k < |r| ==> r[k] == buf[if k < i then k else k + (j - i)];
  }

  lemma PartFaithful(buf: seq<Segment>, i: int, j: int, log: seq<Chunk>)
    requires 0 <= i <= j <= |buf| && Faithful(buf, log)
    ensures Faithful(buf[..i] + buf[j..], log)
  {
  }

  lemma PartHolds(buf: seq<Segment>, i: int, j: int, n: int)
    requires 0 <= i <= j <= |buf| && Holds(buf, n) && forall k :: i <= k < j ==> buf[k].sn != n
    ensures Holds(buf[..i] + buf[j..], n)
  {
    var k :| 0 <= k < |buf| && buf[k].sn == n;
    assert (buf[..i] + buf[j..])[if k < i then k else k - (j - i)] == buf[k];
  }

  // ---------------------------------------------------------------- the sender's side of an item

  function FirstOr(buf: seq<Segment>, nxt: int): int { if |buf| > 0 then buf[0].sn else nxt }

  /** Dropping segments i..j of the send buffer leaves it in order, its first number no smaller. */
  lemma DropKeeps(buf: seq<Segment>, una: int, nxt: int, log: seq<Chunk>, i: int, j: int)
    requires SendBufInv(buf, una, nxt, log) && una <= nxt && 0 <= i <= j <= |buf|
    ensures var r := buf[..i] + buf[j..];
            SendBufInv(r, FirstOr(r, nxt), nxt, log) && una <= FirstOr(r, nxt) <= nxt
  {
    PartSorted(buf, i, j, una, nxt);
    PartFaithful(buf, i, j, log);
    var r := buf[..i] + buf[j..];
    assert forall k :: 0 < k < |r| ==> r[0].sn < r[k].sn;
  }

  lemma TakeHeaderKeeps(st: State, log: seq<Chunk>, it: Item)
    requires SenderInv(st, log)
    ensures SenderInv(TakeHeader(Ideal, st, it), log)
    ensures forall n :: Holds(st.sendBuf, n) && n >= it.una ==> Holds(TakeHeader(Ideal, st, it).sendBuf, n)
  {
    var buf := st.sendBuf;
    var i := DropBeforeAt(buf, it.una);
    assert buf[..0] + buf[i..] == buf[i..];
    DropKeeps(buf, st.una, st.nxt, log, 0, i);
    forall n | Holds(buf, n) && n >= it.una ensures Holds(buf[i..], n) {
      PartHolds(buf, 0, i, n);
    }
  }

  lemma TakeAckKeeps(st: State, log: seq<Chunk>, sn: int)
    requires SenderInv(st, log)
    ensures SenderInv(Refresh(TakeAck(Ideal, st, sn)), log)
    ensures forall n :: Holds(st.sendBuf, n) && n != sn ==> Holds(Refresh(TakeAck(Ideal, st, sn)).sendBuf, n)
  {
    var buf := st.sendBuf;
    var i := DropAckedAt(buf, sn);
    var j := if InFlight(Ideal, st, sn) && i < |buf| then i + 1 else i;
    assert buf[..i] + buf[i..] == buf;
    DropKeeps(buf, st.una, st.nxt, log, i, j);
    forall n | Holds(buf, n) && n != sn ensures Holds(buf[..i] + buf[j..], n) {
      PartHolds(buf, i, j, n);
    }
  }

  lemma TakeFastAckKeeps(st: State, log: seq<Chunk>, sn: int)
    requires SenderInv(st, log)
    ensures SenderInv(TakeFastAck(Ideal, st, sn), log)
    ensures forall n :: Holds(st.sendBuf, n) ==> Holds(TakeFastAck(Ideal, st, sn).sendBuf, n)
  {
    CountSkippedKeeps(Ideal, st.sendBuf, sn);
    var b := TakeFastAck(Ideal, st, sn).sendBuf;
    assert forall k :: 0 <= k < |b| ==> b[k].sn == st.sendBuf[k].sn && ChunkOf(b[k]) == ChunkOf(st.sendBuf[k]);
    forall n | Holds(st.sendBuf, n) ensures Holds(b, n) {
      var k :| 0 <= k < |st.sendBuf| && st.sendBuf[k].sn == n;
      assert b[k].sn == n;
    }
  }

  // ---------------------------------------------------------------- the receiver's side of an item

  /** Appending to the receive queue the chunks that come next. */
  lemma QueueAppend(rcv: int, queue: seq<Segment>, more: seq<Segment>, log: seq<Chunk>, delivered: int)
    requires QueueInv(rcv, queue, log, delivered) && rcv + |more| <= |log|
    requires Chunks(more) == log[rcv..rcv + |more|]
    ensures QueueInv(rcv + |more|, queue + more, log, delivered)
  {
    assert Chunks(queue + more) == Chunks(queue) + Chunks(more);
    assert log[delivered..rcv + |more|] == log[delivered..rcv] + log[rcv..rcv + |more|];
  }

  lemma PromotionGrows(rcv: int, buf: seq<Segment>, k: int)
    requires 0 <= k <= |buf| && 0 <= rcv
    requires forall i :: 0 <= i < k ==> buf[i].sn == rcv + i
    ensures Grows(rcv, buf, rcv + k, buf[k..])
  {
    forall n | Received(rcv, buf, n) ensures Received(rcv + k, buf[k..], n) {
      if !(0 <= n < rcv) {
        var i :| 0 <= i < |buf| && buf[i].sn == n;
        if i >= k { assert buf[k..][i - k].sn == n; }
      }
    }
  }

  lemma PromotionWithin(rcv: int, buf: seq<Segment>, k: int, hi: int)
    requires Sorted(buf) && Within(buf, rcv, hi) && 0 <= k <= |buf|
    requires forall i :: 0 <= i < k ==> buf[i].sn == rcv + i
    ensures Within(buf[k..], rcv + k, hi) && Sorted(buf[k..])
    ensures k > 0 ==> rcv + k <= hi
  {
    if k > 0 { assert buf[k - 1].sn == rcv + (k - 1); }
    forall i | 0 <= i < |buf[k..]| ensures rcv + k <= buf[k..][i].sn < hi {
      assert buf[k..][i] == buf[k + i];
      if k > 0 { assert buf[k - 1].sn < buf[k + i].sn; }
    }
  }

  lemma {:induction false} PromotionChunks(rcv: int, buf: seq<Segment>, k: int, log: seq<Chunk>)
    requires Faithful(buf, log) && 0 <= k <= |buf| && 0 <= rcv && rcv + k <= |log|
    requires forall i :: 0 <= i < k ==> buf[i].sn == rcv + i
    ensures Chunks(buf[..k]) == log[rcv..rcv + k]
  {
    if k > 0 {
      PromotionChunks(rcv, buf, k - 1, log);
      assert buf[..k] == buf[..k - 1] + [buf[k - 1]];
      assert buf[k - 1].sn == rcv + (k - 1);
      assert log[rcv..rcv + k] == log[rcv..rcv + (k - 1)] + [log[rcv + (k - 1)]];
    }
  }

  lemma SuffixFaithful(buf: seq<Segment>, k: int, log: seq<Chunk>)
    requires Faithful(buf, log) && 0 <= k <= |buf|
    ensures Faithful(buf[k..], log)
  {
  }

  lemma PromotionOrders(rcv: int, buf: seq<Segment>, window: int, log: seq<Chunk>, k: int)
    requires ReceiveBufInv(rcv, buf, window, log) && 0 <= k <= |buf| && 0 <= rcv <= |log|
    requires forall i :: 0 <= i < k ==> buf[i].sn == rcv + i
    ensures ReceiveBufInv(rcv + k, buf[k..], window, log)
    ensures rcv + k <= |log| && Chunks(buf[..k]) == log[rcv..rcv + k]
  {
    PromotionWithin(rcv, buf, k, Min(rcv + window, |log|));
    PromotionChunks(rcv, buf, k, log);
    SuffixFaithful(buf, k, log);
    WithinWider(buf[k..], rcv + k, Min(rcv + window, |log|), Min(rcv + k + window, |log|));
  }

  lemma WithinWider(buf: seq<Segment>, lo: int, hi: int, hi1: int)
    requires Within(buf, lo, hi) && hi <= hi1
    ensures Within(buf, lo, hi1)
  {
  }

  lemma PromoteKeeps(st: State, log: seq<Chunk>, delivered: int)
    requires ReceiverInv(st, log, delivered)
    ensures var p := Promote(Ideal, st.rcv, st.receiveQueue, st.receiveBuf, st.cfg.receiveWindow);
            && ReceiverInv(WithPromoted(st, p), log, delivered)
            && Grows(st.rcv, st.receiveBuf, p.rcv, p.buf)
            && st.rcv <= p.rcv
  {
    var buf := st.receiveBuf;
    var k := PromoteAt(st.rcv, st.receiveQueue, buf, st.cfg.receiveWindow);
    PromotionGrows(st.rcv, buf, k);
    PromotionOrders(st.rcv, buf, st.cfg.receiveWindow, log, k);
    QueueAppend(st.rcv, st.receiveQueue, buf[..k], log, delivered);
    AcksGrow(st.rcv, buf, st.rcv + k, buf[k..], st.acks);
  }

  lemma AcksGrow(rcv: int, buf: seq<Segment>, rcv1: int, buf1: seq<Segment>, acks: seq<Ack>)
    requires AcksInv(rcv, buf, acks) && Grows(rcv, buf, rcv1, buf1)
    ensures AcksInv(rcv1, buf1, acks)
  {
  }

  /** A buffer with a new segment in its place. */
  lemma PlaceSorted(buf: seq<Segment>, i: int, seg: Segment, lo: int, hi: int)
    requires Sorted(buf) && Within(buf, lo, hi) && lo <= seg.sn < hi
    requires 0 <= i <= |buf| && (i > 0 ==> buf[i - 1].sn < seg.sn) && (i < |buf| ==> seg.sn < buf[i].sn)
    ensures Sorted(buf[..i] + [seg] + buf[i..]) && Within(buf[..i] + [seg] + buf[i..], lo, hi)
  {
    var r := buf[..i] + [seg] + buf[i..];
    assert forall k :: 0 <= k < |buf| ==> if k < i then buf[k].sn < seg.sn else seg.sn < buf[k].sn;
    forall j, k | 0 <= j < k < |r| ensures r[j].sn < r[k].sn {
      assert r[j] == if j < i then buf[j] else if j == i then seg else buf[j - 1];
      assert r[k] == if k < i then buf[k] else if k == i then seg else buf[k - 1];
    }
    forall k | 0 <= k < |r| ensures lo <= r[k].sn < hi {
      assert r[k] == if k < i then buf[k] else if k == i then seg else buf[k - 1];
    }
  }

  lemma PlaceFaithful(buf: seq<Segment>, i: int, seg: Segment, log: seq<Chunk>)
    requires Faithful(buf, log) && 0 <= i <= |buf| && 0 <= seg.sn < |log| && ChunkOf(seg) == log[seg.sn]
    ensures Faithful(buf[..i] + [seg] + buf[i..], log)
  {
  }

  lemma PlaceGrows(rcv: int, buf: seq<Segment>, i: int, seg: Segment)
    requires 0 <= i <= |buf|
    ensures Grows(rcv, buf, rcv, buf[..i] + [seg] + buf[i..])
    ensures Received(rcv, buf[..i] + [seg] + buf[i..], seg.sn)
  {
    var r := buf[..i] + [seg] + buf[i..];
    assert r[i].sn == seg.sn;
    forall n | Received(rcv, buf, n) ensures Received(rcv, r, n) {
      if !(0 <= n < rcv) {
        var k :| 0 <= k < |buf| && buf[k].sn == n;
        assert r[if k < i then k else k + 1].sn == n;
      }
    }
  }

  lemma InsertSortedKeeps(rcv: int, buf: seq<Segment>, seg: Segment, window: int, log: seq<Chunk>)
    requires ReceiveBufInv(rcv, buf, window, log)
    requires rcv <= seg.sn < Min(rcv + window, |log|) && 0 <= seg.sn && ChunkOf(seg) == log[seg.sn]
    ensures var buf1 := InsertSorted(Ideal, buf, seg);
            ReceiveBufInv(rcv, buf1, window, log) && Grows(rcv, buf, rcv, buf1) && Received(rcv, buf1, seg.sn)
  {
    var i := InsertSortedAt(buf, seg);
    if InsertSorted(Ideal, buf, seg) != buf {
      PlaceSorted(buf, i, seg, rcv, Min(rcv + window, |log|));
      PlaceFaithful(buf, i, seg, log);
      PlaceGrows(rcv, buf, i, seg);
    }
  }

  lemma InsertKeeps(st: State, log: seq<Chunk>, delivered: int, sn: int, frg: int, payload: seq<byte>)
    requires ReceiverInv(st, log, delivered)
    requires st.rcv <= sn < Min(st.rcv + st.cfg.receiveWindow, |log|) && log[sn] == Chunk(frg, payload)
    ensures var st1 := Insert(Ideal, st, sn, frg, payload);
            && ReceiverInv(st1, log, delivered)
            && Grows(st.rcv, st.receiveBuf, st1.rcv, st1.receiveBuf)
            && Received(st1.rcv, st1.receiveBuf, sn)
            && st.rcv <= st1.rcv
  {
    var seg := DataSegment(sn, frg, payload);
    var buf := st.receiveBuf;
    if sn == st.rcv && |buf| == 0 && |st.receiveQueue| < st.cfg.receiveWindow {
      QueueAppend(st.rcv, st.receiveQueue, [seg], log, delivered);
      AcksGrow(st.rcv, buf, st.rcv + 1, buf, st.acks);
    } else {
      InsertSortedKeeps(st.rcv, buf, seg, st.cfg.receiveWindow, log);
      var buf1 := InsertSorted(Ideal, buf, seg);
      if buf1 != buf {
        AcksGrow(st.rcv, buf, st.rcv, buf1, st.acks);
        PromoteKeeps(st.(receiveBuf := buf1), log, delivered);
      }
    }
  }

  lemma TakePushKeeps(st: State, log: seq<Chunk>, delivered: int, it: Item)
    requires ReceiverInv(st, log, delivered) && it.cmd == CMD_PUSH && DataOk(it, log)
    ensures var st1 := TakePush(Ideal, st, it);
            && ReceiverInv(st1, log, delivered)
            && Grows(st.rcv, st.receiveBuf, st1.rcv, st1.receiveBuf)
            && st.rcv <= st1.rcv
  {
    var acks := st.acks + [Ack(it.sn, it.ts)];
    if it.sn - (st.rcv + st.cfg.receiveWindow) < 0 {
      if it.sn >= st.rcv {
        InsertKeeps(st, log, delivered, it.sn, it.frg, it.payload);
        var st2 := Insert(Ideal, st, it.sn, it.frg, it.payload);
        InsertFrame(st, acks, it.sn, it.frg, it.payload);
        AcksGrow(st.rcv, st.receiveBuf, st2.rcv, st2.receiveBuf, st.acks);
      }
    }
  }

  lemma InsertFrame(st: State, acks: seq<Ack>, sn: int, frg: int, payload: seq<byte>)
    ensures Insert(Ideal, st.(acks := acks), sn, frg, payload) == Insert(Ideal, st, sn, frg, payload).(acks := acks)
    ensures Insert(Ideal, st, sn, frg, payload).acks == st.acks
  {
  }

  // ---------------------------------------------------------------- items

  ghost predicate SameReceiver(st: State, st1: State) {
    && st1.cfg == st.cfg && st1.rcv == st.rcv && st1.receiveQueue == st.receiveQueue
    && st1.receiveBuf == st.receiveBuf && st1.acks == st.acks
  }

  ghost predicate SameSender(st: State, st1: State) {
    && st1.cfg == st.cfg && st1.una == st.una && st1.nxt == st.nxt
    && st1.sendQueue == st.sendQueue && st1.sendBuf == st.sendBuf
  }

  lemma InsertSender(m: Mode, st: State, sn: int, frg: int, payload: seq<byte>)
    ensures SameSender(st, Insert(m, st, sn, frg, payload))
  {
  }

  lemma TakePushSender(m: Mode, st: State, it: Item)
    ensures SameSender(st, TakePush(m, st, it))
  {
    InsertSender(m, st.(acks := st.acks + [Ack(it.sn, it.ts)]), it.sn, it.frg, it.payload);
  }

  lemma TakeHeaderFrame(m: Mode, st: State, it: Item)
    ensures SameReceiver(st, TakeHeader(m, st, it))
    ensures TakeHeader(m, st, it).sendQueue == st.sendQueue && TakeHeader(m, st, it).nxt == st.nxt
  {
  }

  lemma TakeAckFrame(m: Mode, st: State, sn: int)
    ensures var st1 := TakeFastAck(m, Refresh(TakeAck(m, st, sn)), sn);
            SameReceiver(st, st1) && st1.sendQueue == st.sendQueue && st1.nxt == st.nxt
  {
  }

  lemma TakeAckItemKeeps(st: State, log: seq<Chunk>, sn: int)
    requires SenderInv(st, log)
    ensures var st1 := TakeFastAck(Ideal, Refresh(TakeAck(Ideal, st, sn)), sn);
            SenderInv(st1, log) && forall n :: Holds(st.sendBuf, n) && n != sn ==> Holds(st1.sendBuf, n)
  {
    TakeAckKeeps(st, log, sn);
    TakeFastAckKeeps(Refresh(TakeAck(Ideal, st, sn)), log, sn);
  }

  /** Everything older than `una`, and the number `acked`, may have left the send buffer; nothing else. */
  ghost predicate Retains(buf: seq<Segment>, buf1: seq<Segment>, it: Item) {
    forall n :: Holds(buf, n) && n >= it.una && !(it.cmd == CMD_ACK && n == it.sn) ==> Holds(buf1, n)
  }

  /** An item leaves both sides in order, drops only what it acknowledges, and gives up nothing received. */
  lemma TakeItemKeeps(st: State, log: seq<Chunk>, peerLog: seq<Chunk>, delivered: int, it: Item)
    requires SenderInv(st, log) && ReceiverInv(st, peerLog, delivered) && DataOk(it, peerLog)
    ensures var st1 := TakeItem(Ideal, st, it);
            && SenderInv(st1, log) && ReceiverInv(st1, peerLog, delivered)
            && st1.sendQueue == st.sendQueue && st1.cfg == st.cfg && st1.nxt == st.nxt
            && Retains(st.sendBuf, st1.sendBuf, it)
            && Grows(st.rcv, st.receiveBuf, st1.rcv, st1.receiveBuf)
            && st.rcv <= st1.rcv
  {
    TakeHeaderKeeps(st, log, it);
    var s1 := TakeHeader(Ideal, st, it);
    TakeHeaderFrame(Ideal, st, it);
    if it.cmd == CMD_ACK {
      TakeAckFrame(Ideal, s1, it.sn);
      TakeAckItemKeeps(s1, log, it.sn);
    } else if it.cmd == CMD_PUSH {
      TakePushSender(Ideal, s1, it);
      TakePushKeeps(s1, peerLog, delivered, it);
    }
  }

  // ---------------------------------------------------------------- datagrams

  /** Every number assigned so far is still held by the sender or has been received. */
  ghost predicate NoLoss(buf: seq<Segment>, nxt: int, peerRcv: int, peerBuf: seq<Segment>) {
    forall n :: 0 <= n < nxt ==> Holds(buf, n) || Received(peerRcv, peerBuf, n)
  }

  /** A header acknowledges only what its sender has received. */
  ghost predicate AcksOk(it: Item, rcv: int, buf: seq<Segment>) {
    it.una <= rcv && (it.cmd == CMD_ACK ==> Received(rcv, buf, it.sn))
  }

  ghost predicate AllDataOk(items: seq<Item>, log: seq<Chunk>) {
    forall k :: 0 <= k < |items| ==> DataOk(items[k], log)
  }

  ghost predicate AllAcksOk(items: seq<Item>, rcv: int, buf: seq<Segment>) {
    forall k :: 0 <= k < |items| ==> AcksOk(items[k], rcv, buf)
  }

  lemma TakeItemLosesNothing(st: State, st1: State, it: Item, peerRcv: int, peerBuf: seq<Segment>)
    requires NoLoss(st.sendBuf, st.nxt, peerRcv, peerBuf) && AcksOk(it, peerRcv, peerBuf)
    requires Retains(st.sendBuf, st1.sendBuf, it)
    ensures NoLoss(st1.sendBuf, st.nxt, peerRcv, peerBuf)
  {
    forall n | 0 <= n < st.nxt ensures Holds(st1.sendBuf, n) || Received(peerRcv, peerBuf, n) {
      if !Received(peerRcv, peerBuf, n) {
        assert Holds(st.sendBuf, n);
      }
    }
  }

  /** A whole datagram from the peer keeps both sides in order and loses nothing. */
  lemma {:induction false} TakeItemsKeeps(st: State, log: seq<Chunk>, peerLog: seq<Chunk>, delivered: int,
                                          items: seq<Item>, peerRcv: int, peerBuf: seq<Segment>)
    requires SenderInv(st, log) && ReceiverInv(st, peerLog, delivered)
    requires AllDataOk(items, peerLog) && AllAcksOk(items, peerRcv, peerBuf)
    requires NoLoss(st.sendBuf, st.nxt, peerRcv, peerBuf)
    ensures var st1 := TakeItems(Ideal, st, items);
            && SenderInv(st1, log) && ReceiverInv(st1, peerLog, delivered)
            && st1.sendQueue == st.sendQueue && st1.cfg == st.cfg && st1.nxt == st.nxt
            && NoLoss(st1.sendBuf, st1.nxt, peerRcv, peerBuf)
            && Grows(st.rcv, st.receiveBuf, st1.rcv, st1.receiveBuf)
            && st.rcv <= st1.rcv
    decreases |items|
  {
    if items != [] {
      var it, st1 := items[0], TakeItem(Ideal, st, items[0]);
      TakeItemKeeps(st, log, peerLog, delivered, it);
      TakeItemLosesNothing(st, st1, it, peerRcv, peerBuf);
      TakeItemsKeeps(st1, log, peerLog, delivered, items[1..], peerRcv, peerBuf);
    }
  }

  lemma GrowFrame(st: State)
    ensures SameSender(st, Grow(st)) && SameReceiver(st, Grow(st))
  {
  }

  lemma UpdateRttFrame(st: State, rtt: int)
    ensures SameSender(st, UpdateRtt(st, rtt)) && SameReceiver(st, UpdateRtt(st, rtt))
  {
  }

  lemma FinishFrame(m: Mode, st: State, prevUna: int, latest: Option<int>, now: int)
    ensures SameSender(st, FinishInput(m, st, prevUna, latest, now))
    ensures SameReceiver(st, FinishInput(m, st, prevUna, latest, now))
  {
    var s1 := st;
    if latest.Some? && TimeDiff(now, latest.value) >= 0 {
      s1 := UpdateRtt(st, TimeDiff(now, latest.value));
      UpdateRttFrame(st, TimeDiff(now, latest.value));
    }
    GrowFrame(s1);
  }

  // ---------------------------------------------------------------- flush

  /** Segments of the queue as the send buffer takes them, numbered from `from`. */
  function Numbered(segs: seq<Segment>, from: int): seq<Segment> {
    seq(|segs|, i requires 0 <= i < |segs| => segs[i].(sn := from + i))
  }

  function Admitted(st: State, k: int): State
    requires 0 <= k <= |st.sendQueue|
  {
    st.(sendQueue := st.sendQueue[k..], sendBuf := st.sendBuf + Numbered(st.sendQueue[..k], st.nxt), nxt := st.nxt + k)
  }

  lemma {:induction false} AdmitAt(st: State, limit: int) returns (k: int)
    ensures 0 <= k <= |st.sendQueue| && (k > 0 ==> st.nxt + k <= st.una + limit)
    ensures Admit(Ideal, st, limit) == Admitted(st, k)
    decreases |st.sendQueue|
  {
    if CanAdmit(Ideal, st, limit) {
      var j := AdmitAt(AdmitOne(Ideal, st), limit);
      k := j + 1;
      AdmittedMore(st, j);
    } else {
      k := 0;
      assert Numbered(st.sendQueue[..0], st.nxt) == [];
    }
  }

  lemma AdmittedMore(st: State, j: int)
    requires 0 <= j < |st.sendQueue|
    ensures Admitted(AdmitOne(Ideal, st), j) == Admitted(st, j + 1)
  {
    var q, first := st.sendQueue, st.sendQueue[0].(sn := st.nxt);
    assert q[1..][j..] == q[j + 1..];
    assert Numbered(q[..j + 1], st.nxt) == [first] + Numbered(q[1..][..j], st.nxt + 1);
    Assoc(st.sendBuf, [first], Numbered(q[1..][..j], st.nxt + 1));
  }

  lemma NumberedKeeps(buf: seq<Segment>, una: int, nxt: int, log: seq<Chunk>, segs: seq<Segment>)
    requires SendBufInv(buf, una, nxt, log) && |log| == nxt && una <= nxt
    ensures SendBufInv(buf + Numbered(segs, nxt), una, nxt + |segs|, log + Chunks(segs))
  {
    var b, l := buf + Numbered(segs, nxt), log + Chunks(segs);
    assert forall k :: 0 <= k < |b| ==>
        if k < |buf| then b[k] == buf[k] else b[k].sn == nxt + (k - |buf|) && ChunkOf(b[k]) == l[b[k].sn];
  }

  lemma NumberedHolds(buf: seq<Segment>, nxt: int, segs: seq<Segment>, peerRcv: int, peerBuf: seq<Segment>)
    requires NoLoss(buf, nxt, peerRcv, peerBuf)
    ensures NoLoss(buf + Numbered(segs, nxt), nxt + |segs|, peerRcv, peerBuf)
  {
    var b := buf + Numbered(segs, nxt);
    forall n | 0 <= n < nxt + |segs| ensures Holds(b, n) || Received(peerRcv, peerBuf, n) {
      if n >= nxt { assert b[|buf| + (n - nxt)].sn == n; }
      else if Holds(buf, n) {
        var k :| 0 <= k < |buf| && buf[k].sn == n;
        assert b[k].sn == n;
      }
    }
  }

  lemma {:induction false} ResendAllKeeps(st: State, buf: seq<Segment>, now: int)
    ensures |ResendAll(st, buf, now)| == |buf|
    ensures forall k :: 0 <= k < |buf| ==>
              ResendAll(st, buf, now)[k].sn == buf[k].sn && ChunkOf(ResendAll(st, buf, now)[k]) == ChunkOf(buf[k])
  {
    if buf != [] {
      ResendAllKeeps(st, buf[1..], now);
    }
  }

  /** A buffer whose segments keep their numbers and chunks keeps everything that matters. */
  lemma SameNumbersKeep(buf: seq<Segment>, b: seq<Segment>, una: int, nxt: int, log: seq<Chunk>)
    requires SendBufInv(buf, una, nxt, log) && |b| == |buf|
    requires forall k :: 0 <= k < |buf| ==> b[k].sn == buf[k].sn && ChunkOf(b[k]) == ChunkOf(buf[k])
    ensures SendBufInv(b, una, nxt, log)
    ensures forall n :: Holds(buf, n) ==> Holds(b, n)
  {
    forall n | Holds(buf, n) ensures Holds(b, n) {
      var k :| 0 <= k < |buf| && buf[k].sn == n;
      assert b[k].sn == n;
    }
  }

  lemma {:induction false} AckItemsOk(st: State, acks: seq<Ack>, log: seq<Chunk>)
    requires AcksInv(st.rcv, st.receiveBuf, acks)
    ensures AllAcksOk(AckItems(Ideal, st, acks), st.rcv, st.receiveBuf) && AllDataOk(AckItems(Ideal, st, acks), log)
    decreases |acks|
  {
    if acks != [] {
      assert Received(st.rcv, st.receiveBuf, acks[0].sn);
      AckItemsOk(st, acks[1..], log);
    }
  }

  lemma {:induction false} PushItemsOk(st: State, buf: seq<Segment>, now: int, log: seq<Chunk>)
    requires Faithful(buf, log)
    ensures AllDataOk(PushItems(st, buf, now), log) && AllAcksOk(PushItems(st, buf, now), st.rcv, st.receiveBuf)
  {
    if buf != [] {
      assert Faithful(buf[1..], log);
      PushItemsOk(st, buf[1..], now, log);
    }
  }

  lemma PreparedIs(m: Mode, st: State, now: int)
    ensures SameReceiver(st, Prepared(m, st, now).(acks := st.acks))
    ensures Prepared(m, st, now).acks == []
  {
    AdmitFrame(m, Probe(st.(acks := []), now).(ask := false, tell := false), SendLimit(Probe(st.(acks := []), now)));
  }

  lemma {:induction false} AdmitFrame(m: Mode, st: State, limit: int)
    ensures SameReceiver(st, Admit(m, st, limit)) && Admit(m, st, limit).una == st.una
    decreases |st.sendQueue|
  {
    if CanAdmit(m, st, limit) {
      AdmitFrame(m, AdmitOne(m, st), limit);
    }
  }

  lemma ProbeFrame(st: State, now: int)
    ensures SameSender(st, Probe(st, now)) && SameReceiver(st, Probe(st, now))
    ensures Probe(st, now).remoteWindow == st.remoteWindow && Probe(st, now).cwnd == st.cwnd
  {
  }

  /** The sender's side of a flush: `k` queued segments get the next numbers; every other field that matters stays. */
  lemma PreparedKeeps(st: State, log: seq<Chunk>, now: int) returns (k: int)
    requires SenderInv(st, log)
    ensures 0 <= k <= |st.sendQueue|
    ensures var p := Prepared(Ideal, st, now);
            && p.cfg == st.cfg && p.una == st.una && p.nxt == st.nxt + k && p.sendQueue == st.sendQueue[k..]
            && p.sendBuf == st.sendBuf + Numbered(st.sendQueue[..k], st.nxt)
            && SenderInv(p, log + Chunks(st.sendQueue[..k]))
  {
    var s1 := Probe(st.(acks := []), now);
    ProbeFrame(st.(acks := []), now);
    var s2 := s1.(ask := false, tell := false);
    k := AdmitAt(s2, SendLimit(s1));
    assert Prepared(Ideal, st, now) == Admitted(s2, k);
    assert SendLimit(s1) <= st.cfg.sendWindow;
    NumberedKeeps(st.sendBuf, st.una, st.nxt, log, st.sendQueue[..k]);
  }

  lemma ShrinkFrame(st: State, limit: int, skipped: bool, lost: bool)
    ensures SameSender(st, Shrink(st, limit, skipped, lost)) && SameReceiver(st, Shrink(st, limit, skipped, lost))
  {
  }

  /** A full flush: the sender stays in order with the new numbers logged, and nothing is lost. */
  lemma FullFlushKeeps(st: State, log: seq<Chunk>, now: int, peerRcv: int, peerBuf: seq<Segment>) returns (k: int)
    requires SenderInv(st, log) && NoLoss(st.sendBuf, st.nxt, peerRcv, peerBuf)
    requires HasWork(st) || st.remoteWindow <= 0
    ensures 0 <= k <= |st.sendQueue|
    ensures var st1 := Flush(Ideal, st, now, false);
            && SenderInv(st1, log + Chunks(st.sendQueue[..k]))
            && NoLoss(st1.sendBuf, st1.nxt, peerRcv, peerBuf)
            && st1.sendQueue == st.sendQueue[k..] && st1.nxt == st.nxt + k
            && Faithful(Prepared(Ideal, st, now).sendBuf, log + Chunks(st.sendQueue[..k]))
            && SameReceiver(st, st1.(acks := st.acks)) && st1.acks == []
  {
    k := PreparedKeeps(st, log, now);
    PreparedIs(Ideal, st, now);
    var p := Prepared(Ideal, st, now);
    var log1 := log + Chunks(st.sendQueue[..k]);
    NumberedHolds(st.sendBuf, st.nxt, st.sendQueue[..k], peerRcv, peerBuf);
    var b := ResendAll(p, p.sendBuf, now);
    ResendAllKeeps(p, p.sendBuf, now);
    SameNumbersKeep(p.sendBuf, b, p.una, p.nxt, log1);
    var s2 := p.(sendBuf := b, dead := p.dead || AnyDead(p, p.sendBuf, now));
    ShrinkFrame(s2, SendLimit(st), AnySkipped(st.cfg, p.sendBuf, now), AnyLost(p.sendBuf, now));
  }

  /** What a flush sends is data it has logged and acknowledgements of what it has received. */
  lemma FlushItemsOk(st: State, log: seq<Chunk>, now: int, ackOnly: bool)
    requires AcksInv(st.rcv, st.receiveBuf, st.acks)
    requires !ackOnly ==> Faithful(Prepared(Ideal, st, now).sendBuf, log)
    ensures AllDataOk(FlushItems(Ideal, st, now, ackOnly), log)
    ensures AllAcksOk(FlushItems(Ideal, st, now, ackOnly), st.rcv, st.receiveBuf)
  {
    AckItemsOk(st, st.acks, log);
    if !ackOnly {
      PreparedIs(Ideal, st, now);
      var p := Prepared(Ideal, st, now);
      PushItemsOk(p, p.sendBuf, now, log);
      assert Probe(st, now).rcv == st.rcv;
    }
  }
}
