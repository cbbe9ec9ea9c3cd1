/**
 32-bit sequence numbers do what unbounded ones would.

 `Trunc` is the state a program with uint32 counters has when the ideal one has the given state. Each operation on
 the truncated state is shown to be the truncation of the ideal operation, as long as the counters involved are less
 than 2^31 apart; `Fresh` says so of a datagram.
 */
module ArqWrap {
  import opened Wrappers
  import opened Words
  import opened Seqs
  import opened ArqModel
  import opened ArqIdeal

  function TSeg(seg: Segment): Segment { seg.(sn := U32(seg.sn)) }

  function TBuf(buf: seq<Segment>): seq<Segment> { seq(|buf|, i requires 0 <= i < |buf| => TSeg(buf[i])) }

  function TAcks(acks: seq<Ack>): seq<Ack> {
    seq(|acks|, i requires 0 <= i < |acks| => acks[i].(sn := U32(acks[i].sn)))
  }

  function TItem(it: Item): Item { it.(sn := U32(it.sn), una := U32(it.una)) }

  function TItems(items: seq<Item>): seq<Item> { seq(|items|, i requires 0 <= i < |items| => TItem(items[i])) }

  function Trunc(st: State): State {
    st.(una := U32(st.una), nxt := U32(st.nxt), rcv := U32(st.rcv),
        sendBuf := TBuf(st.sendBuf), receiveBuf := TBuf(st.receiveBuf), receiveQueue := TBuf(st.receiveQueue),
        acks := TAcks(st.acks))
  }

  ghost predicate Close(a: int, b: int) { -TWO31 <= a - b < TWO31 }

  ghost predicate AllClose(a: int, buf: seq<Segment>) { forall k :: 0 <= k < |buf| ==> Close(a, buf[k].sn) }

  /** Close counters have the same distance in both modes, and are equal in both or in neither. */
  lemma DiffWrap(a: int, b: int)
    requires Close(a, b)
    ensures Diff(Wire, U32(a), U32(b)) == Diff(Ideal, a, b)
    ensures U32(a) == U32(b) <==> a == b
  {
    TimeDiffExact(a, b);
  }

  lemma NormWrap(a: int, b: int)
    ensures Norm(Wire, U32(a) + b) == U32(a + b)
  {
    U32Absorbs(a, b);
  }

  lemma TBufParts(buf: seq<Segment>, i: int)
    requires 0 <= i <= |buf|
    ensures TBuf(buf)[i..] == TBuf(buf[i..]) && TBuf(buf)[..i] == TBuf(buf[..i])
  {
  }

  lemma TBufConcat(a: seq<Segment>, b: seq<Segment>)
    ensures TBuf(a + b) == TBuf(a) + TBuf(b)
  {
  }

  // ---------------------------------------------------------------- buffers

  lemma {:induction false} DropBeforeWrap(buf: seq<Segment>, una: int)
    requires AllClose(una, buf)
    ensures DropBefore(Wire, TBuf(buf), U32(una)) == TBuf(DropBefore(Ideal, buf, una))
  {
    if buf != [] {
      DiffWrap(una, buf[0].sn);
      TBufParts(buf, 1);
      DropBeforeWrap(buf[1..], una);
    }
  }

  lemma {:induction false} DropAckedWrap(buf: seq<Segment>, sn: int)
    requires AllClose(sn, buf)
    ensures DropAcked(Wire, TBuf(buf), U32(sn)) == TBuf(DropAcked(Ideal, buf, sn))
  {
    if buf != [] {
      DiffWrap(sn, buf[0].sn);
      TBufParts(buf, 1);
      DropAckedWrap(buf[1..], sn);
      TBufConcat([buf[0]], DropAcked(Ideal, buf[1..], sn));
    }
  }

  lemma {:induction false} CountSkippedWrap(buf: seq<Segment>, sn: int, limit: int)
    requires AllClose(sn, buf)
    ensures CountSkipped(Wire, TBuf(buf), U32(sn)) == TBuf(CountSkipped(Ideal, buf, sn))
    ensures SkipTriggers(Wire, TBuf(buf), U32(sn), limit) == SkipTriggers(Ideal, buf, sn, limit)
  {
    if buf != [] {
      DiffWrap(sn, buf[0].sn);
      TBufParts(buf, 1);
      CountSkippedWrap(buf[1..], sn, limit);
      TBufConcat([buf[0].(fastAcks := U32(buf[0].fastAcks + 1))], CountSkipped(Ideal, buf[1..], sn));
    }
  }

  lemma {:induction false} InsertSortedWrap(buf: seq<Segment>, seg: Segment)
    requires AllClose(seg.sn, buf)
    ensures InsertSorted(Wire, TBuf(buf), TSeg(seg)) == TBuf(InsertSorted(Ideal, buf, seg))
  {
    if buf != [] {
      var n := |buf| - 1;
      DiffWrap(seg.sn, buf[n].sn);
      TBufParts(buf, n);
      InsertSortedWrap(buf[..n], seg);
      TBufConcat(InsertSorted(Ideal, buf[..n], seg), [buf[n]]);
      TBufConcat(buf, [seg]);
    }
  }

  lemma InsertSortedLength(m: Mode, buf: seq<Segment>, seg: Segment)
    ensures |InsertSorted(m, buf, seg)| == |buf| ==> InsertSorted(m, buf, seg) == buf
    ensures |InsertSorted(m, buf, seg)| >= |buf|
  {
    if buf != [] {
      InsertSortedLength(m, buf[..|buf| - 1], seg);
      assert buf == buf[..|buf| - 1] + [buf[|buf| - 1]];
    }
  }

  lemma {:induction false} PromoteWrap(rcv: int, queue: seq<Segment>, buf: seq<Segment>, window: int)
    requires forall k :: 0 <= k < |buf| ==> rcv + k <= buf[k].sn < rcv + TWO31
    ensures var p, q := Promote(Wire, U32(rcv), TBuf(queue), TBuf(buf), window),
            Promote(Ideal, rcv, queue, buf, window);
            p == Promoted(U32(q.rcv), TBuf(q.queue), TBuf(q.buf))
    decreases |buf|
  {
    if |buf| > 0 {
      DiffWrap(buf[0].sn, rcv);
      if buf[0].sn == rcv && |queue| < window {
        TBufParts(buf, 1);
        TBufConcat(queue, [buf[0]]);
        assert TBuf([buf[0]]) == [TBuf(buf)[0]];
        NormWrap(rcv, 1);
        forall k | 0 <= k < |buf[1..]| ensures (rcv + 1) + k <= buf[1..][k].sn < rcv + 1 + TWO31 {
          assert rcv + (k + 1) <= buf[k + 1].sn;
        }
        PromoteWrap(rcv + 1, queue + [buf[0]], buf[1..], window);
      }
    }
  }

  // ---------------------------------------------------------------- items

  /** Windows small enough for 32-bit comparison. */
  ghost predicate SmallWindows(cfg: Config) { 0 < cfg.sendWindow < TWO31 && 0 < cfg.receiveWindow < TWO31 }

  /** The state is in order, and the peer, which has assigned peerNxt numbers, is less than 2^31 ahead. */
  ghost predicate InStep(st: State, peerNxt: int) {
    && SmallWindows(st.cfg)
    && Sorted(st.sendBuf) && Within(st.sendBuf, st.una, st.nxt)
    && 0 <= st.una <= st.nxt <= st.una + st.cfg.sendWindow
    && Sorted(st.receiveBuf) && Within(st.receiveBuf, st.rcv, st.rcv + st.cfg.receiveWindow)
    && 0 <= st.rcv <= peerNxt < st.rcv + TWO31
  }

  /** The header is not so old that a counter could be taken for a later one. */
  ghost predicate Fresh(it: Item, st: State, peerNxt: int) {
    && st.nxt - TWO31 <= it.una <= st.nxt
    && (it.cmd == CMD_ACK ==> st.nxt - TWO31 <= it.sn < st.nxt)
    && (it.cmd == CMD_PUSH ==> peerNxt + st.cfg.receiveWindow - TWO31 <= it.sn < peerNxt)
  }

  lemma RefreshWrap(st: State)
    ensures Refresh(Trunc(st)) == Trunc(Refresh(st))
  {
  }

  lemma SendBufClose(st: State, x: int)
    requires Within(st.sendBuf, st.una, st.nxt) && 0 <= st.una <= st.nxt <= st.una + st.cfg.sendWindow
    requires st.cfg.sendWindow < TWO31 && st.nxt - TWO31 <= x <= st.nxt
    ensures AllClose(x, st.sendBuf) && Close(x, st.una) && Close(x, st.nxt)
  {
  }

  lemma TakeHeaderWrap(st: State, it: Item, peerNxt: int)
    requires InStep(st, peerNxt) && Fresh(it, st, peerNxt)
    ensures TakeHeader(Wire, Trunc(st), TItem(it)) == Trunc(TakeHeader(Ideal, st, it))
  {
    SendBufClose(st, it.una);
    DropBeforeWrap(st.sendBuf, it.una);
    RefreshWrap(st.(remoteWindow := it.wnd, sendBuf := DropBefore(Ideal, st.sendBuf, it.una)));
  }

  lemma InFlightWrap(st: State, sn: int)
    requires Close(sn, st.una) && Close(sn, st.nxt)
    ensures InFlight(Wire, Trunc(st), U32(sn)) == InFlight(Ideal, st, sn)
  {
    DiffWrap(sn, st.una);
    DiffWrap(sn, st.nxt);
  }

  lemma TakeAckWrap(st: State, sn: int)
    requires AllClose(sn, st.sendBuf) && Close(sn, st.una) && Close(sn, st.nxt)
    ensures TakeAck(Wire, Trunc(st), U32(sn)) == Trunc(TakeAck(Ideal, st, sn))
    ensures TakeFastAck(Wire, Trunc(st), U32(sn)) == Trunc(TakeFastAck(Ideal, st, sn))
    ensures FastAckTriggers(Wire, Trunc(st), U32(sn)) == FastAckTriggers(Ideal, st, sn)
  {
    InFlightWrap(st, sn);
    DropAckedWrap(st.sendBuf, sn);
    CountSkippedWrap(st.sendBuf, sn, st.cfg.FastResend());
  }

  lemma PromoteStateWrap(st: State, queue: seq<Segment>, buf: seq<Segment>)
    requires Sorted(buf) && Within(buf, st.rcv, st.rcv + TWO31)
    ensures WithPromoted(Trunc(st), Promote(Wire, U32(st.rcv), TBuf(queue), TBuf(buf), st.cfg.receiveWindow))
         == Trunc(WithPromoted(st, Promote(Ideal, st.rcv, queue, buf, st.cfg.receiveWindow)))
  {
    SortedSpreads(buf, st.rcv, TWO31);
    PromoteWrap(st.rcv, queue, buf, st.cfg.receiveWindow);
  }

  /** The k-th of a sorted run of numbers from `lo` on is at least lo + k. */
  lemma SortedSpreads(buf: seq<Segment>, lo: int, width: int)
    requires Sorted(buf) && Within(buf, lo, lo + width)
    ensures forall k :: 0 <= k < |buf| ==> lo + k <= buf[k].sn < lo + width
  {
    if |buf| > 0 {
      var n := |buf| - 1;
      SortedSpreads(buf[..n], lo, width);
      forall k | 0 <= k < |buf| ensures lo + k <= buf[k].sn < lo + width {
        if k < n { assert buf[..n][k] == buf[k]; }
        else if n > 0 { assert buf[..n][n - 1].sn >= lo + n - 1 && buf[n - 1].sn < buf[n].sn; }
      }
    }
  }

  /** Putting a segment in its place keeps the buffer sorted and within bounds. */
  lemma InsertSortedBounds(buf: seq<Segment>, seg: Segment, lo: int, hi: int)
    requires Sorted(buf) && Within(buf, lo, hi) && lo <= seg.sn < hi
    ensures Sorted(InsertSorted(Ideal, buf, seg)) && Within(InsertSorted(Ideal, buf, seg), lo, hi)
  {
    var i := InsertSortedAt(buf, seg);
    if InsertSorted(Ideal, buf, seg) != buf {
      PlaceSorted(buf, i, seg, lo, hi);
    }
  }

  lemma InsertWrap(st: State, sn: int, frg: int, payload: seq<byte>)
    requires SmallWindows(st.cfg) && st.rcv <= sn < st.rcv + st.cfg.receiveWindow
    requires Sorted(st.receiveBuf) && Within(st.receiveBuf, st.rcv, st.rcv + st.cfg.receiveWindow)
    ensures Insert(Wire, Trunc(st), U32(sn), frg, payload) == Trunc(Insert(Ideal, st, sn, frg, payload))
  {
    var seg := DataSegment(sn, frg, payload);
    var buf := st.receiveBuf;
    DiffWrap(sn, st.rcv);
    NormWrap(st.rcv, 1);
    TBufConcat(st.receiveQueue, [seg]);
    InsertSortedWrap(buf, seg);
    var r := InsertSorted(Ideal, buf, seg);
    InsertSortedLength(Ideal, buf, seg);
    InsertSortedLength(Wire, TBuf(buf), TSeg(seg));
    assert (TBuf(r) == TBuf(buf)) == (r == buf) by { assert |TBuf(r)| == |r|; }
    InsertSortedBounds(buf, seg, st.rcv, st.rcv + st.cfg.receiveWindow);
    PromoteStateWrap(st, st.receiveQueue, r);
  }

  lemma TakePushWrap(st: State, it: Item, peerNxt: int)
    requires InStep(st, peerNxt) && Fresh(it, st, peerNxt) && it.cmd == CMD_PUSH
    ensures TakePush(Wire, Trunc(st), TItem(it)) == Trunc(TakePush(Ideal, st, it))
  {
    var w := st.rcv + st.cfg.receiveWindow;
    NormWrap(st.rcv, st.cfg.receiveWindow);
    DiffWrap(it.sn, w);
    DiffWrap(it.sn, st.rcv);
    if it.sn >= w {
      PushIgnored(Ideal, st, it);
      PushIgnored(Wire, Trunc(st), TItem(it));
    } else if st.rcv <= it.sn {
      PushInsertsWrap(st, it, peerNxt);
    } else {
      AckedWrap(st, it.sn, it.ts);
      PushAcks(Ideal, st, it);
      PushAcks(Wire, Trunc(st), TItem(it));
    }
  }

  lemma PushInsertsWrap(st: State, it: Item, peerNxt: int)
    requires InStep(st, peerNxt) && Fresh(it, st, peerNxt) && it.cmd == CMD_PUSH
    requires st.rcv <= it.sn < st.rcv + st.cfg.receiveWindow
    requires Diff(Wire, U32(it.sn), Norm(Wire, U32(st.rcv) + st.cfg.receiveWindow)) < 0
    requires Diff(Wire, U32(it.sn), U32(st.rcv)) >= 0
    ensures TakePush(Wire, Trunc(st), TItem(it)) == Trunc(TakePush(Ideal, st, it))
  {
    AckedWrap(st, it.sn, it.ts);
    PushInserts(Ideal, st, it);
    PushInserts(Wire, Trunc(st), TItem(it));
    InsertWrap(Acked(st, it.sn, it.ts), it.sn, it.frg, it.payload);
  }

  lemma PushIgnored(m: Mode, st: State, it: Item)
    requires Diff(m, it.sn, Norm(m, st.rcv + st.cfg.receiveWindow)) >= 0
    ensures TakePush(m, st, it) == st
  {
  }

  lemma PushInserts(m: Mode, st: State, it: Item)
    requires Diff(m, it.sn, Norm(m, st.rcv + st.cfg.receiveWindow)) < 0 && Diff(m, it.sn, st.rcv) >= 0
    ensures TakePush(m, st, it) == Insert(m, Acked(st, it.sn, it.ts), it.sn, it.frg, it.payload)
  {
  }

  lemma PushAcks(m: Mode, st: State, it: Item)
    requires Diff(m, it.sn, Norm(m, st.rcv + st.cfg.receiveWindow)) < 0 && Diff(m, it.sn, st.rcv) < 0
    ensures TakePush(m, st, it) == Acked(st, it.sn, it.ts)
  {
  }

  lemma AckedWrap(st: State, sn: int, ts: int)
    ensures Trunc(Acked(st, sn, ts)) == Acked(Trunc(st), U32(sn), ts)
  {
    var acks := st.acks + [Ack(sn, ts)];
    assert TAcks(acks) == TAcks(st.acks) + [Ack(U32(sn), ts)];
  }

  /** An item: the truncated state takes the truncated item to the truncation of the result. */
  lemma TakeItemWrap(st: State, it: Item, peerNxt: int)
    requires InStep(st, peerNxt) && Fresh(it, st, peerNxt)
    requires st.una == FirstOr(st.sendBuf, st.nxt)
    ensures TakeItem(Wire, Trunc(st), TItem(it)) == Trunc(TakeItem(Ideal, st, it))
    ensures Triggers(Wire, Trunc(st), TItem(it)) == Triggers(Ideal, st, it)
  {
    TakeHeaderWrap(st, it, peerNxt);
    var s1 := TakeHeader(Ideal, st, it);
    HeaderInStep(st, it, peerNxt);
    if it.cmd == CMD_ACK {
      SendBufClose(s1, it.sn);
      TakeAckWrap(s1, it.sn);
      var s2 := TakeAck(Ideal, s1, it.sn);
      RefreshWrap(s2);
      AckInStep(s1, it.sn, peerNxt);
      SendBufClose(Refresh(s2), it.sn);
      TakeAckWrap(Refresh(s2), it.sn);
    } else if it.cmd == CMD_PUSH {
      TakePushWrap(s1, it, peerNxt);
    }
  }

  /** Any part of the send buffer leaves the state in step. */
  lemma DropInStep(st: State, i: int, j: int, st1: State, peerNxt: int)
    requires InStep(st, peerNxt) && 0 <= i <= j <= |st.sendBuf| && st.una == FirstOr(st.sendBuf, st.nxt)
    requires SameReceiver(st, st1) && st1.nxt == st.nxt && st1.sendBuf == st.sendBuf[..i] + st.sendBuf[j..]
    ensures InStep(Refresh(st1), peerNxt)
  {
    PartSorted(st.sendBuf, i, j, st.una, st.nxt);
    FirstOfPart(st.sendBuf, i, j, st.una, st.nxt);
  }

  lemma FirstOfPart(buf: seq<Segment>, i: int, j: int, una: int, nxt: int)
    requires 0 <= i <= j <= |buf| && Sorted(buf) && Within(buf, una, nxt) && una <= nxt
    ensures var r := buf[..i] + buf[j..];
            una <= FirstOr(r, nxt) <= nxt && Within(r, FirstOr(r, nxt), nxt)
  {
    PartSorted(buf, i, j, una, nxt);
    var r := buf[..i] + buf[j..];
    assert forall k :: 0 < k < |r| ==> r[0].sn < r[k].sn;
  }

  lemma HeaderInStep(st: State, it: Item, peerNxt: int)
    requires InStep(st, peerNxt) && st.una == FirstOr(st.sendBuf, st.nxt)
    ensures InStep(TakeHeader(Ideal, st, it), peerNxt)
  {
    var i := DropBeforeAt(st.sendBuf, it.una);
    assert st.sendBuf[..0] + st.sendBuf[i..] == st.sendBuf[i..];
    DropInStep(st, 0, i, st.(remoteWindow := it.wnd, sendBuf := DropBefore(Ideal, st.sendBuf, it.una)), peerNxt);
  }

  lemma AckInStep(st: State, sn: int, peerNxt: int)
    requires InStep(st, peerNxt) && st.una == FirstOr(st.sendBuf, st.nxt)
    ensures InStep(Refresh(TakeAck(Ideal, st, sn)), peerNxt)
  {
    var i := DropAckedAt(st.sendBuf, sn);
    var j := if InFlight(Ideal, st, sn) && i < |st.sendBuf| then i + 1 else i;
    assert st.sendBuf[..i] + st.sendBuf[i..] == st.sendBuf;
    DropInStep(st, i, j, TakeAck(Ideal, st, sn), peerNxt);
  }

  // ---------------------------------------------------------------- datagrams

  ghost predicate AllFresh(items: seq<Item>, st: State, peerNxt: int) {
    forall k :: 0 <= k < |items| ==> Fresh(items[k], st, peerNxt)
  }

  lemma InvInStep(st: State, log: seq<Chunk>, peerLog: seq<Chunk>, delivered: int)
    requires SenderInv(st, log) && ReceiverInv(st, peerLog, delivered)
    requires SmallWindows(st.cfg) && |peerLog| < st.rcv + TWO31
    ensures InStep(st, |peerLog|)
  {
  }

  lemma TItemsTail(items: seq<Item>)
    requires items != []
    ensures TItems(items)[0] == TItem(items[0]) && TItems(items)[1..] == TItems(items[1..])
  {
  }

  lemma {:induction false} TakeItemsWrap(st: State, log: seq<Chunk>, peerLog: seq<Chunk>, delivered: int,
                                         items: seq<Item>)
    requires SenderInv(st, log) && ReceiverInv(st, peerLog, delivered) && AllDataOk(items, peerLog)
    requires SmallWindows(st.cfg) && |peerLog| < st.rcv + TWO31 && AllFresh(items, st, |peerLog|)
    ensures TakeItems(Wire, Trunc(st), TItems(items)) == Trunc(TakeItems(Ideal, st, items))
    ensures AnyTriggers(Wire, Trunc(st), TItems(items)) == AnyTriggers(Ideal, st, items)
    decreases |items|
  {
    if items != [] {
      var it, st1 := items[0], TakeItem(Ideal, st, items[0]);
      InvInStep(st, log, peerLog, delivered);
      TakeItemWrap(st, it, |peerLog|);
      TakeItemKeeps(st, log, peerLog, delivered, it);
      TItemsTail(items);
      TakeItemsWrap(st1, log, peerLog, delivered, items[1..]);
    }
  }

  lemma {:induction false} LatestAckWrap(items: seq<Item>, prev: Option<int>)
    ensures LatestAck(TItems(items), prev) == LatestAck(items, prev)
    decreases |items|
  {
    if items != [] {
      TItemsTail(items);
      LatestAckWrap(items[1..], if items[0].cmd == CMD_ACK then Some(items[0].ts) else prev);
    }
  }

  lemma GrowWrap(st: State)
    ensures Grow(Trunc(st)) == Trunc(Grow(st))
  {
  }

  lemma UpdateRttWrap(st: State, rtt: int)
    ensures UpdateRtt(Trunc(st), rtt) == Trunc(UpdateRtt(st, rtt))
  {
  }

  lemma FinishWrap(st: State, prevUna: int, latest: Option<int>, now: int)
    requires Close(st.una, prevUna)
    ensures FinishInput(Wire, Trunc(st), U32(prevUna), latest, now)
            == Trunc(FinishInput(Ideal, st, prevUna, latest, now))
  {
    var s1 := st;
    if latest.Some? && TimeDiff(now, latest.value) >= 0 {
      UpdateRttWrap(st, TimeDiff(now, latest.value));
      UpdateRttFrame(st, TimeDiff(now, latest.value));
      s1 := UpdateRtt(st, TimeDiff(now, latest.value));
    }
    DiffWrap(st.una, prevUna);
    GrowWrap(s1);
  }

  /** Unacknowledged numbers only move forward. */
  lemma {:induction false} UnaMoves(st: State, log: seq<Chunk>, peerLog: seq<Chunk>, delivered: int, items: seq<Item>)
    requires SenderInv(st, log) && ReceiverInv(st, peerLog, delivered) && AllDataOk(items, peerLog)
    ensures var st1 := TakeItems(Ideal, st, items);
            && SenderInv(st1, log) && ReceiverInv(st1, peerLog, delivered)
            && st.nxt - st.cfg.sendWindow <= st1.una <= st1.nxt == st.nxt
            && st1.sendQueue == st.sendQueue && st1.cfg == st.cfg && st.rcv <= st1.rcv
    decreases |items|
  {
    if items != [] {
      TakeItemKeeps(st, log, peerLog, delivered, items[0]);
      UnaMoves(TakeItem(Ideal, st, items[0]), log, peerLog, delivered, items[1..]);
    }
  }

  /** A fresh datagram: 32-bit input computes the truncation of what unbounded counters would give. */
  lemma InputWrap(st: State, log: seq<Chunk>, peerLog: seq<Chunk>, delivered: int, items: seq<Item>, now: int)
    requires SenderInv(st, log) && ReceiverInv(st, peerLog, delivered) && AllDataOk(items, peerLog)
    requires SmallWindows(st.cfg) && |peerLog| < st.rcv + TWO31 && AllFresh(items, st, |peerLog|)
    ensures Input(Wire, Trunc(st), TItems(items), now) == Trunc(Input(Ideal, st, items, now))
  {
    TakeItemsWrap(st, log, peerLog, delivered, items);
    UnaMoves(st, log, peerLog, delivered, items);
    LatestAckWrap(items, None);
    FinishWrap(TakeItems(Ideal, st, items), st.una, LatestAck(items, None), now);
  }

  // ---------------------------------------------------------------- send and pop

  lemma SendWrap(st: State, data: seq<byte>)
    requires st.cfg.Mss() > 0
    ensures Send(Trunc(st), data) == Trunc(Send(st, data)) && Accepts(Trunc(st), data) == Accepts(st, data)
  {
  }

  lemma PopWrap(st: State)
    requires 0 < Ready(st.receiveQueue) <= |st.receiveQueue|
    requires Sorted(st.receiveBuf) && Within(st.receiveBuf, st.rcv, st.rcv + st.cfg.receiveWindow)
             && SmallWindows(st.cfg)
    ensures Ready(Trunc(st).receiveQueue) == Ready(st.receiveQueue)
    ensures Pop(Wire, Trunc(st)) == Trunc(Pop(Ideal, st))
  {
    var n := Ready(st.receiveQueue);
    TBufParts(st.receiveQueue, n);
    PromoteStateWrap(st, st.receiveQueue[n..], st.receiveBuf);
  }

  lemma {:induction false} BytesWrap(segs: seq<Segment>)
    ensures Bytes(TBuf(segs)) == Bytes(segs)
  {
    if segs != [] {
      TBufParts(segs, 1);
      BytesWrap(segs[1..]);
    }
  }

  // ---------------------------------------------------------------- flush

  ghost predicate AcksFresh(st: State) {
    forall k :: 0 <= k < |st.acks| ==> Close(st.acks[k].sn, st.rcv)
  }

  lemma {:induction false} AckItemsWrap(st: State, acks: seq<Ack>)
    requires forall k :: 0 <= k < |acks| ==> Close(acks[k].sn, st.rcv)
    ensures AckItems(Wire, Trunc(st), TAcks(acks)) == TItems(AckItems(Ideal, st, acks))
    decreases |acks|
  {
    if acks != [] {
      DiffWrap(acks[0].sn, st.rcv);
      assert TAcks(acks)[1..] == TAcks(acks[1..]);
      AckItemsWrap(st, acks[1..]);
      TItemsConcat([AckItem(st, acks[0])], AckItems(Ideal, st, acks[1..]));
    }
  }

  lemma TItemsConcat(a: seq<Item>, b: seq<Item>)
    ensures TItems(a + b) == TItems(a) + TItems(b)
  {
  }

  lemma AdmitOneWrap(st: State)
    requires |st.sendQueue| > 0
    ensures AdmitOne(Wire, Trunc(st)) == Trunc(AdmitOne(Ideal, st))
  {
    NormWrap(st.nxt, 1);
    var seg := st.sendQueue[0].(sn := st.nxt);
    TBufConcat(st.sendBuf, [seg]);
    assert TBuf([seg]) == [TSeg(seg)];
  }

  lemma CanAdmitWrap(st: State, limit: int)
    requires Close(st.nxt, st.una + limit)
    ensures CanAdmit(Wire, Trunc(st), limit) == CanAdmit(Ideal, st, limit)
  {
    NormWrap(st.una, limit);
    DiffWrap(st.nxt, st.una + limit);
  }

  lemma {:induction false} AdmitWrap(st: State, limit: int)
    requires 0 <= limit < TWO31 && -TWO31 <= st.nxt - (st.una + limit) < TWO31
    ensures Admit(Wire, Trunc(st), limit) == Trunc(Admit(Ideal, st, limit))
    decreases |st.sendQueue|
  {
    CanAdmitWrap(st, limit);
    if CanAdmit(Ideal, st, limit) {
      AdmitOneWrap(st);
      AdmitWrap(AdmitOne(Ideal, st), limit);
    }
  }

  lemma {:induction false} ResendAllWrap(st: State, buf: seq<Segment>, now: int)
    ensures ResendAll(Trunc(st), TBuf(buf), now) == TBuf(ResendAll(st, buf, now))
  {
    if buf != [] {
      TBufParts(buf, 1);
      ResendAllWrap(st, buf[1..], now);
      TBufConcat([Resend(st, buf[0], now)], ResendAll(st, buf[1..], now));
      assert TBuf([Resend(st, buf[0], now)]) == [Resend(Trunc(st), TBuf(buf)[0], now)];
    }
  }

  lemma {:induction false} PushItemsWrap(st: State, buf: seq<Segment>, now: int)
    ensures PushItems(Trunc(st), TBuf(buf), now) == TItems(PushItems(st, buf, now))
  {
    if buf != [] {
      TBufParts(buf, 1);
      PushItemsWrap(st, buf[1..], now);
      TItemsConcat([PushItem(st, buf[0], now)], PushItems(st, buf[1..], now));
      assert TItems([PushItem(st, buf[0], now)]) == [PushItem(Trunc(st), TBuf(buf)[0], now)];
    }
  }

  lemma SegmentWrap(st: State, seg: Segment, now: int)
    ensures TimedOut(TSeg(seg), now) == TimedOut(seg, now)
    ensures Skipped(st.cfg, TSeg(seg), now) == Skipped(st.cfg, seg, now)
    ensures Exhausted(Trunc(st), TSeg(seg), now) == Exhausted(st, seg, now)
  {
  }

  lemma {:induction false} FlagsWrap(st: State, buf: seq<Segment>, now: int)
    ensures AnyLost(TBuf(buf), now) == AnyLost(buf, now)
    ensures AnySkipped(st.cfg, TBuf(buf), now) == AnySkipped(st.cfg, buf, now)
    ensures AnyDead(Trunc(st), TBuf(buf), now) == AnyDead(st, buf, now)
  {
    if buf != [] {
      var n := |buf| - 1;
      SegmentWrap(st, buf[n], now);
      TBufParts(buf, n);
      FlagsWrap(st, buf[..n], now);
    }
  }

  lemma ProbeWrap(st: State, now: int)
    ensures Probe(Trunc(st), now) == Trunc(Probe(st, now))
    ensures ProbeItems(Trunc(st)) == TItems(ProbeItems(st))
  {
  }

  lemma ShrinkWrap(st: State, limit: int, skipped: bool, lost: bool)
    ensures Shrink(Trunc(st), limit, skipped, lost) == Trunc(Shrink(st, limit, skipped, lost))
  {
    U32Absorbs(st.nxt, U32(st.una));
    U32Absorbs(st.nxt, st.una);
  }

  /** Windows are not negative. */
  ghost predicate Windows(st: State) { 0 <= st.remoteWindow && 0 <= st.cwnd }

  lemma PreparedWrap(st: State, now: int)
    requires SmallWindows(st.cfg) && Windows(st) && 0 <= st.una <= st.nxt <= st.una + st.cfg.sendWindow
    ensures Prepared(Wire, Trunc(st), now) == Trunc(Prepared(Ideal, st, now))
  {
    var s0 := st.(acks := []);
    assert TAcks([]) == [];
    assert Trunc(st).(acks := []) == Trunc(s0);
    ProbeWrap(s0, now);
    ProbeFrame(s0, now);
    var s1 := Probe(s0, now);
    AdmitWrap(s1.(ask := false, tell := false), SendLimit(s1));
  }

  /** A flush: 32-bit counters give the truncation of the state and of everything sent. */
  lemma FlushWrap(st: State, now: int, ackOnly: bool)
    requires SmallWindows(st.cfg) && Windows(st) && 0 <= st.una <= st.nxt <= st.una + st.cfg.sendWindow && AcksFresh(st)
    ensures Flush(Wire, Trunc(st), now, ackOnly) == Trunc(Flush(Ideal, st, now, ackOnly))
    ensures FlushItems(Wire, Trunc(st), now, ackOnly) == TItems(FlushItems(Ideal, st, now, ackOnly))
  {
    assert HasWork(Trunc(st)) == HasWork(st);
    if HasWork(st) || st.remoteWindow <= 0 {
      AckItemsWrap(st, st.acks);
      assert TAcks([]) == [];
      if !ackOnly {
        FullFlushWrap(st, now);
      }
    }
  }

  lemma FullFlushWrap(st: State, now: int)
    requires SmallWindows(st.cfg) && Windows(st) && 0 <= st.una <= st.nxt <= st.una + st.cfg.sendWindow && AcksFresh(st)
    requires HasWork(st) || st.remoteWindow <= 0
    ensures Flush(Wire, Trunc(st), now, false) == Trunc(Flush(Ideal, st, now, false))
    ensures FlushItems(Wire, Trunc(st), now, false) == TItems(FlushItems(Ideal, st, now, false))
  {
    assert HasWork(Trunc(st)) == HasWork(st);
    PreparedWrap(st, now);
    PreparedIs(Ideal, st, now);
    var p := Prepared(Ideal, st, now);
    ResendAllWrap(p, p.sendBuf, now);
    FlagsWrap(p, p.sendBuf, now);
    var s2 := p.(sendBuf := ResendAll(p, p.sendBuf, now), dead := p.dead || AnyDead(p, p.sendBuf, now));
    ShrinkWrap(s2, SendLimit(st), AnySkipped(st.cfg, p.sendBuf, now), AnyLost(p.sendBuf, now));
    AckItemsWrap(st, st.acks);
    ProbeWrap(st, now);
    ProbeWrap(Probe(st, now), now);
    PushItemsWrap(p, p.sendBuf, now);
    var a, b, c := AckItems(Ideal, st, st.acks), ProbeItems(Probe(st, now)), PushItems(p, p.sendBuf, now);
    TItemsConcat(a, b);
    TItemsConcat(a + b, c);
  }
}
