/**
 The KCP ARQ state machine of kcp/arq.go as functions on a value.

 Every function that touches a sequence number takes a `Mode`. `Wire` is what the program computes: counters are
 uint32 and are compared by `timeDiff`. `Ideal` is the same algorithm with unbounded counters; ArqWrap proves that
 the two agree, and ArqSafety reasons about the ideal one. Timestamps are uint32 in both.
 */
module ArqModel {
  import opened Wrappers
  import opened Words

  const HEADER: int := 24
  const CMD_PUSH: int := 81
  const CMD_ACK: int := 82
  const CMD_ASK: int := 83
  const CMD_TELL: int := 84
  const RTO_NO_DELAY: int := 30
  const RTO_MIN: int := 100
  const RTO_DEFAULT: int := 200
  const RTO_MAX: int := 60000
  const PROBE_INIT: int := 500
  const PROBE_LIMIT: int := 120000
  const DEAD_LINK_LIMIT: int := 20
  const THRESH_INIT: int := 2
  const THRESH_MIN: int := 2
  const FAST_RESEND_LIMIT: int := 2

  datatype Mode = Wire | Ideal

  /** A counter as the mode stores it. */
  function Norm(m: Mode, x: int): int { if m.Wire? then U32(x) else x }

  /** The signed distance between two counters as the mode computes it. */
  function Diff(m: Mode, a: int, b: int): int { if m.Wire? then TimeDiff(a, b) else a - b }

  datatype Config = Config(conv: int, mtu: int, sendWindow: int, receiveWindow: int, interval: int,
                           noDelay: bool, streamMode: bool)
  {
    /** The limits that Options.withDefaults leaves on a configuration. */
    ghost predicate Valid() {
      && 0 <= conv < TWO32
      && 128 <= mtu <= 65500
      && 1 <= sendWindow < TWO32
      && 1 <= receiveWindow < TWO32
      && 10 <= interval <= 5000
    }

    function Mss(): int { mtu - HEADER }

    function FastResend(): int { if noDelay then FAST_RESEND_LIMIT else 0 }

    function MinRto(): int { if noDelay then RTO_NO_DELAY else RTO_MIN }
  }

  datatype Segment = Segment(payload: seq<byte>, frg: int, sn: int, ts: int, resendTs: int, rto: int,
                             fastAcks: int, xmits: int)

  datatype Ack = Ack(sn: int, ts: int)

  /** One header with its payload, as a datagram carries it. */
  datatype Item = Item(cmd: int, frg: int, wnd: int, ts: int, sn: int, una: int, payload: seq<byte>)

  datatype State = State(
    cfg: Config,
    dead: bool,
    una: int,
    nxt: int,
    rcv: int,
    remoteWindow: int,
    cwnd: int,
    ssthresh: int,
    incr: int,
    srtt: int,
    rttvar: int,
    rto: int,
    ask: bool,
    tell: bool,
    probeTs: int,
    probeWait: int,
    sendQueue: seq<Segment>,
    sendBuf: seq<Segment>,
    receiveBuf: seq<Segment>,
    receiveQueue: seq<Segment>,
    acks: seq<Ack>)

  function Init(cfg: Config): State {
    State(cfg, false, 0, 0, 0, cfg.receiveWindow, 0, THRESH_INIT, 0, 0, 0, RTO_DEFAULT, false, false, 0, 0,
          [], [], [], [], [])
  }

  // ---------------------------------------------------------------- send

  function FreshSegment(payload: seq<byte>, frg: int): Segment { Segment(payload, frg, 0, 0, 0, 0, 0, 0) }

  /** The segments of a byte stream cut at the segment size. */
  function Cut(data: seq<byte>, mss: int): seq<Segment>
    requires mss > 0
    decreases |data|
  {
    if data == [] then [] else
      var take := Min(|data|, mss);
      [FreshSegment(data[..take], 0)] + Cut(data[take..], mss)
  }

  /** The segments of one message: `count` pieces whose fragment numbers run down to 0. */
  function Fragment(data: seq<byte>, mss: int, count: int): seq<Segment>
    requires mss > 0 && count >= 0
    decreases count
  {
    if count == 0 then [] else
      var take := Min(|data|, mss);
      [FreshSegment(data[..take], count - 1)] + Fragment(data[take..], mss, count - 1)
  }

  function FragmentCount(size: int, mss: int): int
    requires mss > 0
  {
    if size > mss then (size + mss - 1) / mss else 1
  }

  function StreamQueue(queue: seq<Segment>, data: seq<byte>, mss: int): seq<Segment>
    requires mss > 0
  {
    if |queue| > 0 && mss - |queue[|queue| - 1].payload| > 0 then
      var last := queue[|queue| - 1];
      var take := Min(|data|, mss - |last.payload|);
      queue[..|queue| - 1] + [last.(payload := last.payload + data[..take])] + Cut(data[take..], mss)
    else
      queue + Cut(data, mss)
  }

  /** Whether `send` takes the message, rather than returning ErrMessageTooLarge. */
  predicate Accepts(st: State, data: seq<byte>)
    requires st.cfg.Mss() > 0
  {
    st.cfg.streamMode
    || FragmentCount(|data|, st.cfg.Mss()) - 1 <= Min(st.cfg.receiveWindow - 1, 255)
  }

  function Send(st: State, data: seq<byte>): State
    requires st.cfg.Mss() > 0
  {
    var mss := st.cfg.Mss();
    if st.cfg.streamMode then
      st.(sendQueue := StreamQueue(st.sendQueue, data, mss))
    else if Accepts(st, data) then
      st.(sendQueue := st.sendQueue + Fragment(data, mss, FragmentCount(|data|, mss)))
    else
      st
  }

  // ---------------------------------------------------------------- receive queue

  function Bytes(segs: seq<Segment>): seq<byte> {
    if segs == [] then [] else segs[0].payload + Bytes(segs[1..])
  }

  /** The number of segments of the next complete message, or 0 when none is ready. */
  function Ready(queue: seq<Segment>): int {
    if |queue| == 0 then 0
    else if queue[0].frg == 0 then 1
    else if |queue| < queue[0].frg + 1 then 0
    else queue[0].frg + 1
  }

  datatype Promoted = Promoted(rcv: int, queue: seq<Segment>, buf: seq<Segment>)

  function Promote(m: Mode, rcv: int, queue: seq<Segment>, buf: seq<Segment>, window: int): Promoted
    decreases |buf|
  {
    if |buf| == 0 || buf[0].sn != rcv || |queue| >= window then Promoted(rcv, queue, buf)
    else Promote(m, Norm(m, rcv + 1), queue + [buf[0]], buf[1..], window)
  }

  function WithPromoted(st: State, p: Promoted): State {
    st.(rcv := p.rcv, receiveQueue := p.queue, receiveBuf := p.buf)
  }

  function Pop(m: Mode, st: State): State
    requires 0 < Ready(st.receiveQueue) <= |st.receiveQueue|
  {
    var full := |st.receiveQueue| >= st.cfg.receiveWindow;
    var rest := st.receiveQueue[Ready(st.receiveQueue)..];
    var p := Promote(m, st.rcv, rest, st.receiveBuf, st.cfg.receiveWindow);
    WithPromoted(st, p).(tell := st.tell || (full && |p.queue| < st.cfg.receiveWindow))
  }

  // ---------------------------------------------------------------- input

  /** Segments acknowledged by a cumulative acknowledgement are dropped from the front. */
  function DropBefore(m: Mode, buf: seq<Segment>, una: int): seq<Segment> {
    if buf == [] || Diff(m, una, buf[0].sn) <= 0 then buf else DropBefore(m, buf[1..], una)
  }

  /** The segment named by a selective acknowledgement is dropped. */
  function DropAcked(m: Mode, buf: seq<Segment>, sn: int): seq<Segment> {
    if buf == [] then []
    else if buf[0].sn == sn then buf[1..]
    else if Diff(m, sn, buf[0].sn) < 0 then buf
    else [buf[0]] + DropAcked(m, buf[1..], sn)
  }

  /** Every segment older than the acknowledged one counts it. */
  function CountSkipped(m: Mode, buf: seq<Segment>, sn: int): seq<Segment> {
    if buf == [] || Diff(m, sn, buf[0].sn) <= 0 then buf
    else [buf[0].(fastAcks := U32(buf[0].fastAcks + 1))] + CountSkipped(m, buf[1..], sn)
  }

  /** Whether counting brought a skipped segment to the fast-resend limit. */
  function SkipTriggers(m: Mode, buf: seq<Segment>, sn: int, limit: int): bool {
    if buf == [] || Diff(m, sn, buf[0].sn) <= 0 then false
    else (limit > 0 && U32(buf[0].fastAcks + 1) >= limit) || SkipTriggers(m, buf[1..], sn, limit)
  }

  function Refresh(st: State): State {
    st.(una := if |st.sendBuf| > 0 then st.sendBuf[0].sn else st.nxt)
  }

  predicate InFlight(m: Mode, st: State, sn: int) {
    Diff(m, sn, st.una) >= 0 && Diff(m, sn, st.nxt) < 0
  }

  function TakeAck(m: Mode, st: State, sn: int): State {
    if InFlight(m, st, sn) then st.(sendBuf := DropAcked(m, st.sendBuf, sn)) else st
  }

  function TakeFastAck(m: Mode, st: State, sn: int): State {
    if InFlight(m, st, sn) then st.(sendBuf := CountSkipped(m, st.sendBuf, sn)) else st
  }

  predicate FastAckTriggers(m: Mode, st: State, sn: int) {
    InFlight(m, st, sn) && SkipTriggers(m, st.sendBuf, sn, st.cfg.FastResend())
  }

  /** The receive buffer with a segment put in its place; a duplicate is dropped. */
  function InsertSorted(m: Mode, buf: seq<Segment>, seg: Segment): seq<Segment> {
    if buf == [] then [seg]
    else
      var last := buf[|buf| - 1];
      if last.sn == seg.sn then buf
      else if Diff(m, seg.sn, last.sn) > 0 then buf + [seg]
      else InsertSorted(m, buf[..|buf| - 1], seg) + [last]
  }

  predicate Holds(buf: seq<Segment>, sn: int) { exists k :: 0 <= k < |buf| && buf[k].sn == sn }

  function DataSegment(sn: int, frg: int, payload: seq<byte>): Segment {
    Segment(payload, frg, sn, 0, 0, 0, 0, 0)
  }

  function Insert(m: Mode, st: State, sn: int, frg: int, payload: seq<byte>): State {
    var seg := DataSegment(sn, frg, payload);
    if sn == st.rcv && |st.receiveBuf| == 0 && |st.receiveQueue| < st.cfg.receiveWindow then
      st.(receiveQueue := st.receiveQueue + [seg], rcv := Norm(m, st.rcv + 1))
    else if InsertSorted(m, st.receiveBuf, seg) == st.receiveBuf then
      st
    else
      WithPromoted(st, Promote(m, st.rcv, st.receiveQueue, InsertSorted(m, st.receiveBuf, seg), st.cfg.receiveWindow))
  }

  /** An acknowledgement waits for the next flush. */
  function Acked(st: State, sn: int, ts: int): State { st.(acks := st.acks + [Ack(sn, ts)]) }

  function TakePush(m: Mode, st: State, it: Item): State {
    if Diff(m, it.sn, Norm(m, st.rcv + st.cfg.receiveWindow)) < 0 then
      var st1 := Acked(st, it.sn, it.ts);
      if Diff(m, it.sn, st.rcv) >= 0 then Insert(m, st1, it.sn, it.frg, it.payload) else st1
    else st
  }

  /** What every header carries: the peer's window and its cumulative acknowledgement. */
  function TakeHeader(m: Mode, st: State, it: Item): State {
    Refresh(st.(remoteWindow := it.wnd, sendBuf := DropBefore(m, st.sendBuf, it.una)))
  }

  function TakeItem(m: Mode, st: State, it: Item): State {
    var s1 := TakeHeader(m, st, it);
    if it.cmd == CMD_ACK then TakeFastAck(m, Refresh(TakeAck(m, s1, it.sn)), it.sn)
    else if it.cmd == CMD_PUSH then TakePush(m, s1, it)
    else if it.cmd == CMD_ASK then s1.(tell := true)
    else s1
  }

  /** Whether the item asks for an early flush. */
  predicate Triggers(m: Mode, st: State, it: Item) {
    var s1 := TakeHeader(m, st, it);
    || |s1.sendBuf| < |st.sendBuf|
    || (it.cmd == CMD_ACK && FastAckTriggers(m, Refresh(TakeAck(m, s1, it.sn)), it.sn))
  }

  function TakeItems(m: Mode, st: State, items: seq<Item>): State
    decreases |items|
  {
    if items == [] then st else TakeItems(m, TakeItem(m, st, items[0]), items[1..])
  }

  predicate AnyTriggers(m: Mode, st: State, items: seq<Item>)
    decreases |items|
  {
    items != [] && (Triggers(m, st, items[0]) || AnyTriggers(m, TakeItem(m, st, items[0]), items[1..]))
  }

  /** The timestamp of the last acknowledgement of a datagram. */
  function LatestAck(items: seq<Item>, prev: Option<int>): Option<int>
    decreases |items|
  {
    if items == [] then prev
    else LatestAck(items[1..], if items[0].cmd == CMD_ACK then Some(items[0].ts) else prev)
  }

  /** The smoothed round-trip time and its variance. */
  datatype Rtt = Rtt(smoothed: int, variance: int)

  function SmoothRtt(r: Rtt, rtt: int): Rtt {
    if r.smoothed == 0 then Rtt(rtt, QuotTrunc(rtt, 2))
    else
      var d := S32(rtt - r.smoothed);
      var delta := if d < 0 then S32(-d) else d;
      Rtt(Max(QuotTrunc(S32(7 * r.smoothed + rtt), 8), 1), QuotTrunc(S32(3 * r.variance + delta), 4))
  }

  function Timeout(cfg: Config, r: Rtt): int {
    var rto := S32(r.smoothed + Max(S32(cfg.interval), S32(4 * r.variance)));
    Min(Max(U32(rto), cfg.MinRto()), RTO_MAX)
  }

  function UpdateRtt(st: State, rtt: int): State {
    var r := SmoothRtt(Rtt(st.srtt, st.rttvar), rtt);
    st.(srtt := r.smoothed, rttvar := r.variance, rto := Timeout(st.cfg, r))
  }

  /** The congestion window in segments, and the byte count it grows by. */
  datatype Congestion = Congestion(cwnd: int, incr: int)

  /** The byte count after a step of growth past the slow-start threshold. */
  function NextIncr(incr: int, mss: int): int
    requires mss > 0
  {
    var inc0 := if incr < mss then mss else incr;
    U32(inc0 + U32(U32(mss * mss) / inc0 + mss / 16))
  }

  /** One step of congestion-window growth, with every product and sum truncated to uint32. */
  function GrowWindow(c: Congestion, ssthresh: int, remoteWindow: int, mss: int): Congestion
    requires mss > 0
  {
    if c.cwnd >= remoteWindow then c
    else
      var c1 :=
        if c.cwnd < ssthresh then Congestion(U32(c.cwnd + 1), U32(c.incr + mss))
        else
          var inc1 := NextIncr(c.incr, mss);
          if U32(U32(c.cwnd + 1) * mss) <= inc1 then Congestion(U32(U32(inc1 + mss) - 1) / mss, inc1)
          else Congestion(c.cwnd, inc1);
      if c1.cwnd > remoteWindow then Congestion(remoteWindow, U32(remoteWindow * mss)) else c1
  }

  function Grow(st: State): State {
    var mss := U32(st.cfg.Mss());
    if mss == 0 then st
    else
      var c := GrowWindow(Congestion(st.cwnd, st.incr), st.ssthresh, st.remoteWindow, mss);
      st.(cwnd := c.cwnd, incr := c.incr)
  }

  /** What follows the last item of a well-formed datagram. */
  function FinishInput(m: Mode, st: State, prevUna: int, latest: Option<int>, now: int): State {
    var s1 :=
      if latest.Some? && TimeDiff(now, latest.value) >= 0 then UpdateRtt(st, TimeDiff(now, latest.value)) else st;
    if !st.cfg.noDelay && Diff(m, s1.una, prevUna) > 0 then Grow(s1) else s1
  }

  /** The effect of a datagram that holds exactly these items. */
  function Input(m: Mode, st: State, items: seq<Item>, now: int): State {
    FinishInput(m, TakeItems(m, st, items), st.una, LatestAck(items, None), now)
  }

  // ---------------------------------------------------------------- flush

  function UnusedWindow(st: State): int {
    if |st.receiveQueue| >= st.cfg.receiveWindow then 0
    else Min(st.cfg.receiveWindow - |st.receiveQueue|, 0xFFFF)
  }

  predicate HasWork(st: State) {
    |st.acks| > 0 || |st.sendQueue| > 0 || |st.sendBuf| > 0 || st.ask || st.tell
  }

  function AckItem(st: State, a: Ack): Item {
    Item(CMD_ACK, 0, UnusedWindow(st), a.ts, a.sn, st.rcv, [])
  }

  /** The acknowledgements that go out: those the cumulative one does not cover, and always the last. */
  function AckItems(m: Mode, st: State, acks: seq<Ack>): seq<Item>
    decreases |acks|
  {
    if acks == [] then []
    else
      (if Diff(m, acks[0].sn, st.rcv) >= 0 || |acks| == 1 then [AckItem(st, acks[0])] else [])
      + AckItems(m, st, acks[1..])
  }

  function AllAckItems(st: State, acks: seq<Ack>): seq<Item> {
    if acks == [] then [] else [AckItem(st, acks[0])] + AllAckItems(st, acks[1..])
  }

  /** The window probe timer. */
  function Probe(st: State, now: int): State {
    if st.remoteWindow == 0 then
      if st.probeWait == 0 then
        st.(probeWait := PROBE_INIT, probeTs := U32(now + PROBE_INIT))
      else if TimeDiff(now, st.probeTs) >= 0 then
        var w := Min(Max(st.probeWait, PROBE_INIT) + st.probeWait / 2, PROBE_LIMIT);
        st.(probeWait := w, probeTs := U32(now + w), ask := true)
      else st
    else st.(probeTs := 0, probeWait := 0)
  }

  function ProbeItem(st: State, cmd: int): Item {
    Item(cmd, 0, UnusedWindow(st), 0, 0, st.rcv, [])
  }

  function ProbeItems(st: State): seq<Item> {
    (if st.ask then [ProbeItem(st, CMD_ASK)] else []) + (if st.tell then [ProbeItem(st, CMD_TELL)] else [])
  }

  function SendLimit(st: State): int {
    var w := Min(st.cfg.sendWindow, st.remoteWindow);
    if st.cfg.noDelay then w else Min(w, st.cwnd)
  }

  /** One segment moves from the queue to the send buffer under the next number. */
  function AdmitOne(m: Mode, st: State): State
    requires |st.sendQueue| > 0
  {
    st.(sendQueue := st.sendQueue[1..],
        sendBuf := st.sendBuf + [st.sendQueue[0].(sn := st.nxt)],
        nxt := Norm(m, st.nxt + 1))
  }

  predicate CanAdmit(m: Mode, st: State, limit: int) {
    |st.sendQueue| > 0 && Diff(m, st.nxt, Norm(m, st.una + limit)) < 0
  }

  /** Segments move while the window has room. */
  function Admit(m: Mode, st: State, limit: int): State
    decreases |st.sendQueue|
  {
    if CanAdmit(m, st, limit) then Admit(m, AdmitOne(m, st), limit) else st
  }

  predicate TimedOut(seg: Segment, now: int) { seg.xmits != 0 && TimeDiff(now, seg.resendTs) >= 0 }

  predicate Skipped(cfg: Config, seg: Segment, now: int) {
    seg.xmits != 0 && !TimedOut(seg, now) && cfg.FastResend() > 0 && seg.fastAcks >= cfg.FastResend()
  }

  predicate NeedsSend(cfg: Config, seg: Segment, now: int) {
    seg.xmits == 0 || TimedOut(seg, now) || Skipped(cfg, seg, now)
  }

  /** A segment of the send buffer after a flush at `now`. */
  function Resend(st: State, seg: Segment, now: int): Segment {
    if seg.xmits == 0 then
      seg.(xmits := 1, rto := st.rto, resendTs := U32(now + st.rto), ts := now)
    else if TimedOut(seg, now) then
      var step := if st.cfg.noDelay then Max(st.rto / 2, RTO_NO_DELAY) else Max(st.rto, st.cfg.interval);
      var rto := Min(U32(seg.rto + step), RTO_MAX);
      seg.(xmits := U32(seg.xmits + 1), rto := rto, resendTs := U32(now + rto), ts := now)
    else if Skipped(st.cfg, seg, now) then
      seg.(xmits := U32(seg.xmits + 1), fastAcks := 0, resendTs := U32(now + seg.rto), ts := now)
    else seg
  }

  function ResendAll(st: State, buf: seq<Segment>, now: int): seq<Segment> {
    if buf == [] then [] else [Resend(st, buf[0], now)] + ResendAll(st, buf[1..], now)
  }

  function PushItem(st: State, seg: Segment, now: int): Item {
    Item(CMD_PUSH, seg.frg, UnusedWindow(st), now, seg.sn, st.rcv, seg.payload)
  }

  function PushItems(st: State, buf: seq<Segment>, now: int): seq<Item> {
    if buf == [] then []
    else (if NeedsSend(st.cfg, buf[0], now) then [PushItem(st, buf[0], now)] else []) + PushItems(st, buf[1..], now)
  }

  predicate AnyLost(buf: seq<Segment>, now: int) {
    buf != [] && (TimedOut(buf[|buf| - 1], now) || AnyLost(buf[..|buf| - 1], now))
  }

  predicate AnySkipped(cfg: Config, buf: seq<Segment>, now: int) {
    buf != [] && (Skipped(cfg, buf[|buf| - 1], now) || AnySkipped(cfg, buf[..|buf| - 1], now))
  }

  /** Whether a segment has been sent too often for the link to be alive. */
  predicate Exhausted(st: State, seg: Segment, now: int) {
    NeedsSend(st.cfg, seg, now) && Resend(st, seg, now).xmits >= DEAD_LINK_LIMIT
  }

  predicate AnyDead(st: State, buf: seq<Segment>, now: int) {
    buf != [] && (Exhausted(st, buf[|buf| - 1], now) || AnyDead(st, buf[..|buf| - 1], now))
  }

  /** The congestion window after a flush that resent skipped or lost segments. */
  function Shrink(st: State, limit: int, skipped: bool, lost: bool): State {
    if st.cfg.noDelay then st
    else
      var mss := U32(st.cfg.Mss());
      var s1 :=
        if skipped then
          var thresh := Max(U32(st.nxt - st.una) / 2, THRESH_MIN);
          var w := U32(thresh + st.cfg.FastResend());
          st.(ssthresh := thresh, cwnd := w, incr := U32(w * mss))
        else st;
      var s2 := if lost then s1.(ssthresh := Max(limit / 2, THRESH_MIN), cwnd := 1, incr := mss) else s1;
      if s2.cwnd < 1 then s2.(cwnd := 1, incr := mss) else s2
  }

  /** The send buffer, flags and windows at the point where `flush` has decided what to send. */
  function Prepared(m: Mode, st: State, now: int): State {
    var s1 := Probe(st.(acks := []), now);
    Admit(m, s1.(ask := false, tell := false), SendLimit(s1))
  }

  function Flush(m: Mode, st: State, now: int, ackOnly: bool): State {
    if !HasWork(st) && st.remoteWindow > 0 then st
    else if ackOnly then st.(acks := [])
    else
      var s1 := Prepared(m, st, now);
      var s2 := s1.(sendBuf := ResendAll(s1, s1.sendBuf, now), dead := s1.dead || AnyDead(s1, s1.sendBuf, now));
      Shrink(s2, SendLimit(st), AnySkipped(st.cfg, s1.sendBuf, now), AnyLost(s1.sendBuf, now))
  }

  /** Everything a flush sends, in order. */
  function FlushItems(m: Mode, st: State, now: int, ackOnly: bool): seq<Item> {
    if !HasWork(st) && st.remoteWindow > 0 then []
    else if ackOnly then AckItems(m, st, st.acks)
    else
      AckItems(m, st, st.acks) + ProbeItems(Probe(st, now))
      + PushItems(Prepared(m, st, now), Prepared(m, st, now).sendBuf, now)
  }
}
