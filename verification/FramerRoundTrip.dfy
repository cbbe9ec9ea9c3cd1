/** Requests that were written one after the other are split off again whole, in order and with their bodies. */
module FramerRoundTrip {
  import opened Words
  import opened FramerModel
  import FramerStream
  import Response
  import Seqs

  // ---------------------------------------------------------------- headers

  /** A header as it is sent: it ends with its first empty line, does not begin with one, and is within the limit. */
  ghost predicate IsHeader(h: seq<byte>, max: int) {
    && 4 <= |h| <= max && Terminates(h, |h| - 4) && (forall k :: 0 <= k < |h| - 4 ==> !Terminates(h, k))
    && h[0] != LF && !(h[0] == CR && h[1] == LF)
  }

  /** The header is found whatever follows it. */
  lemma HeaderFound(h: seq<byte>, x: seq<byte>, max: int)
    requires IsHeader(h, max)
    ensures FindHeader(h + x, 0, max) == Header(|h|) && Blank(h + x) == 0 && h + x != [] && h + x != [CR]
  {
    var data := h + x;
    forall k | 0 <= k < |h| - 4 ensures !Terminates(data, k) { assert !Terminates(h, k); }
    FramerStream.FindEndSkips(data, 0, |h| - 4);
    assert Terminates(data, |h| - 4);
    assert data[0] == h[0] && data[1] == h[1];
  }

  /** What the splitter does at a header: it looks for the end of the message that the header announces. */
  lemma SplitAtHeader(h: seq<byte>, x: seq<byte>, opts: Options)
    requires IsHeader(h, opts.maxHeader)
    ensures var data := h + x;
            NextMessage(data, opts) == Framed(data, |h|, opts.inspect(h, opts.Room(|h|)), |h| + opts.Room(|h|))
  {
    HeaderFound(h, x, opts.maxHeader);
    assert (h + x)[..|h|] == h;
  }

  // ---------------------------------------------------------------- bodies

  /** A request as a client writes it: its header and the bytes of its body. */
  datatype Sent = Sent(header: seq<byte>, body: seq<byte>, chunked: bool)

  function BytesOf(r: Sent): seq<byte> { r.header + r.body }

  /** The body is chunks of these pieces, and the last chunk. */
  ghost predicate IsChunked(body: seq<byte>, pieces: seq<seq<byte>>) {
    Response.Pieces(pieces) && body == Response.EncodeChunks(pieces) + Response.LastChunk()
  }

  /** The header announces the body that follows: its length, or that it is chunked. */
  ghost predicate Announced(r: Sent, opts: Options) {
    var found := opts.inspect(r.header, opts.Room(|r.header|));
    && IsHeader(r.header, opts.maxHeader) && found.Accepted? && found.chunked == r.chunked
    && Fits(r.body, found, opts.Room(|r.header|))
  }

  function MessageOf(r: Sent): Message { Message(|BytesOf(r)|, |r.header|, r.chunked) }

  /** A chunk is the same wherever it is in the data, and a wider limit lets it pass as well. */
  lemma ChunkShift(h: seq<byte>, b: seq<byte>, pos: nat, small: int, limit: int)
    requires pos <= |b| && small <= limit
    ensures match ChunkAt(b, pos, small)
            case Full(end) => ChunkAt(h + b, |h| + pos, |h| + limit) == Full(|h| + end)
            case Last(end) => ChunkAt(h + b, |h| + pos, |h| + limit) == Last(|h| + end)
            case _ => true
  {
    assert (h + b)[|h| + pos..] == b[pos..];
  }

  lemma {:induction false} ChunksShift(h: seq<byte>, b: seq<byte>, pos: nat, small: int, limit: int)
    requires pos <= |b| && small <= limit && Chunks(b, pos, small).Ends?
    ensures Chunks(h + b, |h| + pos, |h| + limit) == Ends(|h| + Chunks(b, pos, small).end)
    decreases |b| - pos
  {
    ChunkShift(h, b, pos, small, limit);
    match ChunkAt(b, pos, small)
    case Full(end) => ChunksShift(h, b, end, small, limit);
    case Last(end) =>
  }

  lemma ChunkedEnds(h: seq<byte>, b: seq<byte>, room: int)
    requires |b| <= room && exists pieces :: IsChunked(b, pieces)
    ensures Chunks(h + b, |h|, |h| + room) == Ends(|h + b|)
  {
    var pieces :| IsChunked(b, pieces);
    Response.ChunkedReadsBack(pieces);
    ChunksShift(h, b, 0, |b|, room);
  }

  /** The body is what the inspection found, within the room for it. */
  ghost predicate Fits(b: seq<byte>, found: Inspection, room: int) {
    found.Accepted?
    && if found.chunked then |b| <= room && exists pieces :: IsChunked(b, pieces) else found.length == |b|
  }

  lemma BodyFound(h: seq<byte>, b: seq<byte>, x: seq<byte>, found: Inspection, room: int)
    requires h != [] && Fits(b, found, room)
    ensures Framed(h + b + x, |h|, found, |h| + room) == Whole(Message(|h + b|, |h|, found.chunked))
  {
    if found.chunked { ChunkedFound(h, b, x, room); }
  }

  lemma ChunkedFound(h: seq<byte>, b: seq<byte>, x: seq<byte>, room: int)
    requires |b| <= room && exists pieces :: IsChunked(b, pieces)
    ensures Chunks(h + b + x, |h|, |h| + room) == Ends(|h + b|)
  {
    ChunkedEnds(h, b, room);
    EndsStays(h + b, x, |h|, |h| + room);
  }

  lemma EndsStays(d: seq<byte>, x: seq<byte>, pos: nat, limit: int)
    requires pos <= |d| && Chunks(d, pos, limit).Ends?
    ensures Chunks(d + x, pos, limit) == Chunks(d, pos, limit)
  {
    FramerStream.ChunksResume(d, x, pos, limit);
  }

  /** The walk over a part of the chunks waits: what it decided would stay decided. */
  lemma PartWaits(d: seq<byte>, x: seq<byte>, pos: nat, limit: int)
    requires pos <= |d| && x != [] && Chunks(d + x, pos, limit) == Ends(|d + x|)
    ensures Chunks(d, pos, limit).Waits?
  {
    FramerStream.ChunksResume(d, x, pos, limit);
  }

  lemma BodyWaits(h: seq<byte>, b: seq<byte>, x: seq<byte>, found: Inspection, room: int)
    requires h != [] && x != [] && Fits(b + x, found, room)
    ensures Framed(h + b, |h|, found, |h| + room) == Need
  {
    if found.chunked {
      ChunkedEnds(h, b + x, room);
      Seqs.Assoc(h, b, x);
      PartWaits(h + b, x, |h|, |h| + room);
    }
  }

  /** A message that was announced is found whole, whatever follows it. */
  lemma MessageFound(r: Sent, x: seq<byte>, opts: Options)
    requires Announced(r, opts)
    ensures NextMessage(BytesOf(r) + x, opts) == Whole(MessageOf(r))
  {
    var h, b := r.header, r.body;
    Seqs.Assoc(h, b, x);
    SplitAtHeader(h, b + x, opts);
    BodyFound(h, b, x, opts.inspect(h, opts.Room(|h|)), opts.Room(|h|));
  }

  /** Until its last byte has arrived it is waited for, once the header is there. */
  lemma MessageWaits(r: Sent, n: nat, opts: Options)
    requires Announced(r, opts) && |r.header| <= n < |BytesOf(r)|
    ensures NextMessage(BytesOf(r)[..n], opts) == Need
  {
    var h, m := r.header, n - |r.header|;
    Seqs.SplitAt(r.body, m);
    assert BytesOf(r)[..n] == h + r.body[..m];
    SplitAtHeader(h, r.body[..m], opts);
    BodyWaits(h, r.body[..m], r.body[m..], opts.inspect(h, opts.Room(|h|)), opts.Room(|h|));
  }

  // ---------------------------------------------------------------- the stream

  /** A request comes out of the stream with exactly its bytes, and the splitter goes on right after it. */
  lemma RequestReadsBack(r: Sent, tail: seq<byte>, opts: Options)
    requires Announced(r, opts)
    ensures Split(BytesOf(r) + tail, opts)
            == Prepend(Request(BytesOf(r), MessageOf(r)), |BytesOf(r)|, Split(tail, opts))
  {
    var data := BytesOf(r) + tail;
    MessageFound(r, tail, opts);
    Seqs.Assoc(r.header, r.body, tail);
    HeaderFound(r.header, r.body + tail, opts.maxHeader);
    assert data[..|BytesOf(r)|] == BytesOf(r) && data[|BytesOf(r)|..] == tail;
  }

  /** Of a request that has not arrived whole nothing comes out, and nothing is taken. */
  lemma RequestWaits(r: Sent, n: nat, opts: Options)
    requires Announced(r, opts) && |r.header| <= n < |BytesOf(r)|
    ensures Split(BytesOf(r)[..n], opts) == Outcome([], false, 0, BytesOf(r)[..n])
  {
    MessageWaits(r, n, opts);
    var part := r.body[..n - |r.header|];
    assert BytesOf(r)[..n] == r.header + part;
    HeaderFound(r.header, part, opts.maxHeader);
  }

  function Written(requests: seq<Sent>): seq<byte> {
    if requests == [] then [] else BytesOf(requests[0]) + Written(requests[1..])
  }

  function Items(requests: seq<Sent>): seq<Item> {
    if requests == [] then [] else [Request(BytesOf(requests[0]), MessageOf(requests[0]))] + Items(requests[1..])
  }

  ghost predicate AllAnnounced(requests: seq<Sent>, opts: Options) {
    forall k :: 0 <= k < |requests| ==> Announced(requests[k], opts)
  }

  /** Requests written one after the other come out one after the other, with nothing left over. */
  lemma {:induction false} RequestsReadBack(requests: seq<Sent>, opts: Options)
    requires AllAnnounced(requests, opts)
    ensures Split(Written(requests), opts) == Outcome(Items(requests), false, |Written(requests)|, [])
  {
    if requests != [] {
      RequestsReadBack(requests[1..], opts);
      RequestReadsBack(requests[0], Written(requests[1..]), opts);
    }
  }

  /** The header has no empty line made of a bare LF. */
  ghost predicate CleanRequest(r: Sent) { forall k :: 0 <= k < |r.header| - 4 ==> !BareAt(r.header, k) }

  lemma CleanIsStable(r: Sent, tail: seq<byte>, opts: Options)
    requires opts.Valid() && Announced(r, opts) && CleanRequest(r)
    ensures FramerStream.Stable(BytesOf(r) + tail, opts)
  {
    var data, i := BytesOf(r) + tail, |r.header| - 4;
    Seqs.Assoc(r.header, r.body, tail);
    HeaderFound(r.header, r.body + tail, opts.maxHeader);
    forall k | 0 <= k && BareAt(data, k) ensures i <= k {
      if k < i { assert BareAt(r.header, k); }
    }
    assert FindEnd(data, 0) == i;
  }

  lemma {:induction false} CleanIsSafe(requests: seq<Sent>, opts: Options)
    requires opts.Valid() && AllAnnounced(requests, opts)
    requires forall k :: 0 <= k < |requests| ==> CleanRequest(requests[k])
    ensures FramerStream.Safe(Written(requests), opts)
  {
    if requests != [] {
      var r, tail := requests[0], Written(requests[1..]);
      CleanIsSafe(requests[1..], opts);
      CleanIsStable(r, tail, opts);
      MessageFound(r, tail, opts);
      Seqs.Assoc(r.header, r.body, tail);
      HeaderFound(r.header, r.body + tail, opts.maxHeader);
      assert (BytesOf(r) + tail)[|BytesOf(r)|..] == tail;
    }
  }

  /**
   The round trip of a connection: whatever requests a client writes, with bodies of a declared length or chunked, come
   out whole and in order, however the stream is cut into arrivals.
   */
  lemma PipelineReadsBack(requests: seq<Sent>, arrivals: seq<seq<byte>>, opts: Options)
    requires opts.Valid() && AllAnnounced(requests, opts)
    requires forall k :: 0 <= k < |requests| ==> CleanRequest(requests[k])
    requires FramerStream.Concat(arrivals) == Written(requests)
    ensures FramerStream.Agrees(FramerStream.Feed([], arrivals, opts),
                                Outcome(Items(requests), false, |Written(requests)|, []))
  {
    RequestsReadBack(requests, opts);
    CleanIsSafe(requests, opts);
    FramerStream.FragmentationDoesNotMatter(Written(requests), opts);
  }

  // ---------------------------------------------------------------- requests that cannot be framed

  /** A request that the inspection refuses is answered, or handed off with all its bytes left. */
  lemma RefusedAnswered(h: seq<byte>, tail: seq<byte>, opts: Options)
    requires IsHeader(h, opts.maxHeader) && opts.inspect(h, opts.Room(|h|)).Refused?
    ensures var e := opts.inspect(h, opts.Room(|h|)).error;
            Split(h + tail, opts) == Outcome([Failure(e)], true, 0, if e == Handoff then h + tail else [])
  {
    HeaderFound(h, tail, opts.maxHeader);
    SplitAtHeader(h, tail, opts);
  }

  /** No header ends within the limit. */
  ghost predicate Endless(data: seq<byte>, max: int) { forall k :: 0 <= k && k + 4 <= max ==> !Terminates(data, k) }

  /**
   A header beyond the limit is answered by 431 when its first line ends within the limit and by 414 when it does not; a
   header that has not ended and has an empty line made of a bare LF is answered by 400.
   */
  lemma OversizedAnswered(data: seq<byte>, opts: Options)
    requires opts.maxHeader >= 1 && |data| > opts.maxHeader && Blank(data) == 0 && Endless(data, opts.maxHeader)
    requires forall k :: 0 <= k ==> !BareAt(data, k)
    ensures Split(data, opts).items
            == [Failure(if LF in data[..opts.maxHeader] then HeaderTooLarge else UriTooLong)] && Split(data, opts).end
  {
    var max := opts.maxHeader;
    if LF in data[..max] {
      var i :| 0 <= i < max && data[..max][i] == LF;
      assert data[i] == LF;
    } else {
      forall i | 0 <= i < max ensures data[i] != LF { assert data[i] in data[..max]; }
    }
  }

  lemma BareAnswered(data: seq<byte>, k: nat, opts: Options)
    requires BareAt(data, k) && Blank(data) == 0 && forall i :: 0 <= i ==> !Terminates(data, i)
    ensures Split(data, opts).items == [Failure(BadRequest)] && Split(data, opts).end
  {
    assert HasBare(data, 0);
  }

  /** Chunks that are not plain hand the request off, with all its bytes left, whatever plain chunks come before. */
  lemma BrokenHandsOff(h: seq<byte>, pieces: seq<seq<byte>>, bad: seq<byte>, opts: Options)
    requires IsHeader(h, opts.maxHeader) && Response.Pieces(pieces) && ChunkLine(bad, 0, 0) == Bad
    requires var found := opts.inspect(h, opts.Room(|h|)); found.Accepted? && found.chunked
    requires |Response.EncodeChunks(pieces)| <= opts.Room(|h|)
    ensures var data := h + Response.EncodeChunks(pieces) + bad;
            Split(data, opts) == Outcome([Failure(Handoff)], true, 0, data)
  {
    var body := Response.EncodeChunks(pieces);
    ChunksBreak(h, pieces, bad, |h| + opts.Room(|h|));
    Seqs.Assoc(h, body, bad);
    BreaksHandsOff(h, body + bad, opts);
  }

  lemma BreaksHandsOff(h: seq<byte>, x: seq<byte>, opts: Options)
    requires IsHeader(h, opts.maxHeader) && Chunks(h + x, |h|, |h| + opts.Room(|h|)) == Breaks
    requires var found := opts.inspect(h, opts.Room(|h|)); found.Accepted? && found.chunked
    ensures Split(h + x, opts) == Outcome([Failure(Handoff)], true, 0, h + x)
  {
    HeaderFound(h, x, opts.maxHeader);
    SplitAtHeader(h, x, opts);
  }

  lemma {:induction false} ChunksBreak(h: seq<byte>, pieces: seq<seq<byte>>, bad: seq<byte>, limit: int)
    requires Response.Pieces(pieces) && ChunkLine(bad, 0, 0) == Bad && |h + Response.EncodeChunks(pieces)| <= limit
    ensures Chunks(h + Response.EncodeChunks(pieces) + bad, |h|, limit) == Breaks
  {
    var body := Response.EncodeChunks(pieces);
    ChunksPass(h, pieces, bad, limit);
    assert (h + body + bad)[|h + body|..] == bad;
  }

  /** The walk passes over plain chunks. */
  lemma {:induction false} ChunksPass(h: seq<byte>, pieces: seq<seq<byte>>, rest: seq<byte>, limit: int)
    requires Response.Pieces(pieces) && |h + Response.EncodeChunks(pieces)| <= limit
    ensures var data := h + Response.EncodeChunks(pieces) + rest;
            Chunks(data, |h|, limit) == Chunks(data, |h + Response.EncodeChunks(pieces)|, limit)
    decreases |pieces|
  {
    if pieces != [] {
      var front, last := pieces[..|pieces| - 1], pieces[|pieces| - 1];
      var before, chunk := h + Response.EncodeChunks(front), Response.EncodeChunk(last);
      var data := h + Response.EncodeChunks(pieces) + rest;
      Seqs.Assoc(h, Response.EncodeChunks(front), chunk);
      Seqs.Assoc(before, chunk, rest);
      assert data == before + chunk + rest && data == before + (chunk + rest);
      ChunksPass(h, front, chunk + rest, limit);
      Response.ChunkReads(data, before, last, rest, limit);
    }
  }
}
