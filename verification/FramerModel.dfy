/**
 Where the HTTP/1 requests of a byte stream end (fhttp/framer.go), as functions of the bytes alone. Sections 2.2, 6.3
 and 7.1 of RFC 9112 are the standard. What `inspectHeader` finds in a header enters as a function of the header.
 */
module FramerModel {
  import opened Words

  const CR: byte := 13
  const LF: byte := 10
  const LIMIT: int := 0x3FFF_FFFF

  datatype Error = HeaderTooLarge | UriTooLong | BadRequest | Handoff

  /** What a header says of the body: refused, or its length, or that it is chunked. */
  datatype Inspection = Refused(error: Error) | Accepted(length: nat, chunked: bool, waits: bool)

  type Inspect = (seq<byte>, int) -> Inspection

  datatype Options = Options(maxHeader: int, maxBody: int, inspect: Inspect)
  {
    /** The limits of Options.withDefaults, and a body length within what was allowed. */
    ghost predicate Valid() {
      && 1 <= maxHeader <= LIMIT && 1 <= maxBody <= LIMIT
      && (forall h, m :: inspect(h, m).Accepted? ==> inspect(h, m).length <= m || m < 0)
    }

    /** The bytes that a body may take after a header of `h` bytes. */
    function Room(h: int): int { Min(maxBody, LIMIT - h) }
  }

  datatype Message = Message(size: int, header: int, chunked: bool)

  /** What is at the start of the data: not enough, a whole message, or a request that cannot be framed. */
  datatype Next = Need | Whole(m: Message) | Fails(error: Error)

  // ---------------------------------------------------------------- the header

  predicate Terminates(data: seq<byte>, i: int) {
    0 <= i <= |data| - 4 && data[i] == CR && data[i + 1] == LF && data[i + 2] == CR && data[i + 3] == LF
  }

  /** An empty line made of a bare LF begins at `i`. */
  predicate BareAt(data: seq<byte>, i: int) {
    0 <= i < |data| && data[i] == LF
    && ((i + 1 < |data| && data[i + 1] == LF) || (i + 2 < |data| && data[i + 1] == CR && data[i + 2] == LF))
  }

  /** The first place from `from` on where the header ends, or -1. */
  function FindEnd(data: seq<byte>, from: nat): (i: int)
    ensures i == -1 || (from <= i && Terminates(data, i))
    ensures i == -1 ==> forall k :: from <= k ==> !Terminates(data, k)
    ensures forall k :: from <= k < i ==> !Terminates(data, k)
    decreases |data| - from
  {
    if from + 4 > |data| then -1 else if Terminates(data, from) then from else FindEnd(data, from + 1)
  }

  predicate HasBare(data: seq<byte>, from: nat) { exists i :: from <= i < |data| && BareAt(data, i) }

  predicate HasLine(data: seq<byte>, n: int) { exists i :: 0 <= i < n && i < |data| && data[i] == LF }

  /** Which limit a header beyond `max` bytes breaks: its first line's, or the whole header's. */
  function TooLarge(data: seq<byte>, max: int): Error { if HasLine(data, max) then HeaderTooLarge else UriTooLong }

  datatype Header = Arriving | Header(length: int) | Rejected(error: Error)

  /** The header at the start of the data, looked for from `from` on. */
  function FindHeader(data: seq<byte>, from: nat, max: int): (r: Header)
    ensures r.Header? ==> 4 <= r.length <= |data| && r.length <= max
  {
    var i := FindEnd(data, from);
    if i < 0 then
      if HasBare(data, from) then Rejected(BadRequest)
      else if |data| > max then Rejected(TooLarge(data, max))
      else Arriving
    else if i + 4 > max then Rejected(TooLarge(data, max))
    else Header(i + 4)
  }

  // ---------------------------------------------------------------- chunks

  datatype Line = Partial | Bad | Line(size: int, length: int)

  function HexDigit(c: byte): (d: int)
    ensures -1 <= d < 16
  {
    if 48 <= c <= 57 then c as int - 48
    else if 97 <= c <= 102 then c as int - 87
    else if 65 <= c <= 70 then c as int - 55
    else -1
  }

  /** The size line of a chunk, read from its digit `i` on with the value of those before. */
  function ChunkLine(b: seq<byte>, i: nat, size: nat): (r: Line)
    requires i <= 7
    ensures r.Line? ==> i < r.length - 1 && r.length <= |b| && r.length <= 9 && r.size >= 0
    decreases |b| - i
  {
    if i >= |b| then Partial
    else if HexDigit(b[i]) >= 0 then
      if i >= 7 then Bad else ChunkLine(b, i + 1, size * 16 + HexDigit(b[i]))
    else if b[i] == CR && i > 0 then
      if i + 1 == |b| then Partial else if b[i + 1] == LF then Line(size, i + 2) else Bad
    else Bad
  }

  /** The chunk at a position: not all there, not a plain chunk, the last one, or one before it; with its end. */
  datatype Chunk = Missing | Broken | Last(end: nat) | Full(end: nat)

  function ChunkAt(data: seq<byte>, pos: nat, limit: int): (r: Chunk)
    requires pos <= |data|
    ensures r.Last? || r.Full? ==> pos < r.end <= |data| && r.end <= limit
  {
    match ChunkLine(data[pos..], 0, 0)
    case Bad => Broken
    case Partial => Missing
    case Line(size, n) =>
      var end := pos + n + size + 2;
      if n + size + 2 > limit - pos then Broken
      else if |data| < end then Missing
      else if data[end - 2] != CR || data[end - 1] != LF then Broken
      else if size == 0 then Last(end)
      else Full(end)
  }

  /** Where the walk over the chunks stops: before one that has not arrived, at the end of the message, or for good. */
  datatype Walk = Waits(pos: nat) | Ends(end: nat) | Breaks

  function Chunks(data: seq<byte>, pos: nat, limit: int): (r: Walk)
    requires pos <= |data|
    ensures r.Waits? ==> pos <= r.pos <= |data| && (r.pos <= limit || r.pos == pos)
    ensures r.Ends? ==> pos < r.end <= |data| && r.end <= limit
    decreases |data| - pos
  {
    match ChunkAt(data, pos, limit)
    case Missing => Waits(pos)
    case Broken => Breaks
    case Last(end) => Ends(end)
    case Full(end) => Chunks(data, end, limit)
  }

  // ---------------------------------------------------------------- one message

  /** The message with this header, once its header has been inspected. */
  function Framed(data: seq<byte>, h: nat, found: Inspection, limit: int): (r: Next)
    requires 0 < h <= |data|
    ensures r.Whole? ==> 0 < r.m.size <= |data| && r.m.header == h
  {
    match found
    case Refused(e) => Fails(e)
    case Accepted(length, chunked, _) =>
      if chunked then
        match Chunks(data, h, limit)
        case Waits(_) => Need
        case Ends(end) => Whole(Message(end, h, true))
        case Breaks => Fails(Handoff)
      else if |data| < h + length then Need
      else Whole(Message(h + length, h, false))
  }

  function NextBody(data: seq<byte>, h: nat, opts: Options): (r: Next)
    requires 0 < h <= |data|
    ensures r.Whole? ==> 0 < r.m.size <= |data|
  {
    Framed(data, h, opts.inspect(data[..h], opts.Room(h)), h + opts.Room(h))
  }

  /** The message at the start of the data. */
  function NextMessage(data: seq<byte>, opts: Options): (r: Next)
    ensures r.Whole? ==> 0 < r.m.size <= |data|
  {
    match FindHeader(data, 0, opts.maxHeader)
    case Arriving => Need
    case Rejected(e) => Fails(e)
    case Header(h) => NextBody(data, h, opts)
  }

  // ---------------------------------------------------------------- the stream

  /** An item of the request queue: a message with its bytes, or the status that ends the stream. */
  datatype Item = Request(bytes: seq<byte>, m: Message) | Failure(error: Error)

  /**
   The items of the data; whether it ended; how many bytes come before the message that waits or failed; and what is
   left: that message, or nothing after a failure that is answered here.
   */
  datatype Outcome = Outcome(items: seq<Item>, end: bool, taken: nat, rest: seq<byte>)

  /** The length of an empty line at the start of the data: CRLF or a bare LF. */
  function Blank(data: seq<byte>): (n: nat)
    ensures n <= |data|
  {
    if |data| > 0 && data[0] == LF then 1
    else if |data| > 1 && data[0] == CR && data[1] == LF then 2
    else 0
  }

  function Skipped(n: nat, r: Outcome): Outcome { r.(taken := n + r.taken) }

  function Prepend(item: Item, n: nat, r: Outcome): Outcome { Outcome([item] + r.items, r.end, n + r.taken, r.rest) }

  function Split(data: seq<byte>, opts: Options): Outcome
    decreases |data|
  {
    if data == [] || data == [CR] then Outcome([], false, 0, data)
    else if Blank(data) > 0 then Skipped(Blank(data), Split(data[Blank(data)..], opts))
    else
      match NextMessage(data, opts)
      case Need => Outcome([], false, 0, data)
      case Fails(e) => Outcome([Failure(e)], true, 0, if e == Handoff then data else [])
      case Whole(m) => Prepend(Request(data[..m.size], m), m.size, Split(data[m.size..], opts))
  }
}
