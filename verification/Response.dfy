/**
 The body of an HTTP/1 response (fhttp/response.go): buffered with its length, or streamed with the declared length or
 in chunks, and read back by the chunk grammar of the request framer (section 7.1 of RFC 9112).
 */
module Response {
  import opened Words
  import opened FramerModel
  import Seqs

  const MAX_BUFFERED: int := 65536

  // ---------------------------------------------------------------- chunks written

  function DigitOf(d: int): byte
    requires 0 <= d < 16
  {
    if d < 10 then (48 + d) as byte else (87 + d) as byte
  }

  /** A number in hexadecimal. */
  function Hex(n: nat): (s: seq<byte>)
    ensures |s| > 0
  {
    if n < 16 then [DigitOf(n)] else Hex(n / 16) + [DigitOf(n % 16)]
  }

  const CRLF: seq<byte> := [CR, LF]

  /** A chunk: its size, its data and the line ends (appendChunkSize, send). */
  function EncodeChunk(data: seq<byte>): seq<byte> { Hex(|data|) + CRLF + data + CRLF }

  function EncodeChunks(pieces: seq<seq<byte>>): seq<byte> {
    if pieces == [] then [] else EncodeChunks(pieces[..|pieces| - 1]) + EncodeChunk(pieces[|pieces| - 1])
  }

  /** The chunk of size 0 and the empty trailer section. */
  function LastChunk(): seq<byte> { EncodeChunk([]) }

  function Concat(pieces: seq<seq<byte>>): seq<byte> {
    if pieces == [] then [] else Concat(pieces[..|pieces| - 1]) + pieces[|pieces| - 1]
  }

  // ---------------------------------------------------------------- chunks read back

  datatype Body = Body(data: seq<byte>, end: nat) | NoBody

  /** The data of the chunks from `pos` to the end of the message, by the framer's own reading of each chunk. */
  function Decode(wire: seq<byte>, pos: nat, limit: int): Body
    requires pos <= |wire|
    decreases |wire| - pos
  {
    match ChunkAt(wire, pos, limit)
    case Missing => NoBody
    case Broken => NoBody
    case Last(end) => Body([], end)
    case Full(end) =>
      var line := ChunkLine(wire[pos..], 0, 0);
      match Decode(wire, end, limit)
      case NoBody => NoBody
      case Body(data, last) =>
        if line.Line? && pos + line.length + line.size <= |wire|
        then Body(wire[pos + line.length..pos + line.length + line.size] + data, last) else NoBody
  }

  // ---------------------------------------------------------------- the size line

  /** The value of hexadecimal digits read after the value v. */
  function Value(v: nat, digits: seq<byte>): nat
    requires forall k :: 0 <= k < |digits| ==> HexDigit(digits[k]) >= 0
    decreases |digits|
  {
    if digits == [] then v else Value(v * 16 + HexDigit(digits[0]), digits[1..])
  }

  lemma {:induction false} ValueSnoc(v: nat, digits: seq<byte>, x: byte)
    requires HexDigit(x) >= 0 && forall k :: 0 <= k < |digits| ==> HexDigit(digits[k]) >= 0
    ensures Value(v, digits + [x]) == Value(v, digits) * 16 + HexDigit(x)
    decreases |digits|
  {
    var all := digits + [x];
    if digits != [] {
      assert all[0] == digits[0] && all[1..] == digits[1..] + [x];
      ValueSnoc(v * 16 + HexDigit(digits[0]), digits[1..], x);
    } else {
      assert all[1..] == [];
    }
  }

  lemma DigitBack(d: int)
    requires 0 <= d < 16
    ensures HexDigit(DigitOf(d)) == d
  {
  }

  lemma {:induction false} HexBack(n: nat)
    ensures forall k :: 0 <= k < |Hex(n)| ==> HexDigit(Hex(n)[k]) >= 0
    ensures Value(0, Hex(n)) == n
  {
    DigitBack(n % 16);
    if n < 16 {
      assert Hex(n)[1..] == [];
    } else {
      HexBack(n / 16);
      ValueSnoc(0, Hex(n / 16), DigitOf(n % 16));
    }
  }

  lemma {:induction false} HexShort(n: nat, digits: nat)
    requires digits >= 1 && n < Power(digits)
    ensures |Hex(n)| <= digits
    decreases digits
  {
    if n >= 16 {
      assert digits > 1;
      HexShort(n / 16, digits - 1);
    }
  }

  function Power(k: nat): nat { if k == 0 then 1 else 16 * Power(k - 1) }

  /** Reading the digits from place i on. */
  lemma {:induction false} LineOfDigits(b: seq<byte>, i: nat, v: nat, digits: seq<byte>)
    requires i + |digits| <= 7 && i + |digits| + 2 <= |b| && (i > 0 || digits != [])
    requires forall k :: 0 <= k < |digits| ==> HexDigit(digits[k]) >= 0 && b[i + k] == digits[k]
    requires b[i + |digits|] == CR && b[i + |digits| + 1] == LF
    ensures ChunkLine(b, i, v) == Line(Value(v, digits), i + |digits| + 2)
    decreases |digits|
  {
    if digits != [] {
      assert b[i] == digits[0];
      var rest := digits[1..];
      assert forall k :: 0 <= k < |rest| ==> rest[k] == digits[k + 1];
      forall k | 0 <= k < |rest| ensures HexDigit(rest[k]) >= 0 && b[i + 1 + k] == rest[k] {
        assert b[i + (k + 1)] == digits[k + 1];
      }
      LineOfDigits(b, i + 1, v * 16 + HexDigit(digits[0]), rest);
    }
  }

  /** The size line of a chunk reads back. */
  lemma LineReads(data: seq<byte>, rest: seq<byte>)
    requires |data| <= MAX_BUFFERED
    ensures ChunkLine(Hex(|data|) + CRLF + rest, 0, 0) == Line(|data|, |Hex(|data|)| + 2)
  {
    var digits := Hex(|data|);
    var b := digits + CRLF + rest;
    HexBack(|data|);
    assert Power(5) == 16 * Power(4) && Power(4) == 16 * Power(3) && Power(3) == 16 * Power(2)
           && Power(2) == 16 * Power(1);
    assert Power(1) == 16 * Power(0);
    HexShort(|data|, 5);
    LineOfDigits(b, 0, 0, digits);
  }

  // ---------------------------------------------------------------- whole bodies

  /** What the framer sees of a chunk of `data` at `pos`. */
  ghost predicate ReadsAs(wire: seq<byte>, pos: nat, data: seq<byte>, end: nat, limit: int) {
    && pos <= end <= |wire| && ChunkAt(wire, pos, limit) == (if data == [] then Last(end) else Full(end))
    && var line := ChunkLine(wire[pos..], 0, 0);
       line.Line? && line.size == |data| && pos + line.length + line.size <= |wire|
       && wire[pos + line.length..pos + line.length + line.size] == data
  }

  lemma ChunkReads(wire: seq<byte>, before: seq<byte>, data: seq<byte>, after: seq<byte>, limit: int)
    requires |data| <= MAX_BUFFERED && wire == before + EncodeChunk(data) + after
             && |before| + |EncodeChunk(data)| <= limit
    ensures ReadsAs(wire, |before|, data, |before| + |EncodeChunk(data)|, limit)
  {
    var hex := Hex(|data|);
    var rest := data + CRLF + after;
    assert wire[|before|..] == hex + CRLF + rest;
    LineReads(data, rest);
    var end := |before| + |EncodeChunk(data)|;
    assert wire[end - 2] == CR && wire[end - 1] == LF;
    var from := |before| + |hex| + 2;
    assert wire[from..from + |data|] == data;
  }

  ghost predicate Pieces(pieces: seq<seq<byte>>) { forall k :: 0 <= k < |pieces| ==> 0 < |pieces[k]| <= MAX_BUFFERED }

  lemma DecodeFull(wire: seq<byte>, pos: nat, limit: int, chunk: seq<byte>, data: seq<byte>, end: nat, last: nat)
    requires ReadsAs(wire, pos, chunk, end, limit) && chunk != [] && Decode(wire, end, limit) == Body(data, last)
    ensures Decode(wire, pos, limit) == Body(chunk + data, last)
  {
  }

  lemma Regroup(pieces: seq<seq<byte>>, tail: seq<byte>)
    requires pieces != []
    ensures var front, last := pieces[..|pieces| - 1], pieces[|pieces| - 1];
            && EncodeChunks(pieces) + tail == EncodeChunks(front) + EncodeChunk(last) + tail
            && EncodeChunks(pieces) + tail == EncodeChunks(front) + (EncodeChunk(last) + tail)
            && |EncodeChunks(pieces)| == |EncodeChunks(front)| + |EncodeChunk(last)|
  {
    Seqs.Assoc(EncodeChunks(pieces[..|pieces| - 1]), EncodeChunk(pieces[|pieces| - 1]), tail);
  }

  /** Chunks, then the rest of a body that decodes from there on. */
  lemma {:induction false} DecodePieces(wire: seq<byte>, pieces: seq<seq<byte>>, tail: seq<byte>, data: seq<byte>,
                                        limit: int)
    requires Pieces(pieces) && wire == EncodeChunks(pieces) + tail && |wire| <= limit
    requires Decode(wire, |EncodeChunks(pieces)|, limit) == Body(data, |wire|)
    ensures Decode(wire, 0, limit) == Body(Concat(pieces) + data, |wire|)
    decreases |pieces|
  {
    if pieces == [] {
      assert Concat(pieces) + data == data;
    } else {
      var front, last := pieces[..|pieces| - 1], pieces[|pieces| - 1];
      Regroup(pieces, tail);
      ChunkReads(wire, EncodeChunks(front), last, tail, limit);
      DecodeFull(wire, |EncodeChunks(front)|, limit, last, data, |EncodeChunks(pieces)|, |wire|);
      DecodePieces(wire, front, EncodeChunk(last) + tail, last + data, limit);
      Seqs.Assoc(Concat(front), last, data);
    }
  }

  /** The framer finds the end of the message where the decoder does. */
  lemma {:induction false} DecodeEnds(wire: seq<byte>, pos: nat, limit: int)
    requires pos <= |wire|
    ensures Decode(wire, pos, limit).Body? ==> Chunks(wire, pos, limit) == Ends(Decode(wire, pos, limit).end)
    decreases |wire| - pos
  {
    match ChunkAt(wire, pos, limit)
    case Full(end) => DecodeEnds(wire, end, limit);
    case _ =>
  }

  /** A chunked body reads back as the pieces that were written, and ends where it was ended. */
  lemma ChunkedReadsBack(pieces: seq<seq<byte>>)
    requires Pieces(pieces)
    ensures var wire := EncodeChunks(pieces) + LastChunk();
            Decode(wire, 0, |wire|) == Body(Concat(pieces), |wire|) && Chunks(wire, 0, |wire|) == Ends(|wire|)
  {
    var before := EncodeChunks(pieces);
    var wire := before + LastChunk();
    assert before + LastChunk() + [] == wire;
    ChunkReads(wire, before, [], [], |wire|);
    assert Decode(wire, |before|, |wire|) == Body([], |wire|);
    DecodePieces(wire, pieces, LastChunk(), [], |wire|);
    assert Concat(pieces) + [] == Concat(pieces);
    DecodeEnds(wire, 0, |wire|);
  }
}
