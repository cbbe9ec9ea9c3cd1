/** Splitting does not depend on how the stream was cut into arrivals. */
module FramerStream {
  import opened Words
  import opened FramerModel
  import Seqs

  // ---------------------------------------------------------------- headers

  lemma {:induction false} FindEndSkips(data: seq<byte>, a: nat, b: nat)
    requires a <= b && forall k :: a <= k < b ==> !Terminates(data, k)
    ensures FindEnd(data, a) == FindEnd(data, b)
    decreases b - a
  {
    if a < b { FindEndSkips(data, a + 1, b); }
  }

  lemma HasBareSkips(data: seq<byte>, b: nat)
    requires forall k :: 0 <= k < b ==> !BareAt(data, k)
    ensures HasBare(data, 0) == HasBare(data, b)
  {
  }

  /** Where to look on for the end of a header of which `seen` bytes lack it. */
  function Back(seen: nat): nat { if seen < 3 then 0 else seen - 3 }

  /** Looking from a little before the bytes already seen finds what looking from the start finds. */
  lemma HeaderResumes(d: seq<byte>, x: seq<byte>, max: int)
    requires FindHeader(d, 0, max) == Arriving
    ensures FindHeader(d + x, Back(|d|), max) == FindHeader(d + x, 0, max)
  {
    var data, b := d + x, Back(|d|);
    forall k | 0 <= k < b ensures !Terminates(data, k) && !BareAt(data, k) {
      assert !Terminates(d, k) && !BareAt(d, k);
    }
    FindEndSkips(data, 0, b);
    HasBareSkips(data, b);
  }

  /** The header at the start of the data, or what may become one, has no empty line made of a bare LF. */
  ghost predicate CleanHeader(data: seq<byte>) {
    var i := FindEnd(data, 0);
    forall k :: 0 <= k && BareAt(data, k) ==> 0 <= i <= k
  }

  /** The start of the data, up to one byte beyond the limit. */
  function Front(data: seq<byte>, max: nat): seq<byte> { if |data| > max then data[..max + 1] else data }

  /** The header is clean, or never ends and has its bare empty line within the limit, where it is rejected anyway. */
  ghost predicate SafeHeader(data: seq<byte>, max: nat) {
    CleanHeader(data) || (FindEnd(data, 0) < 0 && HasBare(Front(data, max), 0))
  }

  lemma FoundStays(d: seq<byte>, x: seq<byte>)
    requires FindEnd(d, 0) >= 0
    ensures FindEnd(d + x, 0) == FindEnd(d, 0)
  {
    var i, data := FindEnd(d, 0), d + x;
    forall k | 0 <= k < i ensures !Terminates(data, k) { assert !Terminates(d, k); }
    FindEndSkips(data, 0, i);
    assert Terminates(data, i);
  }

  /** A header not found in a part of the data ends beyond that part. */
  lemma FoundLater(d: seq<byte>, x: seq<byte>)
    requires FindEnd(d, 0) < 0
    ensures FindEnd(d + x, 0) < 0 || FindEnd(d + x, 0) + 4 > |d|
  {
    var i := FindEnd(d + x, 0);
    if i >= 0 && i + 4 <= |d| { assert Terminates(d, i); }
  }

  lemma CleanPrefix(d: seq<byte>, x: seq<byte>)
    requires CleanHeader(d + x) && FindEnd(d, 0) < 0
    ensures !HasBare(d, 0)
  {
    forall k | 0 <= k ensures !BareAt(d, k) {
      if BareAt(d, k) {
        assert BareAt(d + x, k);
        FoundLater(d, x);
      }
    }
  }

  lemma SameLines(d: seq<byte>, x: seq<byte>, max: int)
    requires |d| >= max
    ensures TooLarge(d + x, max) == TooLarge(d, max)
  {
    forall i | 0 <= i < max && i < |d| ensures (d + x)[i] == d[i] { }
    if HasLine(d + x, max) {
      var i :| 0 <= i < max && i < |d + x| && (d + x)[i] == LF;
      assert d[i] == LF;
    }
  }

  lemma PartBare(d: seq<byte>, n: nat, k: int)
    requires n <= |d| && BareAt(d[..n], k)
    ensures BareAt(d, k)
  {
  }

  lemma BareInFront(d: seq<byte>, x: seq<byte>, max: nat)
    requires |d| > max && HasBare(Front(d + x, max), 0)
    ensures HasBare(d, 0)
  {
    var front := d[..max + 1];
    assert Front(d + x, max) == front;
    var k :| 0 <= k < |front| && BareAt(front, k);
    PartBare(d, max + 1, k);
  }

  lemma BareStays(d: seq<byte>, x: seq<byte>)
    requires HasBare(d, 0)
    ensures HasBare(d + x, 0)
  {
    var k :| 0 <= k < |d| && BareAt(d, k);
    assert BareAt(d + x, k);
  }

  /** What is decided about a safe header stays decided when more arrives. */
  lemma HeaderStays(d: seq<byte>, x: seq<byte>, max: nat)
    requires SafeHeader(d + x, max)
    ensures FindHeader(d, 0, max) != Arriving ==> FindHeader(d + x, 0, max) == FindHeader(d, 0, max)
  {
    if FindEnd(d, 0) >= 0 {
      FoundStays(d, x);
      if FindEnd(d, 0) + 4 > max { SameLines(d, x, max); }
    } else if CleanHeader(d + x) {
      CleanPrefix(d, x);
      FoundLater(d, x);
      if |d| > max {
        SameLines(d, x, max);
        if FindEnd(d + x, 0) < 0 { CleanWhole(d + x); }
      }
    } else {
      FoundLater(d, x);
      if HasBare(d, 0) { BareStays(d, x); } else if |d| > max { BareInFront(d, x, max); }
    }
  }

  /** An unsafe header can be cut so that the part is rejected and the whole is not, or not for the same reason. */
  lemma UnsafeCut(data: seq<byte>, max: nat) returns (d: seq<byte>, x: seq<byte>)
    requires !SafeHeader(data, max) && max >= 1
    ensures d + x == data && |d| > 1 && FindHeader(d, 0, max).Rejected?
            && FindHeader(d, 0, max) != FindHeader(data, 0, max)
    ensures FindEnd(data, 0) >= 0 ==> FindHeader(d, 0, max) == Rejected(BadRequest)
  {
    var i := FindEnd(data, 0);
    var k :| 0 <= k && BareAt(data, k) && !(0 <= i <= k);
    if i >= 0 {
      var n := if data[k + 1] == LF then k + 2 else k + 3;
      d, x := data[..n], data[n..];
      BareBeforeEnd(data, i, k, n);
      assert BareAt(d, k);
    } else {
      d, x := data[..Min(max + 1, |data|)], data[Min(max + 1, |data|)..];
      assert d == Front(data, max);
      assert HasBare(data, 0);
      if FindEnd(d, 0) >= 0 { FoundStays(d, x); }
    }
  }

  /** A bare empty line before the end of the header is complete before it. */
  lemma BareBeforeEnd(data: seq<byte>, i: int, k: int, n: int)
    requires i == FindEnd(data, 0) && 0 <= k < i && BareAt(data, k) && n == if data[k + 1] == LF then k + 2 else k + 3
    ensures n <= |data| && FindEnd(data[..n], 0) < 0
  {
    var d := data[..n];
    assert data[..n] + data[n..] == data;
    if FindEnd(d, 0) >= 0 { FoundStays(d, data[n..]); }
  }

  lemma CleanWhole(data: seq<byte>)
    requires CleanHeader(data) && FindEnd(data, 0) < 0
    ensures !HasBare(data, 0)
  {
  }

  // ---------------------------------------------------------------- chunks

  lemma {:induction false} LineStays(b: seq<byte>, x: seq<byte>, i: nat, size: nat)
    requires i <= 7 && ChunkLine(b, i, size) != Partial
    ensures ChunkLine(b + x, i, size) == ChunkLine(b, i, size)
    decreases |b| - i
  {
    assert (b + x)[i] == b[i];
    if HexDigit(b[i]) >= 0 && i < 7 { LineStays(b, x, i + 1, size * 16 + HexDigit(b[i])); }
  }

  lemma LineStaysAt(d: seq<byte>, x: seq<byte>, pos: nat)
    requires pos <= |d| && ChunkLine(d[pos..], 0, 0) != Partial
    ensures ChunkLine((d + x)[pos..], 0, 0) == ChunkLine(d[pos..], 0, 0)
  {
    assert (d + x)[pos..] == d[pos..] + x;
    LineStays(d[pos..], x, 0, 0);
  }

  lemma ChunkStays(d: seq<byte>, x: seq<byte>, pos: nat, limit: int)
    requires pos <= |d|
    ensures ChunkAt(d, pos, limit) != Missing ==> ChunkAt(d + x, pos, limit) == ChunkAt(d, pos, limit)
  {
    var line := ChunkLine(d[pos..], 0, 0);
    if line != Partial { LineStaysAt(d, x, pos); }
    if line.Line? {
      var end := pos + line.length + line.size + 2;
      if end <= |d| { assert (d + x)[end - 2] == d[end - 2] && (d + x)[end - 1] == d[end - 1]; }
    }
  }

  /** The walk goes on from the chunk it waited for, and what it decided stays decided. */
  lemma {:induction false} ChunksResume(d: seq<byte>, x: seq<byte>, pos: nat, limit: int)
    requires pos <= |d|
    ensures match Chunks(d, pos, limit)
            case Waits(p) => Chunks(d + x, pos, limit) == Chunks(d + x, p, limit)
            case _ => Chunks(d + x, pos, limit) == Chunks(d, pos, limit)
    decreases |d| - pos
  {
    ChunkStays(d, x, pos, limit);
    match ChunkAt(d, pos, limit)
    case Full(end) => ChunksResume(d, x, end, limit);
    case _ =>
  }

  /** The chunk that a walk waits for has not arrived. */
  lemma {:induction false} WaitsHere(data: seq<byte>, pos: nat, limit: int)
    requires pos <= |data|
    ensures Chunks(data, pos, limit).Waits? ==>
              var p := Chunks(data, pos, limit).pos; Chunks(data, p, limit) == Waits(p)
    decreases |data| - pos
  {
    match ChunkAt(data, pos, limit)
    case Full(end) => WaitsHere(data, end, limit);
    case _ =>
  }

  // ---------------------------------------------------------------- messages

  lemma FramedStays(d: seq<byte>, x: seq<byte>, h: nat, found: Inspection, limit: int)
    requires 0 < h <= |d| && Framed(d, h, found, limit) != Need
    ensures Framed(d + x, h, found, limit) == Framed(d, h, found, limit)
  {
    ChunksResume(d, x, h, limit);
  }

  lemma BodyStays(d: seq<byte>, x: seq<byte>, h: nat, opts: Options)
    requires 0 < h <= |d| && NextBody(d, h, opts) != Need
    ensures NextBody(d + x, h, opts) == NextBody(d, h, opts)
  {
    var front := d[..h];
    assert (d + x)[..h] == front;
    FramedStays(d, x, h, opts.inspect(front, opts.Room(h)), h + opts.Room(h));
  }

  /** The answer to a message does not depend on how it arrives: its header is safe, or rejected all the same. */
  ghost predicate Stable(data: seq<byte>, opts: Options)
    requires opts.Valid()
  {
    SafeHeader(data, opts.maxHeader) || (FindEnd(data, 0) >= 0 && NextMessage(data, opts) == Fails(BadRequest))
  }

  /** A message, or its failure, found in a part of the data is found in all of it. */
  lemma NextStays(d: seq<byte>, x: seq<byte>, opts: Options)
    requires opts.Valid() && Stable(d + x, opts) && NextMessage(d, opts) != Need
    ensures NextMessage(d + x, opts) == NextMessage(d, opts)
  {
    if SafeHeader(d + x, opts.maxHeader) {
      HeaderStays(d, x, opts.maxHeader);
    } else if FindEnd(d, 0) >= 0 {
      FoundStays(d, x);
      if FindEnd(d, 0) + 4 > opts.maxHeader { SameLines(d, x, opts.maxHeader); }
    } else {
      FoundLater(d, x);
    }
    match FindHeader(d, 0, opts.maxHeader)
    case Header(h) => BodyStays(d, x, h, opts);
    case _ =>
  }

  /** A message that is not stable can be cut so that the part fails otherwise than the whole is answered. */
  lemma UnstableCut(data: seq<byte>, opts: Options) returns (d: seq<byte>, x: seq<byte>)
    requires opts.Valid() && !Stable(data, opts)
    ensures d + x == data && |d| > 1 && NextMessage(d, opts).Fails? && NextMessage(data, opts) != NextMessage(d, opts)
  {
    d, x := UnsafeCut(data, opts.maxHeader);
  }

  // ---------------------------------------------------------------- the stream

  /** The answer to every message that the splitter comes to is stable. */
  ghost predicate Safe(data: seq<byte>, opts: Options)
    requires opts.Valid()
    decreases |data|
  {
    if data == [] || data == [CR] then true
    else if Blank(data) > 0 then Safe(data[Blank(data)..], opts)
    else
      Stable(data, opts)
      && match NextMessage(data, opts)
         case Whole(m) => Safe(data[m.size..], opts)
         case _ => true
  }

  /** The items of two parts of a stream. */
  function Then(a: Outcome, b: Outcome): Outcome { Outcome(a.items + b.items, b.end, a.taken + b.taken, b.rest) }

  /**
   The same items, the same end, and the same place in the stream of the message that waits or failed; what waits is the
   same as well.
   */
  predicate Agrees(a: Outcome, b: Outcome) {
    a.items == b.items && a.end == b.end && a.taken == b.taken && (!a.end ==> a.rest == b.rest)
  }

  lemma BlankStays(d: seq<byte>, x: seq<byte>)
    requires d != [] && d != [CR]
    ensures Blank(d + x) == Blank(d) && d + x != [CR]
  {
    assert (d + x)[0] == d[0];
    if |d| > 1 { assert (d + x)[1] == d[1]; }
  }

  lemma DropConcat(d: seq<byte>, x: seq<byte>, n: nat)
    requires n <= |d|
    ensures (d + x)[n..] == d[n..] + x && (d + x)[..n] == d[..n]
  {
  }

  /** What is left is the stream from the place reported, unless the stream ended with a failure answered here. */
  ghost predicate Leaves(data: seq<byte>, r: Outcome) {
    && r.taken <= |data| && (r.end ==> r.items != [] && r.items[|r.items| - 1].Failure?)
    && r.rest == if r.end && r.items[|r.items| - 1] != Failure(Handoff) then [] else data[r.taken..]
  }

  lemma LeavesSkipped(data: seq<byte>, n: nat, r: Outcome)
    requires n <= |data| && Leaves(data[n..], r)
    ensures Leaves(data, Skipped(n, r))
  {
    assert data[n..][r.taken..] == data[n + r.taken..];
  }

  lemma LeavesAfter(data: seq<byte>, item: Item, n: nat, r: Outcome)
    requires n <= |data| && Leaves(data[n..], r)
    ensures Leaves(data, Prepend(item, n, r))
  {
    assert data[n..][r.taken..] == data[n + r.taken..];
    if r.items != [] { assert ([item] + r.items)[|r.items|] == r.items[|r.items| - 1]; }
  }

  lemma {:induction false} RestIs(data: seq<byte>, opts: Options)
    ensures Leaves(data, Split(data, opts))
    decreases |data|
  {
    if data == [] || data == [CR] {
    } else if Blank(data) > 0 {
      var rest := data[Blank(data)..];
      RestIs(rest, opts);
      LeavesSkipped(data, Blank(data), Split(rest, opts));
    } else {
      match NextMessage(data, opts)
      case Whole(m) =>
        RestIs(data[m.size..], opts);
        LeavesAfter(data, Request(data[..m.size], m), m.size, Split(data[m.size..], opts));
      case _ =>
    }
  }

  /** Splitting a stream is splitting its first part, and then what that left with the second. */
  lemma {:induction false} SplitInParts(d: seq<byte>, x: seq<byte>, opts: Options)
    requires opts.Valid() && Safe(d + x, opts)
    ensures var first := Split(d, opts);
            if first.end then Agrees(Split(d + x, opts), first)
            else Safe(first.rest + x, opts) && Split(d + x, opts) == Then(first, Split(first.rest + x, opts))
    decreases |d|
  {
    var first := Split(d, opts);
    if d == [] || d == [CR] {
      assert first.items + Split(d + x, opts).items == Split(d + x, opts).items;
    } else {
      BlankStays(d, x);
      if Blank(d) > 0 {
        DropConcat(d, x, Blank(d));
        SplitInParts(d[Blank(d)..], x, opts);
      } else if NextMessage(d, opts) == Need {
        assert [] + Split(d + x, opts).items == Split(d + x, opts).items;
      } else {
        NextStays(d, x, opts);
        match NextMessage(d, opts)
        case Fails(_) =>
        case Whole(m) =>
          DropConcat(d, x, m.size);
          SplitInParts(d[m.size..], x, opts);
          PrependThen(Request(d[..m.size], m), m.size, Split(d[m.size..], opts), x, opts);
      }
    }
  }

  lemma PrependThen(item: Item, n: nat, a: Outcome, x: seq<byte>, opts: Options)
    ensures Then(Prepend(item, n, a), Split(a.rest + x, opts)) == Prepend(item, n, Then(a, Split(a.rest + x, opts)))
  {
    var b := Split(a.rest + x, opts).items;
    assert [item] + a.items + b == [item] + (a.items + b);
  }

  // ---------------------------------------------------------------- arrivals

  function Concat(arrivals: seq<seq<byte>>): seq<byte> {
    if arrivals == [] then [] else arrivals[0] + Concat(arrivals[1..])
  }

  /** The arrivals split one after the other, each with what the one before left, until the stream ends. */
  function Feed(pending: seq<byte>, arrivals: seq<seq<byte>>, opts: Options): Outcome
    decreases |arrivals|
  {
    if arrivals == [] then Outcome([], false, 0, pending)
    else
      var first := Split(pending + arrivals[0], opts);
      if first.end then first else Then(first, Feed(first.rest, arrivals[1..], opts))
  }

  /** What is left waits for more: splitting it again finds nothing. */
  lemma {:induction false} RestWaits(data: seq<byte>, opts: Options)
    ensures !Split(data, opts).end ==>
              Split(Split(data, opts).rest, opts) == Outcome([], false, 0, Split(data, opts).rest)
    decreases |data|
  {
    if data == [] || data == [CR] {
    } else if Blank(data) > 0 {
      RestWaits(data[Blank(data)..], opts);
    } else {
      match NextMessage(data, opts)
      case Whole(m) => RestWaits(data[m.size..], opts);
      case _ =>
    }
  }

  lemma FeedFirst(pending: seq<byte>, arrivals: seq<seq<byte>>, opts: Options)
    requires arrivals != []
    ensures pending + Concat(arrivals) == pending + arrivals[0] + Concat(arrivals[1..])
    ensures var first := Split(pending + arrivals[0], opts);
            Feed(pending, arrivals, opts)
            == if first.end then first else Then(first, Feed(first.rest, arrivals[1..], opts))
  {
    Seqs.Assoc(pending, arrivals[0], Concat(arrivals[1..]));
  }

  lemma {:induction false} FeedIsSplit(pending: seq<byte>, arrivals: seq<seq<byte>>, opts: Options)
    requires opts.Valid() && Safe(pending + Concat(arrivals), opts)
    requires Split(pending, opts) == Outcome([], false, 0, pending)
    ensures Agrees(Feed(pending, arrivals, opts), Split(pending + Concat(arrivals), opts))
    decreases |arrivals|
  {
    if arrivals == [] {
      assert pending + Concat(arrivals) == pending;
    } else {
      var d, x := pending + arrivals[0], Concat(arrivals[1..]);
      var first := Split(d, opts);
      FeedFirst(pending, arrivals, opts);
      SplitInParts(d, x, opts);
      if !first.end {
        RestWaits(d, opts);
        FeedIsSplit(first.rest, arrivals[1..], opts);
        AgreesThen(first, Feed(first.rest, arrivals[1..], opts), Split(first.rest + x, opts));
      }
    }
  }

  lemma AgreesThen(first: Outcome, a: Outcome, b: Outcome)
    requires Agrees(a, b)
    ensures Agrees(Then(first, a), Then(first, b))
  {
  }

  // ---------------------------------------------------------------- streams that are not safe

  lemma {:induction false} LineLocal(b: seq<byte>, x: seq<byte>, i: nat, size: nat)
    requires i <= 7 && ChunkLine(b + x, i, size).Line? && ChunkLine(b + x, i, size).length <= |b|
    ensures ChunkLine(b, i, size) == ChunkLine(b + x, i, size)
    decreases |b| - i
  {
    assert (b + x)[i] == b[i];
    if HexDigit(b[i]) >= 0 && i < 7 { LineLocal(b, x, i + 1, size * 16 + HexDigit(b[i])); }
  }

  lemma ChunkLocal(d: seq<byte>, x: seq<byte>, pos: nat, limit: int)
    requires pos <= |d|
    requires var c := ChunkAt(d + x, pos, limit); (c.Last? || c.Full?) && c.end <= |d|
    ensures ChunkAt(d, pos, limit) == ChunkAt(d + x, pos, limit)
  {
    assert (d + x)[pos..] == d[pos..] + x;
    LineLocal(d[pos..], x, 0, 0);
    var end := ChunkAt(d + x, pos, limit).end;
    assert (d + x)[end - 2] == d[end - 2] && (d + x)[end - 1] == d[end - 1];
  }

  lemma {:induction false} ChunksLocal(d: seq<byte>, x: seq<byte>, pos: nat, limit: int)
    requires pos <= |d| && Chunks(d + x, pos, limit).Ends? && Chunks(d + x, pos, limit).end <= |d|
    ensures Chunks(d, pos, limit) == Chunks(d + x, pos, limit)
    decreases |d| - pos
  {
    ChunkLocal(d, x, pos, limit);
    match ChunkAt(d + x, pos, limit)
    case Full(end) => ChunksLocal(d, x, end, limit);
    case _ =>
  }

  lemma FramedLocal(d: seq<byte>, x: seq<byte>, h: nat, found: Inspection, limit: int)
    requires 0 < h <= |d| && Framed(d + x, h, found, limit).Whole? && Framed(d + x, h, found, limit).m.size <= |d|
    ensures Framed(d, h, found, limit) == Framed(d + x, h, found, limit)
  {
    if found.chunked { ChunksLocal(d, x, h, limit); }
  }

  lemma {:induction false} EndLocal(d: seq<byte>, x: seq<byte>)
    requires 0 <= FindEnd(d + x, 0) <= |d| - 4
    ensures FindEnd(d, 0) == FindEnd(d + x, 0)
  {
    var i := FindEnd(d + x, 0);
    assert Terminates(d, i);
    forall k | 0 <= k < i ensures !Terminates(d, k) { assert !Terminates(d + x, k); }
    FindEndSkips(d, 0, i);
  }

  /** A whole message is found in its own bytes, whatever follows. */
  lemma NextLocal(d: seq<byte>, x: seq<byte>, opts: Options)
    requires NextMessage(d + x, opts).Whole? && NextMessage(d + x, opts).m.size <= |d|
    ensures NextMessage(d, opts) == NextMessage(d + x, opts)
  {
    var h := FindHeader(d + x, 0, opts.maxHeader).length;
    assert h <= NextMessage(d + x, opts).m.size;
    EndLocal(d, x);
    var front := d[..h];
    assert (d + x)[..h] == front;
    FramedLocal(d, x, h, opts.inspect(front, opts.Room(h)), h + opts.Room(h));
  }

  /** The cut `a`, `x` of the data makes its first part end with other items than the whole has. */
  ghost predicate Differs(a: seq<byte>, x: seq<byte>, data: seq<byte>, opts: Options) {
    a + x == data && |a| > 1 && Split(a, opts).end && Split(a, opts).items != Split(data, opts).items
  }

  lemma DiffersAfterBlank(a: seq<byte>, x: seq<byte>, data: seq<byte>, opts: Options)
    requires data != [] && data != [CR] && Blank(data) > 0 && Differs(a, x, data[Blank(data)..], opts)
    ensures Differs(data[..Blank(data)] + a, x, data, opts)
  {
    var n := Blank(data);
    var b := data[..n] + a;
    assert b[n..] == a && data[..n] + data[n..] == data;
    assert b + x == data[..n] + (a + x);
    assert Blank(b) == n;
  }

  lemma DiffersAfterMessage(a: seq<byte>, x: seq<byte>, data: seq<byte>, m: Message, opts: Options)
    requires data != [] && data != [CR] && Blank(data) == 0 && NextMessage(data, opts) == Whole(m)
    requires Differs(a, x, data[m.size..], opts)
    ensures Differs(data[..m.size] + a, x, data, opts)
  {
    var b, rest := data[..m.size] + a, data[m.size..];
    assert b[m.size..] == a && b[..m.size] == data[..m.size] && data[..m.size] + rest == data;
    Seqs.Assoc(data[..m.size], a, x);
    BlankStays(b, x);
    NextLocal(b, x, opts);
    TailDiffers(Request(data[..m.size], m), Split(a, opts).items, Split(rest, opts).items);
  }

  /** A stream that is not safe can be cut in two so that its first part ends otherwise than the whole goes on. */
  lemma {:induction false} UnsafeStream(data: seq<byte>, opts: Options) returns (a: seq<byte>, x: seq<byte>)
    requires opts.Valid() && !Safe(data, opts)
    ensures Differs(a, x, data, opts)
    decreases |data|
  {
    if Blank(data) > 0 {
      var a1;
      a1, x := UnsafeStream(data[Blank(data)..], opts);
      DiffersAfterBlank(a1, x, data, opts);
      a := data[..Blank(data)] + a1;
    } else if !Stable(data, opts) {
      a, x := UnstableCut(data, opts);
      BlankStays(a, x);
      FailureDiffers(a, data, opts);
    } else {
      var m := NextMessage(data, opts).m;
      var a1;
      a1, x := UnsafeStream(data[m.size..], opts);
      DiffersAfterMessage(a1, x, data, m, opts);
      a := data[..m.size] + a1;
    }
  }

  lemma FailureDiffers(a: seq<byte>, data: seq<byte>, opts: Options)
    requires |a| > 1 && |data| > 1 && Blank(a) == 0 && Blank(data) == 0
    requires NextMessage(a, opts).Fails? && NextMessage(data, opts) != NextMessage(a, opts)
    ensures Split(a, opts).end && Split(a, opts).items != Split(data, opts).items
  {
    assert Split(a, opts).items == [Failure(NextMessage(a, opts).error)];
    match NextMessage(data, opts)
    case Need =>
    case Fails(e) => assert Split(data, opts).items == [Failure(e)];
    case Whole(m) => assert Split(data, opts).items[0] == Request(data[..m.size], m);
  }

  lemma TailDiffers(item: Item, a: seq<Item>, b: seq<Item>)
    requires a != b
    ensures [item] + a != [item] + b
  {
    assert ([item] + a)[1..] == a && ([item] + b)[1..] == b;
  }

  lemma UnsafeArrivals(data: seq<byte>, opts: Options) returns (arrivals: seq<seq<byte>>)
    requires opts.Valid() && !Safe(data, opts)
    ensures Concat(arrivals) == data && !Agrees(Feed([], arrivals, opts), Split(data, opts))
  {
    var a, x := UnsafeStream(data, opts);
    arrivals := [a, x];
    assert arrivals[1..] == [x] && [x][1..] == [];
    assert Concat([x]) == x + Concat([]) == x;
    assert [] + a == a;
  }

  // ---------------------------------------------------------------- the result

  /**
   Requests are split the same however the stream arrives if and only if the stream is safe: then, for every way of
   cutting it into arrivals, the same messages and failures come out in the same order, the message that waits, failed
   or is handed off starts at the same place, and the same bytes wait, as when the whole stream arrives at once.
   */
  lemma FragmentationDoesNotMatter(data: seq<byte>, opts: Options)
    requires opts.Valid()
    ensures Safe(data, opts) <==>
              forall arrivals :: Concat(arrivals) == data ==> Agrees(Feed([], arrivals, opts), Split(data, opts))
  {
    if Safe(data, opts) {
      forall arrivals | Concat(arrivals) == data ensures Agrees(Feed([], arrivals, opts), Split(data, opts)) {
        assert [] + Concat(arrivals) == data;
        FeedIsSplit([], arrivals, opts);
      }
    } else {
      var arrivals := UnsafeArrivals(data, opts);
    }
  }
}
