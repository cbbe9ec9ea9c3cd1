/** The framer of fhttp/framer.go in place: three offsets that let it go on where the data that had arrived ended. */
module Framer {
  import opened Wrappers
  import opened Words
  import opened FramerModel
  import opened FramerStream

  /** What the framer hands to the request queue: an item, or the 100 Continue that a client waits for. */
  datatype Pushed = Push(item: Item) | Continue

  function Items(pushed: seq<Pushed>): seq<Item> {
    if pushed == [] then []
    else
      var last := pushed[|pushed| - 1];
      Items(pushed[..|pushed| - 1]) + if last.Push? then [last.item] else []
  }

  lemma ItemsPush(pushed: seq<Pushed>, p: Pushed)
    ensures Items(pushed + [p]) == Items(pushed) + if p.Push? then [p.item] else []
  {
    assert (pushed + [p])[..|pushed|] == pushed;
  }

  /** The first place where a header ends (bytes.Index). */
  method IndexEnd(data: seq<byte>, from: nat) returns (i: int)
    ensures i == FindEnd(data, from)
  {
    i := from;
    while i + 4 <= |data| && !Terminates(data, i)
      invariant from <= i && FindEnd(data, i) == FindEnd(data, from)
      decreases |data| - i
    {
      i := i + 1;
    }
    if i + 4 > |data| { i := -1; }
  }

  method ContainsBare(data: seq<byte>, from: nat) returns (found: bool)
    ensures found == HasBare(data, from)
  {
    var i := from;
    while i < |data| && !BareAt(data, i)
      invariant from <= i && forall k :: from <= k < i ==> !BareAt(data, k)
      decreases |data| - i
    {
      i := i + 1;
    }
    found := i < |data|;
  }

  /** The size line at the start of `b`. */
  method ChunkHeader(b: seq<byte>) returns (line: Line)
    ensures line == ChunkLine(b, 0, 0)
  {
    var i, size := 0, 0;
    while i < |b|
      invariant 0 <= i <= 7 && size >= 0 && ChunkLine(b, i, size) == ChunkLine(b, 0, 0)
      decreases |b| - i
    {
      var d := HexDigit(b[i]);
      if d >= 0 {
        if i == 7 { return Bad; }
        size := size * 16 + d;
      } else if b[i] == CR && i > 0 {
        if i + 1 == |b| { return Partial; }
        return if b[i + 1] == LF then Line(size, i + 2) else Bad;
      } else {
        return Bad;
      }
      i := i + 1;
    }
    return Partial;
  }

  method ReadChunk(data: seq<byte>, pos: nat, limit: int) returns (r: Chunk)
    requires pos <= |data|
    ensures r == ChunkAt(data, pos, limit)
  {
    var line := ChunkHeader(data[pos..]);
    if line == Bad { return Broken; }
    if line == Partial { return Missing; }
    if line.length + line.size + 2 > limit - pos { return Broken; }
    var end := pos + line.length + line.size + 2;
    if |data| < end { return Missing; }
    if data[end - 2] != CR || data[end - 1] != LF { return Broken; }
    return if line.size == 0 then Last(end) else Full(end);
  }

  /** The offsets kept for a message of which `seen` has arrived and is not enough. */
  ghost predicate Offsets(header: int, pos: int, size: int, seen: seq<byte>, opts: Options) {
    && 0 <= header <= LIMIT && 0 <= pos <= LIMIT && -1 <= size <= LIMIT && NextMessage(seen, opts) == Need
    && if FindHeader(seen, 0, opts.maxHeader) == Arriving then header == 0 && size == 0 && pos == |seen| > 0
       else InBody(header, pos, size, seen, opts) && Here(header, pos, size, seen, opts)
  }

  /** The header has been taken in, and the offsets say how its body is framed. */
  ghost predicate InBody(header: int, pos: int, size: int, data: seq<byte>, opts: Options) {
    && 0 < header <= |data| && header <= LIMIT && FindHeader(data, 0, opts.maxHeader) == Header(header)
    && var found := opts.inspect(data[..header], opts.Room(header));
       BodyOffsets(header, pos, size, data, found, header + opts.Room(header))
  }

  ghost predicate BodyOffsets(header: int, pos: int, size: int, data: seq<byte>, found: Inspection, limit: int) {
    && found.Accepted? && 0 < header <= |data| && header <= limit <= LIMIT && 0 <= pos <= LIMIT && -1 <= size <= LIMIT
    && if found.chunked then size == -1 && pos <= |data| && pos <= limit
        && Chunks(data, pos, limit) == Chunks(data, header, limit)
       else size == header + found.length
  }

  /** The walk over the chunks stopped at `pos`. */
  ghost predicate Here(header: int, pos: int, size: int, data: seq<byte>, opts: Options) {
    size < 0 ==> 0 < header <= |data| && 0 <= pos && Chunks(data, header, header + opts.Room(header)) == Waits(pos)
  }

  lemma BodyResumes(header: int, pos: int, size: int, d: seq<byte>, x: seq<byte>, found: Inspection, limit: int)
    requires BodyOffsets(header, pos, size, d, found, limit) && (size < 0 ==> Chunks(d, header, limit) == Waits(pos))
    ensures BodyOffsets(header, pos, size, d + x, found, limit)
  {
    ChunksResume(d, x, header, limit);
  }

  /** The header is there, and this is what was found in it. */
  ghost predicate Inspected(data: seq<byte>, header: int, opts: Options, found: Inspection) {
    && 0 < header <= |data| && header <= LIMIT && FindHeader(data, 0, opts.maxHeader) == Header(header)
    && found == opts.inspect(data[..header], opts.Room(header))
  }

  lemma InspectedStays(seen: seq<byte>, x: seq<byte>, header: int, opts: Options, found: Inspection)
    requires Inspected(seen, header, opts, found)
    ensures Inspected(seen + x, header, opts, found)
  {
    FoundStays(seen, x);
    var front := seen[..header];
    assert (seen + x)[..header] == front;
  }

  lemma InspectedBody(header: int, pos: int, size: int, data: seq<byte>, opts: Options, found: Inspection)
    requires Inspected(data, header, opts, found)
    ensures InBody(header, pos, size, data, opts)
            <==> BodyOffsets(header, pos, size, data, found, header + opts.Room(header))
    ensures NextMessage(data, opts) == Framed(data, header, found, header + opts.Room(header))
  {
  }

  lemma BodyGoesOn(header: int, pos: int, size: int, seen: seq<byte>, x: seq<byte>, opts: Options, found: Inspection)
    requires Inspected(seen, header, opts, found)
    requires BodyOffsets(header, pos, size, seen, found, header + opts.Room(header))
             && Here(header, pos, size, seen, opts)
    ensures InBody(header, pos, size, seen + x, opts)
  {
    InspectedStays(seen, x, header, opts, found);
    BodyResumes(header, pos, size, seen, x, found, header + opts.Room(header));
    InspectedBody(header, pos, size, seen + x, opts, found);
  }

  lemma BodyKnown(header: int, pos: int, size: int, seen: seq<byte>, opts: Options)
    requires Offsets(header, pos, size, seen, opts) && header > 0
    ensures InBody(header, pos, size, seen, opts) && Here(header, pos, size, seen, opts)
  {
  }

  /** A header found before stays found, and the walk over its chunks goes on where it stopped. */
  lemma Resumed(header: int, pos: int, size: int, seen: seq<byte>, data: seq<byte>, opts: Options)
    requires InBody(header, pos, size, seen, opts) && Here(header, pos, size, seen, opts) && seen <= data
    ensures InBody(header, pos, size, data, opts)
  {
    assert data == seen + data[|seen|..];
    BodyGoesOn(header, pos, size, seen, data[|seen|..], opts, opts.inspect(seen[..header], opts.Room(header)));
  }

  /** The body has not all arrived: the offsets are kept. */
  lemma BodyWaits(header: int, pos: int, size: int, data: seq<byte>, found: Inspection, opts: Options)
    requires Inspected(data, header, opts, found) && NextMessage(data, opts) == Need
    requires BodyOffsets(header, pos, size, data, found, header + opts.Room(header))
    requires size < 0 ==> Chunks(data, header, header + opts.Room(header)) == Waits(pos)
    ensures Offsets(header, pos, size, data, opts)
  {
    InspectedBody(header, pos, size, data, opts, found);
  }

  /** The items of the first `taken` bytes, and those of the bytes that follow. */
  ghost predicate Remains(done: seq<Item>, taken: nat, rest: seq<byte>, data: seq<byte>, opts: Options) {
    Then(Outcome(done, false, taken, []), FramerModel.Split(rest, opts)) == FramerModel.Split(data, opts)
  }

  lemma SplitBlank(done: seq<Item>, taken: nat, rest: seq<byte>, data: seq<byte>, opts: Options)
    requires rest != [] && rest != [CR] && Blank(rest) > 0 && Remains(done, taken, rest, data, opts)
    ensures Remains(done, taken + Blank(rest), rest[Blank(rest)..], data, opts)
  {
  }

  lemma SplitMessage(done: seq<Item>, taken: nat, rest: seq<byte>, data: seq<byte>, opts: Options, m: Message)
    requires rest != [] && rest != [CR] && Blank(rest) == 0 && NextMessage(rest, opts) == Whole(m)
    requires Remains(done, taken, rest, data, opts)
    ensures 0 < m.size <= |rest|
    ensures Remains(done + [Request(rest[..m.size], m)], taken + m.size, rest[m.size..], data, opts)
  {
    var after := FramerModel.Split(rest[m.size..], opts).items;
    assert done + ([Request(rest[..m.size], m)] + after) == done + [Request(rest[..m.size], m)] + after;
  }

  lemma SplitFails(done: seq<Item>, taken: nat, rest: seq<byte>, data: seq<byte>, opts: Options, e: Error)
    requires rest != [] && rest != [CR] && Blank(rest) == 0 && NextMessage(rest, opts) == Fails(e)
    requires Remains(done, taken, rest, data, opts)
    ensures FramerModel.Split(data, opts)
            == Outcome(done + [Failure(e)], true, taken, if e == Handoff then rest else [])
  {
  }

  lemma SplitEnd(done: seq<Item>, taken: nat, rest: seq<byte>, data: seq<byte>, opts: Options)
    requires rest == [] || rest == [CR] || (Blank(rest) == 0 && NextMessage(rest, opts) == Need)
    requires Remains(done, taken, rest, data, opts)
    ensures FramerModel.Split(data, opts) == Outcome(done, false, taken, rest)
  {
    assert done + [] == done;
  }

  /** What one pass finds: an empty line, a message, a failure, or bytes that have to wait. */
  datatype Step = Skip(n: nat) | Take(m: Message) | Fail(error: Error) | Wait(expectContinue: bool)

  ghost predicate Takes(step: Step, rest: seq<byte>, opts: Options) {
    match step
    case Skip(n) => rest != [] && rest != [CR] && n == Blank(rest) > 0
    case Take(m) => rest != [] && rest != [CR] && Blank(rest) == 0 && NextMessage(rest, opts) == Whole(m)
    case Fail(e) => rest != [] && rest != [CR] && Blank(rest) == 0 && NextMessage(rest, opts) == Fails(e)
    case Wait(_) => rest == [CR] || (Blank(rest) == 0 && NextMessage(rest, opts) == Need)
  }

  lemma TakesOn(step: Step, done: seq<Item>, taken: nat, rest: seq<byte>, data: seq<byte>, opts: Options)
    requires Takes(step, rest, opts) && Remains(done, taken, rest, data, opts)
    ensures step.Skip? ==> 0 < step.n <= |rest| && Remains(done, taken + step.n, rest[step.n..], data, opts)
    ensures step.Take? ==>
              var n := step.m.size;
              0 < n <= |rest| && Remains(done + [Request(rest[..n], step.m)], taken + n, rest[n..], data, opts)
    ensures step.Fail? ==>
              FramerModel.Split(data, opts)
              == Outcome(done + [Failure(step.error)], true, taken, if step.error == Handoff then rest else [])
    ensures step.Wait? ==> FramerModel.Split(data, opts) == Outcome(done, false, taken, rest)
  {
    match step
    case Skip(n) => SplitBlank(done, taken, rest, data, opts);
    case Take(m) => SplitMessage(done, taken, rest, data, opts, m);
    case Fail(e) => SplitFails(done, taken, rest, data, opts, e);
    case Wait(_) => SplitEnd(done, taken, rest, data, opts);
  }

  class Framer {
    var header: int
    var pos: int
    var size: int

    predicate Fresh()
      reads this
    {
      header == 0 && pos == 0 && size == 0
    }

    /** The offsets are those of a message of which `seen` has arrived and is not enough. */
    ghost predicate After(seen: seq<byte>, opts: Options)
      reads this
    {
      Offsets(header, pos, size, seen, opts)
    }

    /** What has been seen of the pending bytes: nothing yet of an empty line or of a lone CR. */
    ghost predicate Pending(seen: seq<byte>, opts: Options)
      reads this
    {
      if Fresh() then seen == [] || seen == [CR]
      else seen != [] && seen != [CR] && Blank(seen) == 0 && After(seen, opts)
    }

    constructor ()
      ensures Fresh()
    {
      header, pos, size := 0, 0, 0;
    }

    /** Looks for the end of the header, a little before the bytes known to lack it. */
    method LookForHeader(data: seq<byte>, max: int, ghost seen: seq<byte>) returns (r: Header)
      requires header == 0 && size == 0 && 0 <= max <= LIMIT && pos == |seen| && seen <= data
      requires |seen| > 0 ==> FindHeader(seen, 0, max) == Arriving
      modifies this`pos
      ensures r == FindHeader(data, 0, max)
      ensures pos == if r == Arriving then |data| else old(pos)
    {
      var from := if pos < 3 then 0 else pos - 3;
      if |seen| > 0 {
        assert data == seen + data[|seen|..];
        HeaderResumes(seen, data[|seen|..], max);
      }
      assert FindHeader(data, from, max) == FindHeader(data, 0, max);
      var i := IndexEnd(data, from);
      if i < 0 {
        var bare := ContainsBare(data, from);
        if bare { return Rejected(BadRequest); }
        if |data| > max { return Rejected(TooLarge(data, max)); }
        pos := |data|;
        return Arriving;
      }
      if i + 4 > max { return Rejected(TooLarge(data, max)); }
      return Header(i + 4);
    }

    /** Goes over the chunks that have arrived, from `pos` on. */
    method WalkChunks(data: seq<byte>, limit: int) returns (r: Walk)
      requires 0 <= pos <= |data|
      modifies this`pos
      ensures r == Chunks(data, old(pos), limit)
      ensures r.Waits? ==> pos == r.pos
      ensures old(pos) <= pos && (pos == old(pos) || pos <= limit)
    {
      while true
        invariant old(pos) <= pos <= |data| && (pos == old(pos) || pos <= limit)
        invariant Chunks(data, pos, limit) == Chunks(data, old(pos), limit)
        decreases |data| - pos
      {
        var chunk := ReadChunk(data, pos, limit);
        match chunk
        case Missing => return Waits(pos);
        case Broken => return Breaks;
        case Last(end) => return Ends(end);
        case Full(end) => pos := end;
      }
    }

    /** Looks for the header and takes it in: `r` is the answer when there is nothing to take. */
    method TakeHeader(data: seq<byte>, opts: Options, ghost seen: seq<byte>)
      returns (r: Option<Next>, expectContinue: bool)
      requires opts.Valid() && |data| > 0 && seen <= data && header == 0
               && (if Fresh() then seen == [] else After(seen, opts))
      modifies this
      ensures r.Some? ==> r.value == NextMessage(data, opts) && !r.value.Whole?
      ensures r.Some? && r.value.Need? ==> After(data, opts) && !Fresh()
      ensures r.None? ==> InBody(header, pos, size, data, opts)
    {
      expectContinue := false;
      var head := LookForHeader(data, opts.maxHeader, seen);
      if head.Arriving? { return Some(Need), false; }
      if head.Rejected? { return Some(Fails(head.error)), false; }
      var h := head.length;
      var found := opts.inspect(data[..h], opts.Room(h));
      if found.Refused? { return Some(Fails(found.error)), false; }
      header := h;
      if found.chunked {
        pos, size := h, -1;
        expectContinue := found.waits && |data| == h;
      } else {
        size := h + found.length;
        expectContinue := found.waits && |data| < size;
      }
      r := None;
    }

    /** The end of the message whose header has been taken in. */
    method TakeBody(data: seq<byte>, ghost found: Inspection, limit: int) returns (r: Next)
      requires BodyOffsets(header, pos, size, data, found, limit)
      modifies this
      ensures r == Framed(data, old(header), found, limit)
      ensures r.Whole? ==> Fresh()
      ensures r.Need? ==> BodyOffsets(header, pos, size, data, found, limit) && header == old(header)
                          && (size < 0 ==> Chunks(data, header, limit) == Waits(pos))
    {
      if size < 0 {
        var walk := WalkChunks(data, limit);
        if walk.Breaks? { header, pos, size := 0, 0, 0; return Fails(Handoff); }
        if walk.Waits? { WaitsHere(data, header, limit); return Need; }
        r := Whole(Message(walk.end, header, true));
      } else {
        if |data| < size { return Need; }
        r := Whole(Message(size, header, false));
      }
      header, pos, size := 0, 0, 0;
    }

    method FinishMessage(data: seq<byte>, opts: Options, ghost found: Inspection)
      returns (r: Next)
      requires Inspected(data, header, opts, found)
      requires BodyOffsets(header, pos, size, data, found, header + opts.Room(header))
      modifies this
      ensures r == Framed(data, old(header), found, old(header) + opts.Room(old(header)))
      ensures r.Need? && NextMessage(data, opts) == Need ==> After(data, opts) && !Fresh()
      ensures r.Whole? ==> Fresh()
    {
      r := TakeBody(data, found, header + opts.Room(header));
      if r.Need? && NextMessage(data, opts) == Need { BodyWaits(header, pos, size, data, found, opts); }
    }

    /**
     The message at the start of `data`, whose bytes `seen` were there before: the answer does not depend on that. The
     offsets that are kept fit an int32.
     */
    method Next(data: seq<byte>, opts: Options, ghost seen: seq<byte>) returns (r: Next, expectContinue: bool)
      requires opts.Valid() && |data| > 0 && seen <= data && (if Fresh() then seen == [] else After(seen, opts))
      modifies this
      ensures r == NextMessage(data, opts)
      ensures r.Need? ==> After(data, opts) && !Fresh()
      ensures r.Whole? ==> Fresh()
    {
      expectContinue := false;
      if header == 0 {
        var early;
        early, expectContinue := TakeHeader(data, opts, seen);
        if early.Some? { return early.value, false; }
      } else {
        BodyKnown(header, pos, size, seen, opts);
        Resumed(header, pos, size, seen, data, opts);
      }
      ghost var found := opts.inspect(data[..header], opts.Room(header));
      InspectedBody(header, pos, size, data, opts, found);
      r := FinishMessage(data, opts, found);
      if !r.Need? { expectContinue := false; }
    }

    /** One pass of the loop in `Split` over the bytes that follow. */
    method SplitOne(rest: seq<byte>, opts: Options, ghost seen: seq<byte>) returns (step: Step)
      requires opts.Valid() && rest != [] && seen <= rest && Pending(seen, opts)
      modifies this
      ensures Takes(step, rest, opts)
      ensures step.Skip? || step.Take? ==> Fresh()
      ensures step.Wait? ==> Pending(rest, opts)
    {
      if Fresh() {
        if Blank(rest) > 0 { return Skip(Blank(rest)); }
        if rest == [CR] { return Wait(false); }
      } else {
        assert seen + rest[|seen|..] == rest;
        BlankStays(seen, rest[|seen|..]);
      }
      var r, expectContinue := Next(rest, opts, if Fresh() then [] else seen);
      match r
      case Fails(e) => return Fail(e);
      case Need => return Wait(expectContinue);
      case Whole(m) => return Take(m);
    }

    /**
     Splits the messages off the start of `data`, whose bytes `seen` were pending before. What it pushes, the 100
     Continues aside, how it ends and what it leaves are what the bytes alone say.
     */
    method Split(data: seq<byte>, opts: Options, ghost seen: seq<byte>)
      returns (consumed: nat, end: bool, pushed: seq<Pushed>)
      requires opts.Valid() && seen <= data && Pending(seen, opts)
      modifies this
      ensures consumed <= |data|
      ensures var r := FramerModel.Split(data, opts);
              Items(pushed) == r.items && end == r.end && data[consumed..] == r.rest && (!end ==> consumed == r.taken)
      ensures !end ==> Pending(data[consumed..], opts)
    {
      consumed, end, pushed := 0, false, [];
      ghost var known := seen;
      assert data[0..] == data;
      assert Remains([], 0, data, data, opts) by {
        assert [] + FramerModel.Split(data, opts).items == FramerModel.Split(data, opts).items;
      }
      while consumed < |data|
        invariant 0 <= consumed <= |data| && !end && known <= data[consumed..] && Pending(known, opts)
        invariant Remains(Items(pushed), consumed, data[consumed..], data, opts)
        decreases |data| - consumed
      {
        var rest := data[consumed..];
        var step := SplitOne(rest, opts, known);
        TakesOn(step, Items(pushed), consumed, rest, data, opts);
        match step
        case Skip(n) =>
          consumed, known := consumed + n, [];
          assert data[consumed..] == rest[n..];
        case Take(m) =>
          ItemsPush(pushed, Push(Request(rest[..m.size], m)));
          pushed := pushed + [Push(Request(rest[..m.size], m))];
          consumed, known := consumed + m.size, [];
          assert data[consumed..] == rest[m.size..];
        case Fail(e) =>
          ItemsPush(pushed, Push(Failure(e)));
          pushed := pushed + [Push(Failure(e))];
          if e != Handoff { consumed := |data|; }
          end := true;
          return;
        case Wait(expectContinue) =>
          if expectContinue { ItemsPush(pushed, Continue); pushed := pushed + [Continue]; }
          return;
      }
      SplitEnd(Items(pushed), consumed, data[consumed..], data, opts);
    }
  }
}
