/** The response writer of fhttp/response.go in place. What the connection does with a write enters as a parameter. */
module ResponseWriter {
  import opened Words
  import opened FramerModel
  import opened Response
  import Seqs

  /** What the writer looks at in the request. */
  datatype Request = Request(http11: bool, head: bool, connect: bool, close: bool)

  /** The handler's header when the status is written: its Content-Length, -1 for none, and whether it says close. */
  datatype Header = Header(declared: int, closing: bool)

  /** What the header says about the end of the body. */
  datatype Framing = Unsaid | NoContent | Length(n: int) | ChunkedBody | UntilClose

  const RESET_CONTENT: int := 205

  predicate BodyAllowedForStatus(status: int) { status >= 200 && status != 204 && status != 304 }

  /** The body on the wire ends where its framing says, and is the content. */
  ghost predicate SelfDelimiting(framing: Framing, wire: seq<byte>, content: seq<byte>) {
    match framing
    case Length(n) => wire == content && |wire| == n
    case ChunkedBody => Decode(wire, 0, |wire|) == Body(content, |wire|) && Chunks(wire, 0, |wire|) == Ends(|wire|)
    case _ => false
  }

  lemma EncodeSnoc(pieces: seq<seq<byte>>, piece: seq<byte>)
    ensures EncodeChunks(pieces + [piece]) == EncodeChunks(pieces) + EncodeChunk(piece)
    ensures Concat(pieces + [piece]) == Concat(pieces) + piece
  {
    assert (pieces + [piece])[..|pieces|] == pieces;
  }

  /** The pieces as they go out. */
  function Put(chunked: bool, pieces: seq<seq<byte>>): seq<byte> {
    if chunked then EncodeChunks(pieces) else Concat(pieces)
  }

  lemma PutSnoc(chunked: bool, pieces: seq<seq<byte>>, piece: seq<byte>)
    requires Pieces(pieces) && 0 < |piece| <= MAX_BUFFERED
    ensures Put(chunked, pieces + [piece]) == Put(chunked, pieces) + if chunked then EncodeChunk(piece) else piece
    ensures Concat(pieces + [piece]) == Concat(pieces) + piece && Pieces(pieces + [piece])
  {
    EncodeSnoc(pieces, piece);
  }

  /** The last piece and the end of a chunked body. */
  lemma ChunkedEnd(pieces: seq<seq<byte>>, body: seq<byte>)
    requires Pieces(pieces) && 0 < |body| <= MAX_BUFFERED
    ensures SelfDelimiting(ChunkedBody, EncodeChunks(pieces) + EncodeChunk(body) + LastChunk(), Concat(pieces) + body)
  {
    PutSnoc(true, pieces, body);
    ChunkedReadsBack(pieces + [body]);
  }

  class Writer {
    const req: Request
    var wroteHeader: bool
    var status: int
    var declared: int
    var closing: bool
    var remaining: int
    var body: seq<byte>
    var streamed: bool
    var chunked: bool
    var discard: bool
    var keepAlive: bool
    var framing: Framing
    var failed: bool

    // The bytes accepted from the handler, the bytes of the body put out, and the pieces they went out in.
    ghost var content: seq<byte>
    ghost var wire: seq<byte>
    ghost var pieces: seq<seq<byte>>

    predicate BodyAllowed()
      reads this
    {
      BodyAllowedForStatus(status) && !(req.connect && 200 <= status < 300)
    }

    /** The choice that writeHeader makes, as it is when the header goes out. */
    ghost predicate Decided()
      reads this
    {
      && discard == (req.head || !BodyAllowed() || status == RESET_CONTENT)
      && chunked == (streamed && !discard && declared < 0 && req.http11)
      && (keepAlive <==>
            !req.close && !req.connect && !closing && (discard || !streamed || declared >= 0 || req.http11))
      && (!discard && declared >= 0 ==> framing == Length(declared))
      && (!discard && declared < 0 && streamed ==> framing == if req.http11 then ChunkedBody else UntilClose)
    }

    /** What has gone out is the pieces so far. */
    ghost predicate Ready()
      reads this
    {
      && Pieces(pieces)
      && if streamed then Decided() && wire == (if discard then [] else Put(chunked, pieces))
         else wire == [] && pieces == []
    }

    ghost predicate Valid()
      reads this
    {
      && |body| <= MAX_BUFFERED
      && (!wroteHeader ==> !streamed && content == [])
      && (!failed ==>
            && (wroteHeader ==> if declared >= 0 then remaining == declared - |content| >= 0 else remaining == -1)
            && Ready()
            && (!streamed ==> body == content)
            && (streamed ==> wroteHeader && (!discard ==> body != [] && content == Concat(pieces) + body)))
    }

    constructor (req: Request)
      ensures Valid() && content == [] && !failed
    {
      this.req := req;
      wroteHeader, status, declared, closing, remaining := false, 0, -1, false, -1;
      body, streamed, chunked, discard, keepAlive, framing, failed := [], false, false, false, false, Unsaid, false;
      content, wire, pieces := [], [], [];
    }

    /** Fixes the status and the handler's header; 1xx and a second status are ignored. */
    method WriteHeader(code: int, h: Header)
      requires Valid() && !failed && h.declared >= -1
      modifies this`wroteHeader, this`status, this`declared, this`closing, this`remaining
      ensures Valid()
      ensures wroteHeader == (old(wroteHeader) || code >= 200)
      ensures !old(wroteHeader) && code >= 200 ==> status == code && declared == h.declared && closing == h.closing
      ensures old(wroteHeader) || code < 200 ==>
                status == old(status) && declared == old(declared) && closing == old(closing)
    {
      if wroteHeader || code < 200 { return; }
      wroteHeader, status, declared, closing, remaining := true, code, h.declared, h.closing, h.declared;
    }

    /** writeHeader: how the body goes out, and whether the connection stays open. */
    method Decide(stream: bool)
      requires wroteHeader && !streamed
      modifies this`streamed, this`chunked, this`discard, this`keepAlive, this`framing, this`body
      ensures streamed == stream && Decided()
      ensures status != RESET_CONTENT ==> body == old(body)
      ensures status == RESET_CONTENT ==> body == [] && discard
      ensures !discard && declared < 0 && !stream ==> framing == Length(|body|)
    {
      var allowed := BodyAllowed();
      if status == RESET_CONTENT { body := []; }
      discard := req.head || !allowed || status == RESET_CONTENT;
      chunked := false;
      var closeDelimited := false;
      if stream && !discard {
        chunked := declared < 0 && req.http11;
        closeDelimited := declared < 0 && !req.http11;
      }
      var mustClose := req.close || req.connect || closeDelimited;
      keepAlive := !mustClose && !closing;
      streamed := stream;
      if !allowed { framing := NoContent; }
      else if status == RESET_CONTENT { framing := Length(0); }
      else if declared >= 0 { framing := Length(declared); }
      else if !stream { framing := if !req.head || |body| > 0 then Length(|body|) else NoContent; }
      else if chunked { framing := ChunkedBody; }
      else { framing := UntilClose; }
    }

    /** A piece goes out as the header said. */
    method PutOut(piece: seq<byte>)
      requires streamed && !discard && 0 < |piece| <= MAX_BUFFERED && Ready()
      modifies this`wire, this`pieces
      ensures Ready() && pieces == old(pieces) + [piece] && Concat(pieces) == Concat(old(pieces)) + piece
    {
      PutSnoc(chunked, pieces, piece);
      wire := wire + if chunked then EncodeChunk(piece) else piece;
      pieces := pieces + [piece];
    }

    /** Puts out a piece of a streamed body, after the header when it is the first; `ok`: the connection takes it. */
    method Send(piece: seq<byte>, ok: bool)
      requires wroteHeader && !failed && 0 < |piece| <= MAX_BUFFERED && Ready()
      modifies this`streamed, this`chunked, this`discard, this`keepAlive, this`framing, this`body, this`failed,
               this`wire, this`pieces
      ensures streamed && Ready()
      ensures failed ==> !ok
      ensures !failed && !discard ==> Concat(pieces) == Concat(old(pieces)) + piece
    {
      if !streamed { Decide(true); }
      if discard { return; }
      if !ok { failed := true; return; }
      PutOut(piece);
    }

    /** Sends a piece off the front of what is buffered and `rest`, and empties the buffer. */
    method SendFront(rest: seq<byte>, ok: bool) returns (after: seq<byte>)
      requires wroteHeader && !failed && Ready() && |body| <= MAX_BUFFERED < |body| + |rest|
      requires (streamed && discard) || Concat(pieces) + (body + rest) == content
      modifies this`streamed, this`chunked, this`discard, this`keepAlive, this`framing, this`body, this`failed,
               this`wire, this`pieces
      ensures streamed && Ready() && body == [] && after != [] && |after| < |rest| + |old(body)|
      ensures !failed && !discard ==> Concat(pieces) + after == content
    {
      var piece;
      ghost var sent, all := Concat(pieces), body + rest;
      piece, after := NextPiece(body, rest);
      Send(piece, ok);
      body := [];
      Seqs.Assoc(sent, piece, after);
    }

    /** Writes out what is buffered and `p` in pieces of MAX_BUFFERED; the last bytes, at least one, stay buffered. */
    method Stream(p: seq<byte>, sends: nat)
      requires wroteHeader && !failed && Ready() && |body| <= MAX_BUFFERED < |body| + |p|
      requires (streamed && discard) || content == Concat(pieces) + body
      modifies this`streamed, this`chunked, this`discard, this`keepAlive, this`framing, this`body, this`failed,
               this`wire, this`pieces, this`content
      ensures |body| <= MAX_BUFFERED && content == old(content) + p
      ensures !failed ==> streamed && Ready() && (!discard ==> body != [] && content == Concat(pieces) + body)
    {
      Seqs.Assoc(Concat(pieces), body, p);
      content := content + p;
      var left := sends;
      var rest := SendFront(p, left > 0);
      while |body| + |rest| > MAX_BUFFERED && !failed
        invariant body == [] && rest != [] && content == old(content) + p && streamed && Ready()
        invariant !failed && !discard ==> Concat(pieces) + rest == content
        decreases |rest|
      {
        if left > 0 { left := left - 1; }
        assert body + rest == rest;
        rest := SendFront(rest, left > 0);
      }
      if failed { return; }
      body := body + rest;
      assert body == rest;
    }

    method Buffer(p: seq<byte>)
      modifies this`body, this`content
      ensures body == old(body) + p && content == old(content) + p
      ensures old(content) == Concat(pieces) + old(body) ==> content == Concat(pieces) + body
    {
      Seqs.Assoc(Concat(pieces), body, p);
      body, content := body + p, content + p;
    }

    /**
     Accepts all of `p`, or nothing of it and says so: a closed connection, a status without a body, and bytes beyond
     the declared length are refused. `sends` is how many pieces the connection takes before it fails, `h` the handler's
     header if the status is not written yet.
     */
    method Write(p: seq<byte>, h: Header, connClosed: bool, sends: nat) returns (ok: bool)
      requires Valid() && h.declared >= -1
      modifies this
      ensures Valid()
      ensures ok && !failed ==> content == old(content) + p
      ensures !ok && !failed ==> content == old(content)
      ensures old(failed) ==> failed && !ok
      ensures !failed ==>
                (ok <==> BodyAllowedForStatus(status) && (declared >= 0 ==> |old(content)| + |p| <= declared))
    {
      ok := false;
      if failed { return; }
      if connClosed { failed := true; return; }
      if !wroteHeader { WriteHeader(200, h); }
      if !BodyAllowedForStatus(status) { return; }
      if remaining >= 0 && |p| > remaining { return; }
      ok := Accept(p, sends);
    }

    /** Takes bytes that the declared length has room for, and puts them out or keeps them. */
    method Accept(p: seq<byte>, sends: nat) returns (ok: bool)
      requires Valid() && wroteHeader && !failed && (remaining >= 0 ==> |p| <= remaining)
      modifies this`remaining, this`streamed, this`chunked, this`discard, this`keepAlive, this`framing, this`body,
               this`failed, this`wire, this`pieces, this`content
      ensures Valid() && ok == !failed && (ok ==> content == old(content) + p)
    {
      if remaining >= 0 { remaining := remaining - |p|; }
      if |body| + |p| > MAX_BUFFERED {
        assert !streamed ==> Concat(pieces) + body == content;
        Stream(p, sends);
      } else {
        Buffer(p);
      }
      ok := !failed;
    }

    /** The last piece, with the end of a chunked body unless the response is cut short. */
    method EndBody()
      requires !discard && Ready() && Decided() && wroteHeader && |body| <= MAX_BUFFERED
      requires if declared >= 0 then remaining == declared - |content| >= 0 else remaining == -1
      requires if streamed then body != [] && content == Concat(pieces) + body
               else body == content && (declared < 0 ==> framing == Length(|body|))
      modifies this`wire
      ensures keepAlive && remaining <= 0 ==> SelfDelimiting(framing, wire, content)
    {
      if remaining <= 0 && chunked {
        ChunkedEnd(pieces, body);
        wire := wire + EncodeChunk(body) + LastChunk();
      } else {
        wire := wire + body;
      }
    }

    /**
     Puts out the rest after the handler has returned; `ok`: the connection takes it. A response with content after
     which the connection stays open is self-delimiting, and its body is exactly what the handler's writes were told was
     accepted.
     */
    method Finish(h: Header, ok: bool) returns (keep: bool)
      requires Valid() && h.declared >= -1
      modifies this
      ensures keep && !discard ==> SelfDelimiting(framing, wire, old(content))
      ensures keep && discard ==> wire == []
      ensures keep ==> !failed && Decided() && keepAlive
    {
      if failed { return false; }
      if !wroteHeader { WriteHeader(200, h); }
      if !streamed { Decide(false); }
      keep := keepAlive;
      if !discard && remaining > 0 { keep := false; }
      if !discard { EndBody(); }
      if !ok { failed := true; }
      keep := keep && !failed;
    }
  }

  /** A piece of MAX_BUFFERED bytes off what is buffered and what follows. */
  method NextPiece(body: seq<byte>, rest: seq<byte>) returns (piece: seq<byte>, after: seq<byte>)
    requires |body| <= MAX_BUFFERED < |body| + |rest|
    ensures |piece| == MAX_BUFFERED && piece + after == body + rest && after != [] && |after| < |rest| + |body|
    ensures |after| < |rest| || |body| == MAX_BUFFERED
  {
    if |body| == 0 {
      piece, after := rest[..MAX_BUFFERED], rest[MAX_BUFFERED..];
    } else {
      var fill := MAX_BUFFERED - |body|;
      piece, after := body + rest[..fill], rest[fill..];
    }
  }
}
