/**
 The send buffer and the close of a connection (conn_unix.go, task_unix.go) in place: every method is one critical
 section of the connection's lock and computes the function of SendModel that describes it.
 */
module SendPath {
  import opened Words
  import opened SendModel

  const MAX_IOVECS: int := 1024

  function Concat(bs: seq<seq<byte>>): seq<byte> { if bs == [] then [] else Concat(bs[..|bs| - 1]) + bs[|bs| - 1] }

  /** The rest of a sequence after its first n elements, of which there may be fewer. */
  function Skip(s: seq<byte>, n: nat): seq<byte> { if n <= |s| then s[n..] else [] }

  function Sub(n: nat, m: nat): nat { if m <= n then n - m else 0 }

  lemma SkipConcat(a: seq<byte>, b: seq<byte>, n: nat)
    ensures Skip(a + b, n) == Skip(a, n) + Skip(b, Sub(n, |a|))
  {
  }

  lemma ConcatStep(bs: seq<seq<byte>>, i: nat)
    requires i < |bs|
    ensures Concat(bs[..i + 1]) == Concat(bs[..i]) + bs[i]
  {
    assert bs[..i + 1][..i] == bs[..i];
  }

  lemma {:induction false} ConcatPart(bs: seq<seq<byte>>, i: nat)
    requires i <= |bs|
    ensures Concat(bs[..i]) <= Concat(bs)
    decreases |bs| - i
  {
    if i < |bs| {
      ConcatStep(bs, i);
      ConcatPart(bs, i + 1);
    } else {
      assert bs[..i] == bs;
    }
  }

  lemma FlushNothing(p: Path, r: Sys)
    ensures Taken(r) == 0 ==> SendModel.Flush(p, r) == p
  {
    assert p.unsent[0..] == p.unsent && p.kernel + p.unsent[..0] == p.kernel;
  }

  /** What a write leaves, once `n` of its bytes went to the kernel at once. */
  lemma WriteIs(p: Path, b: seq<byte>, direct: Sys, n: nat)
    requires Taken(direct) <= |b| && !p.closed && !p.closing && b != []
    requires if p.unsent == [] then !direct.Failed? && n == Taken(direct) else n == 0
    ensures SendModel.Write(p, b, direct)
            == Writing(p.(unsent := p.unsent + b[n..], kernel := p.kernel + b[..n], accepted := p.accepted + b), true,
                n < |b| || p.unsent != [])
  {
    assert [] + b[n..] == b[n..];
    if p.unsent != [] { assert b[0..] == b && p.kernel + b[..0] == p.kernel; }
  }

  class SendPath {
    var out: seq<byte>
    var outPos: nat
    var backlogged: bool
    var closing: bool
    var closed: bool
    var closeErr: Reason

    // What the kernel has taken, and what writers were told was accepted.
    ghost var kernel: seq<byte>
    ghost var accepted: seq<byte>

    /** The bytes that wait. */
    function Unsent(): seq<byte>
      reads this
    {
      if outPos <= |out| then out[outPos..] else []
    }

    ghost function Value(): Path
      reads this
    {
      Path(Unsent(), closing, closed, closeErr, kernel, accepted)
    }

    /** The buffer holds something exactly while bytes wait, and nothing is lost, repeated or reordered. */
    ghost predicate Valid()
      reads this
    {
      && (!closed ==> outPos <= |out|) && (out != [] ==> outPos < |out|) && (backlogged <==> out != [])
      && PathOk(Value())
    }

    constructor ()
      ensures Valid() && Value() == Init().path
    {
      out, outPos, backlogged, closing, closed, closeErr := [], 0, false, false, false, Local;
      kernel, accepted := [], [];
    }

    /** Drops the part already sent when that is cheap; `tight`: the buffer has no room for what comes. */
    method CompactOut(tight: bool)
      requires outPos <= |out|
      modifies this`out, this`outPos
      ensures outPos <= |out| && Unsent() == old(Unsent()) && |out| <= old(|out|)
    {
      if outPos > 0 && tight && outPos >= |out| - outPos {
        out, outPos := out[outPos..], 0;
      }
    }

    /** How many bytes a direct write got rid of; None when the connection has failed. */
    static function AfterDirectWrite(r: Sys): (n: int)
      ensures n == -1 <==> r.Failed?
      ensures r.Wrote? ==> n == r.n
    {
      match r
      case Wrote(n) => n
      case Again => 0
      case Interrupted => 0
      case Failed(_) => -1
    }

    /**
     Accepts all of `b` or nothing: `ok` is false for a connection that is closed or has failed. `direct` is what the
     socket does when nothing waits before it; `notify`: bytes are left for the task.
     */
    method Write(b: seq<byte>, direct: Sys, tight: bool) returns (ok: bool, notify: bool)
      requires Valid() && Taken(direct) <= |b|
      modifies this`out, this`outPos, this`backlogged, this`kernel, this`accepted
      ensures Valid() && Writing(Value(), ok, notify) == SendModel.Write(old(Value()), b, direct)
      ensures accepted == if ok then old(accepted) + b else old(accepted)
      ensures (old(closed) || old(closing)) ==> !ok
      ensures notify <==> ok && b != [] && Unsent() != []
    {
      WriteOk(Value(), b, direct);
      ok, notify := false, false;
      if closed || closing { return; }
      if |b| == 0 { ok := true; return; }
      var n := if out == [] then AfterDirectWrite(direct) else 0;
      if n < 0 { return; }
      ok, notify := PutBytes(b, n, direct, tight);
    }

    /** The first `n` bytes have gone to the kernel; the others join those that wait. */
    method PutBytes(b: seq<byte>, n: nat, ghost direct: Sys, tight: bool) returns (ok: bool, notify: bool)
      requires Taken(direct) <= |b| && !closed && !closing && b != [] && outPos <= |out|
               && (out != [] ==> outPos < |out|)
      requires if out == [] then !direct.Failed? && n == Taken(direct) else n == 0
      requires backlogged <==> out != []
      modifies this`out, this`outPos, this`backlogged, this`kernel, this`accepted
      ensures Writing(Value(), ok, notify) == SendModel.Write(old(Value()), b, direct)
      ensures outPos <= |out| && (out != [] ==> outPos < |out|) && (backlogged <==> out != [])
    {
      WriteIs(Value(), b, direct, n);
      kernel, accepted := kernel + b[..n], accepted + b;
      ok, notify := true, n < |b|;
      if notify { Append(b[n..], tight); }
    }

    /** Bytes join those that wait. */
    method Append(rest: seq<byte>, tight: bool)
      requires outPos <= |out| && rest != []
      modifies this`out, this`outPos, this`backlogged
      ensures outPos < |out| && backlogged && Unsent() == old(Unsent()) + rest
    {
      CompactOut(tight);
      out := out + rest;
      backlogged := true;
    }

    /** What the kernel did not take of `all`, the segments together, joins the bytes that wait. */
    method Enqueue(bs: seq<seq<byte>>, n: nat, ghost all: seq<byte>, tight: bool)
      requires outPos <= |out| && (out != [] ==> outPos < |out|)
      requires all == Concat(bs) && n < |all|
      modifies this`out, this`outPos, this`backlogged, this`accepted
      ensures outPos < |out| && backlogged && accepted == old(accepted) + all
      ensures Unsent() == old(Unsent()) + all[n..]
    {
      CompactOut(tight);
      BufferSegments(bs, n);
      accepted := accepted + all;
      backlogged := true;
      assert Skip(all, n) == all[n..];
    }

    /** Puts what the kernel did not take of the segments into the buffer, segment by segment. */
    method BufferSegments(bs: seq<seq<byte>>, taken: nat)
      requires outPos <= |out|
      modifies this`out
      ensures out == old(out) + Skip(Concat(bs), taken)
    {
      var n, i := taken, 0;
      assert old(out) + Skip(Concat(bs[..0]), taken) == old(out);
      while i < |bs|
        invariant 0 <= i <= |bs| && n == Sub(taken, |Concat(bs[..i])|)
        invariant out == old(out) + Skip(Concat(bs[..i]), taken)
      {
        ConcatStep(bs, i);
        SkipConcat(Concat(bs[..i]), bs[i], taken);
        var skip := Min(n, |bs[i]|);
        assert bs[i][skip..] == Skip(bs[i], n);
        ghost var part := Skip(Concat(bs[..i]), taken);
        out := out + bs[i][skip..];
        assert old(out) + part + bs[i][skip..] == old(out) + (part + bs[i][skip..]);
        n := n - skip;
        i := i + 1;
      }
      assert bs[..i] == bs;
    }

    /** Like Write, for the concatenation of the segments; the kernel sees only the first MAX_IOVECS of them. */
    method Writev(bs: seq<seq<byte>>, direct: Sys, tight: bool) returns (ok: bool, notify: bool)
      requires Valid() && Taken(direct) <= |Concat(bs[..Min(|bs|, MAX_IOVECS)])|
      modifies this`out, this`outPos, this`backlogged, this`kernel, this`accepted
      ensures Taken(direct) <= |Concat(bs)|
      ensures Valid() && Writing(Value(), ok, notify) == SendModel.Write(old(Value()), Concat(bs), direct)
      ensures accepted == if ok then old(accepted) + Concat(bs) else old(accepted)
      ensures (old(closed) || old(closing)) ==> !ok
      ensures notify <==> ok && Concat(bs) != [] && Unsent() != []
    {
      ConcatPart(bs, Min(|bs|, MAX_IOVECS));
      ghost var all := Concat(bs);
      WriteOk(Value(), all, direct);
      ok, notify := false, false;
      if closed || closing { return; }
      var size := TotalSize(bs);
      if size == 0 { ok := true; return; }
      var n := 0;
      if out == [] {
        n := AfterDirectWrite(direct);
        if n < 0 { return; }
        WriteIs(Value(), all, direct, n);
        kernel := kernel + all[..n];
        if n == size {
          ok := true;
          accepted := accepted + all;
          return;
        }
      } else {
        WriteIs(Value(), all, direct, n);
      }
      Enqueue(bs, n, all, tight);
      ok, notify := true, true;
    }

    method TotalSize(bs: seq<seq<byte>>) returns (size: nat)
      ensures size == |Concat(bs)|
    {
      size := 0;
      var i := 0;
      while i < |bs|
        invariant 0 <= i <= |bs| && size == |Concat(bs[..i])|
      {
        ConcatStep(bs, i);
        size := size + |bs[i]|;
        i := i + 1;
      }
      assert bs[..i] == bs;
    }

    /** Sends what waits, once; `failed` asks for the close of the connection, `again` for another round. */
    method Flush(r: Sys) returns (drained: bool, writable: bool, again: bool, failed: bool)
      requires Valid() && Taken(r) <= |Unsent()|
      modifies this`out, this`outPos, this`backlogged, this`kernel
      ensures Valid() && Value() == SendModel.Flush(old(Value()), r)
      ensures drained <==> old(out) != [] && out == []
      ensures drained ==> kernel == accepted
      ensures failed <==> old(out) != [] && r.Failed?
      ensures again <==> old(out) != [] && r.Interrupted?
      ensures writable <==> |old(Unsent())| > MAX_BACKLOG && |Unsent()| <= MAX_BACKLOG
    {
      if !closed { FlushOk(Value(), r); }
      FlushNothing(Value(), r);
      drained, writable, again, failed := false, false, false, false;
      if out == [] { return; }
      var backlog := |out| - outPos;
      if r.Interrupted? { again := true; return; }
      if r.Failed? { failed := true; return; }
      var n := if r.Wrote? then r.n else 0;
      if n > 0 { writable := backlog > MAX_BACKLOG && backlog - n <= MAX_BACKLOG; }
      drained := Advance(n);
    }

    /** The kernel has taken `n` more bytes; a buffer that is all sent is given back. */
    method Advance(n: nat) returns (drained: bool)
      requires outPos < |out| && outPos + n <= |out| && backlogged
      modifies this`out, this`outPos, this`backlogged, this`kernel
      ensures Unsent() == old(Unsent())[n..] && kernel == old(kernel) + old(Unsent())[..n]
      ensures drained == (out == []) && (out != [] ==> outPos < |out|) && outPos <= |out| && (backlogged <==> out != [])
    {
      kernel := kernel + out[outPos..outPos + n];
      assert old(Unsent())[..n] == out[outPos..outPos + n];
      outPos := outPos + n;
      drained := outPos == |out|;
      if drained { out, outPos, backlogged := [], 0, false; }
    }

    // -------------------------------------------------------------- closing

    /**
     Close (reason Local), or a failure of the connection; the reason is the requested one unless a hard one was there.
     */
    method RequestClose(reason: Reason)
      requires Valid() && (reason.Local? || reason.Hard?)
      modifies this`closing, this`closeErr
      ensures Valid() && Value() == Request(old(Value()), reason) && closing
      ensures closeErr == if reason.Hard? && !ClosesNow(old(closeErr)) then reason else old(closeErr)
    {
      closing := true;
      if reason.Hard? && !ClosesNow(closeErr) { closeErr := reason; }
    }

    /** The peer closed its side: a request made before keeps its reason. */
    method RequestCloseOnEof()
      requires Valid()
      modifies this`closing, this`closeErr
      ensures Valid() && Value() == Request(old(Value()), Eof) && closing
      ensures closeErr == if old(closing) then old(closeErr) else Eof
    {
      ghost var v := Value();
      if !closing { closing, closeErr := true, Eof; }
      assert Unsent() == v.unsent;
    }

    /**
     Whether the close is to be carried out now, and for which reason; nothing waits then unless the reason is hard.
     */
    method CloseDue() returns (due: bool, reason: Reason)
      requires Valid()
      ensures due == Due(Value()) && reason == closeErr
      ensures due && !ClosesNow(reason) && !closed ==> kernel == accepted
    {
      reason := closeErr;
      due := closing && (ClosesNow(reason) || out == []);
    }

    /** Closes whatever waits; SendModel shows that nothing does when the task closes for a soft reason. */
    method Close()
      requires Valid() && !closed
      modifies this`closed, this`out, this`backlogged
      ensures Valid() && Value() == SendModel.Close(old(Value()))
    {
      closed := true;
      out, backlogged := [], false;
    }

    /** Detach takes the buffer over and sends it itself; a connection that is closing is left to its task. */
    method TakeBuffer() returns (ok: bool, pending: seq<byte>)
      requires Valid() && !closed
      modifies this`closed, this`out, this`outPos, this`backlogged
      ensures Valid() && ok == !closing && Value() == if ok then SendModel.Close(old(Value())) else old(Value())
      ensures ok ==> kernel + pending == accepted && pending == old(Unsent())
    {
      pending := [];
      ok := !closing;
      if ok {
        closed := true;
        pending := out[outPos..];
        out, outPos, backlogged := [], 0, false;
      }
    }
  }
}
