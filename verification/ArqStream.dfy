/** From messages to chunks and back: fragmentation, coalescing in stream mode, and reassembly. */
module ArqStream {
  import opened Words
  import opened Seqs
  import opened ArqModel
  import opened ArqIdeal

  function Flat(messages: seq<seq<byte>>): seq<byte> {
    if messages == [] then [] else Flat(messages[..|messages| - 1]) + messages[|messages| - 1]
  }

  function ChunkBytes(chunks: seq<Chunk>): seq<byte> {
    if chunks == [] then [] else chunks[0].payload + ChunkBytes(chunks[1..])
  }

  /** The chunks of one message. */
  function MessageChunks(data: seq<byte>, mss: int): seq<Chunk>
    requires mss > 0
  {
    Chunks(Fragment(data, mss, Max(FragmentCount(|data|, mss), 0)))
  }

  function AllChunks(messages: seq<seq<byte>>, mss: int): seq<Chunk>
    requires mss > 0
  {
    if messages == [] then []
    else AllChunks(messages[..|messages| - 1], mss) + MessageChunks(messages[|messages| - 1], mss)
  }

  lemma {:induction false} ChunkBytesConcat(a: seq<Chunk>, b: seq<Chunk>)
    ensures ChunkBytes(a + b) == ChunkBytes(a) + ChunkBytes(b)
  {
    if a == [] {
      assert a + b == b;
    } else {
      ChunkBytesConcat(a[1..], b);
      ConcatTail(a, b);
      Assoc(a[0].payload, ChunkBytes(a[1..]), ChunkBytes(b));
    }
  }

  /** Reassembly reads the payloads only. */
  lemma {:induction false} BytesAreChunkBytes(segs: seq<Segment>)
    ensures Bytes(segs) == ChunkBytes(Chunks(segs))
  {
    if segs != [] {
      BytesAreChunkBytes(segs[1..]);
      assert Chunks(segs)[1..] == Chunks(segs[1..]);
    }
  }

  lemma CountCovers(size: int, mss: int)
    requires mss > 0 && size >= 0
    ensures 1 <= FragmentCount(size, mss)
    ensures (FragmentCount(size, mss) - 1) * mss <= size <= FragmentCount(size, mss) * mss
  {
    if size > mss {
      var q := (size + mss - 1) / mss;
      var r := (size + mss - 1) % mss;
      assert size + mss - 1 == q * mss + r;
      assert (q - 1) * mss == q * mss - mss;
    }
  }

  /** Fragment numbers run down to 0, every piece fits, and the pieces make up the data. */
  lemma {:induction false} FragmentExact(data: seq<byte>, mss: int, count: int)
    requires mss > 0 && count >= 0 && |data| <= count * mss
    ensures |Fragment(data, mss, count)| == count
    ensures forall k :: 0 <= k < count ==>
              Fragment(data, mss, count)[k].frg == count - 1 - k && |Fragment(data, mss, count)[k].payload| <= mss
    ensures Bytes(Fragment(data, mss, count)) == data
    decreases count
  {
    if count == 0 {
    } else {
      var take := Min(|data|, mss);
      assert (count - 1) * mss == count * mss - mss;
      if |data| <= mss { assert 0 <= (count - 1) * mss; }
      FragmentExact(data[take..], mss, count - 1);
      assert data[..take] + data[take..] == data;
    }
  }

  /** The chunks of a message: their number, their fragment numbers, and what they reassemble to. */
  lemma MessageChunksExact(data: seq<byte>, mss: int)
    requires mss > 0
    ensures |MessageChunks(data, mss)| == FragmentCount(|data|, mss) >= 1
    ensures MessageChunks(data, mss)[0].frg == FragmentCount(|data|, mss) - 1
    ensures ChunkBytes(MessageChunks(data, mss)) == data
  {
    CountCovers(|data|, mss);
    FragmentExact(data, mss, FragmentCount(|data|, mss));
    BytesAreChunkBytes(Fragment(data, mss, FragmentCount(|data|, mss)));
  }

  /** The chunks of the first messages are a prefix of the chunks of all of them. */
  lemma {:induction false} AllChunksPrefix(messages: seq<seq<byte>>, k: int, mss: int)
    requires mss > 0 && 0 <= k <= |messages|
    ensures AllChunks(messages[..k], mss) <= AllChunks(messages, mss)
    decreases |messages|
  {
    if k == |messages| {
      assert messages[..k] == messages;
    } else {
      var front := messages[..|messages| - 1];
      AllChunksPrefix(front, k, mss);
      assert front[..k] == messages[..k];
    }
  }

  lemma {:induction false} AllChunksGrows(messages: seq<seq<byte>>, k: int, mss: int)
    requires mss > 0 && 0 <= k < |messages|
    ensures AllChunks(messages[..k + 1], mss) == AllChunks(messages[..k], mss) + MessageChunks(messages[k], mss)
  {
    assert messages[..k + 1][..k] == messages[..k];
  }

  lemma {:induction false} CutExact(data: seq<byte>, mss: int)
    requires mss > 0
    ensures Bytes(Cut(data, mss)) == data
    ensures forall k :: 0 <= k < |Cut(data, mss)| ==> Cut(data, mss)[k].frg == 0 && |Cut(data, mss)[k].payload| <= mss
    decreases |data|
  {
    if data != [] {
      var take := Min(|data|, mss);
      CutExact(data[take..], mss);
      assert data[..take] + data[take..] == data;
    }
  }

  lemma BytesConcat(a: seq<Segment>, b: seq<Segment>)
    ensures Bytes(a + b) == Bytes(a) + Bytes(b)
  {
    BytesAreChunkBytes(a);
    BytesAreChunkBytes(b);
    BytesAreChunkBytes(a + b);
    ChunksConcat(a, b);
    ChunkBytesConcat(Chunks(a), Chunks(b));
  }

  ghost predicate Whole(segs: seq<Segment>, mss: int) {
    forall k :: 0 <= k < |segs| ==> segs[k].frg == 0 && |segs[k].payload| <= mss
  }

  lemma BytesOne(seg: Segment)
    ensures Bytes([seg]) == seg.payload
  {
    assert Bytes([seg]) == seg.payload + Bytes([seg][1..]);
  }

  /** In stream mode a send adds exactly its bytes at the end of the queue. */
  lemma StreamQueueExact(queue: seq<Segment>, data: seq<byte>, mss: int)
    requires mss > 0 && Whole(queue, mss)
    ensures Bytes(StreamQueue(queue, data, mss)) == Bytes(queue) + data
    ensures Whole(StreamQueue(queue, data, mss), mss)
  {
    if |queue| > 0 && mss - |queue[|queue| - 1].payload| > 0 {
      var n := |queue| - 1;
      var take := Min(|data|, mss - |queue[n].payload|);
      var full := queue[n].(payload := queue[n].payload + data[..take]);
      CutExact(data[take..], mss);
      FillLast(queue[..n], queue[n], full, data[..take]);
      assert queue == queue[..n] + [queue[n]];
      BytesConcat(queue[..n] + [full], Cut(data[take..], mss));
      Assoc(Bytes(queue), data[..take], data[take..]);
      SplitAt(data, take);
    } else {
      CutExact(data, mss);
      BytesConcat(queue, Cut(data, mss));
    }
  }

  lemma FillLast(front: seq<Segment>, last: Segment, full: Segment, more: seq<byte>)
    requires full.payload == last.payload + more
    ensures Bytes(front + [full]) == Bytes(front + [last]) + more
  {
    BytesConcat(front, [last]);
    BytesConcat(front, [full]);
    BytesOne(last);
    BytesOne(full);
    Assoc(Bytes(front), last.payload, more);
  }

  // ---------------------------------------------------------------- what was accepted and what was delivered

  /**
   The chunks of one direction say what was accepted: in message mode they are the fragments of the accepted messages,
   in stream mode they hold the accepted bytes.
   */
  ghost predicate Says(cfg: Config, chunks: seq<Chunk>, accepted: seq<seq<byte>>)
    requires cfg.Mss() > 0
  {
    if cfg.streamMode then
      ChunkBytes(chunks) == Flat(accepted) && forall k :: 0 <= k < |chunks| ==> chunks[k].frg == 0
    else
      chunks == AllChunks(accepted, cfg.Mss())
  }

  /** The first `delivered` chunks have been handed over as the messages `popped`. */
  ghost predicate Delivered(cfg: Config, chunks: seq<Chunk>, delivered: int, popped: seq<seq<byte>>,
                            accepted: seq<seq<byte>>)
    requires cfg.Mss() > 0
  {
    && 0 <= delivered <= |chunks|
    && if cfg.streamMode then
         Flat(popped) == ChunkBytes(chunks[..delivered])
       else
         |popped| <= |accepted| && popped == accepted[..|popped|] && delivered == |AllChunks(popped, cfg.Mss())|
  }

  lemma {:induction false} FlatAppend(messages: seq<seq<byte>>, m: seq<byte>)
    ensures Flat(messages + [m]) == Flat(messages) + m
  {
    assert (messages + [m])[..|messages|] == messages;
  }

  lemma ChunksConcat(a: seq<Segment>, b: seq<Segment>)
    ensures Chunks(a + b) == Chunks(a) + Chunks(b)
  {
  }

  /** A send that is accepted adds exactly its message. */
  lemma SendSays(st: State, log: seq<Chunk>, data: seq<byte>, accepted: seq<seq<byte>>)
    requires st.cfg.Mss() > 0 && Says(st.cfg, log + Chunks(st.sendQueue), accepted)
    requires st.cfg.streamMode ==> Whole(st.sendQueue, st.cfg.Mss())
    requires Accepts(st, data)
    ensures Says(st.cfg, log + Chunks(Send(st, data).sendQueue), accepted + [data])
    ensures st.cfg.streamMode ==> Whole(Send(st, data).sendQueue, st.cfg.Mss())
  {
    var mss, q, q1 := st.cfg.Mss(), st.sendQueue, Send(st, data).sendQueue;
    if st.cfg.streamMode {
      StreamQueueExact(q, data, mss);
      ChunkBytesConcat(log, Chunks(q));
      ChunkBytesConcat(log, Chunks(q1));
      BytesAreChunkBytes(q);
      BytesAreChunkBytes(q1);
      FlatAppend(accepted, data);
      assert ChunkBytes(log + Chunks(q1)) == Flat(accepted + [data]) by {
        assert ChunkBytes(log) + (Bytes(q) + data) == ChunkBytes(log) + Bytes(q) + data;
      }
      forall k | 0 <= k < |log + Chunks(q1)| ensures (log + Chunks(q1))[k].frg == 0 {
        if k < |log| { assert (log + Chunks(q))[k].frg == 0; }
        else { assert q1[k - |log|].frg == 0; }
      }
    } else {
      CountCovers(|data|, mss);
      ChunksConcat(q, Fragment(data, mss, FragmentCount(|data|, mss)));
      assert (accepted + [data])[..|accepted|] == accepted;
      assert log + Chunks(q1) == (log + Chunks(q)) + MessageChunks(data, mss);
    }
  }

  /** Accepting more does not disturb what was delivered. */
  lemma DeliveredGrows(cfg: Config, chunks: seq<Chunk>, more: seq<Chunk>, delivered: int, popped: seq<seq<byte>>,
                       accepted: seq<seq<byte>>, accepted1: seq<seq<byte>>)
    requires cfg.Mss() > 0 && Delivered(cfg, chunks, delivered, popped, accepted) && accepted <= accepted1
    ensures Delivered(cfg, chunks + more, delivered, popped, accepted1)
  {
    assert (chunks + more)[..delivered] == chunks[..delivered];
    assert |popped| <= |accepted| ==> accepted[..|popped|] == accepted1[..|popped|];
  }

  /** Popping in stream mode hands over one chunk. */
  lemma PopStream(cfg: Config, all: seq<Chunk>, delivered: int, popped: seq<seq<byte>>, accepted: seq<seq<byte>>,
                  queue: seq<Segment>)
    requires cfg.Mss() > 0 && cfg.streamMode && Says(cfg, all, accepted)
    requires Delivered(cfg, all, delivered, popped, accepted)
    requires delivered + |queue| <= |all| && Chunks(queue) == all[delivered..delivered + |queue|]
    requires 0 < Ready(queue)
    ensures Ready(queue) == 1
    ensures Delivered(cfg, all, delivered + 1, popped + [Bytes(queue[..1])], accepted)
  {
    assert Chunks(queue)[0] == all[delivered];
    BytesOne(queue[0]);
    assert queue[..1] == [queue[0]];
    assert all[..delivered + 1] == all[..delivered] + [all[delivered]];
    ChunkBytesConcat(all[..delivered], [all[delivered]]);
    assert ChunkBytes([all[delivered]]) == all[delivered].payload + ChunkBytes([]);
    FlatAppend(popped, Bytes(queue[..1]));
  }

  /** In message mode the chunks after those of the popped messages are those of the next one. */
  lemma NextMessage(all: seq<Chunk>, popped: seq<seq<byte>>, accepted: seq<seq<byte>>, mss: int)
    requires mss > 0 && all == AllChunks(accepted, mss) && popped < accepted
    ensures AllChunks(popped + [accepted[|popped|]], mss)
            == AllChunks(popped, mss) + MessageChunks(accepted[|popped|], mss)
    ensures AllChunks(popped, mss) + MessageChunks(accepted[|popped|], mss) <= all
  {
    var p := |popped|;
    assert accepted[..p] == popped;
    assert accepted[..p + 1] == popped + [accepted[p]];
    AllChunksGrows(accepted, p, mss);
    AllChunksPrefix(accepted, p + 1, mss);
  }

  lemma SliceFollows<T>(all: seq<T>, before: seq<T>, next: seq<T>, window: seq<T>)
    requires before + next <= all && |before| + |window| <= |all| && window == all[|before|..|before| + |window|]
    ensures |next| <= |window| ==> window[..|next|] == next
    ensures |next| > 0 && |window| > 0 ==> window[0] == next[0]
  {
    var n := Min(|next|, |window|);
    forall i | 0 <= i < n ensures window[i] == next[i] {
      assert window[i] == all[|before| + i];
      assert (before + next)[|before| + i] == next[i];
    }
  }

  lemma PopBytes(queue: seq<Segment>, mc: seq<Chunk>)
    requires |mc| <= |queue| && Chunks(queue)[..|mc|] == mc
    ensures Bytes(queue[..|mc|]) == ChunkBytes(mc)
  {
    BytesAreChunkBytes(queue[..|mc|]);
    assert Chunks(queue[..|mc|]) == mc;
  }

  /** Popping in message mode hands over exactly the next message. */
  lemma PopMessage(cfg: Config, all: seq<Chunk>, delivered: int, popped: seq<seq<byte>>, accepted: seq<seq<byte>>,
                   queue: seq<Segment>)
    requires cfg.Mss() > 0 && !cfg.streamMode && Says(cfg, all, accepted)
    requires Delivered(cfg, all, delivered, popped, accepted)
    requires delivered + |queue| <= |all| && Chunks(queue) == all[delivered..delivered + |queue|]
    requires 0 < Ready(queue)
    ensures Ready(queue) <= |queue|
    ensures Delivered(cfg, all, delivered + Ready(queue), popped + [Bytes(queue[..Ready(queue)])], accepted)
  {
    var mss, p := cfg.Mss(), |popped|;
    assert popped != accepted;
    NextMessage(all, popped, accepted, mss);
    var m := accepted[p];
    MessageChunksExact(m, mss);
    var mc := MessageChunks(m, mss);
    SliceFollows(all, AllChunks(popped, mss), mc, Chunks(queue));
    assert Chunks(queue)[0].frg == queue[0].frg;
    PopBytes(queue, mc);
    assert popped + [m] == accepted[..p + 1];
  }

  /** What has been handed over is a prefix of what was accepted. */
  lemma DeliveredIsPrefix(cfg: Config, all: seq<Chunk>, delivered: int, popped: seq<seq<byte>>,
                          accepted: seq<seq<byte>>)
    requires cfg.Mss() > 0 && Says(cfg, all, accepted) && Delivered(cfg, all, delivered, popped, accepted)
    ensures if cfg.streamMode then Flat(popped) <= Flat(accepted) else popped <= accepted
  {
    assert all == all[..delivered] + all[delivered..];
    ChunkBytesConcat(all[..delivered], all[delivered..]);
  }

  // ---------------------------------------------------------------- which messages are taken, and when one is ready

  /** A message is refused exactly when it does not fit the fragments that the receive window and the header allow. */
  lemma AcceptsExactly(st: State, data: seq<byte>)
    requires st.cfg.Valid()
    ensures Accepts(st, data) <==>
            st.cfg.streamMode || |data| <= Min(st.cfg.receiveWindow, 256) * st.cfg.Mss()
  {
    var mss, most := st.cfg.Mss(), Min(st.cfg.receiveWindow, 256);
    CeilingFits(|data|, mss, most);
  }

  lemma CeilingFits(size: nat, mss: int, most: int)
    requires mss > 0 && most >= 1
    ensures FragmentCount(size, mss) <= most <==> size <= most * mss
  {
    if size > mss {
      var n, r := (size + mss - 1) / mss, (size + mss - 1) % mss;
      assert size + mss - 1 == n * mss + r;
      if n <= most {
        assert n * mss <= most * mss;
      } else {
        assert (most + 1) * mss == most * mss + mss;
        assert (most + 1) * mss <= n * mss;
      }
    } else {
      assert 1 * mss <= most * mss;
    }
  }

  /** A queue that begins with all of a message has it ready; one that holds only a part of it has nothing ready. */
  lemma MessageReady(queue: seq<Segment>, data: seq<byte>, mss: int)
    requires mss > 0
    ensures MessageChunks(data, mss) <= Chunks(queue) ==> Ready(queue) == |MessageChunks(data, mss)|
    ensures Chunks(queue) < MessageChunks(data, mss) ==> Ready(queue) == 0
  {
    MessageChunksExact(data, mss);
    if |queue| > 0 { assert Chunks(queue)[0].frg == queue[0].frg; }
  }
}
