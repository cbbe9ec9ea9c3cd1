/** Datagrams: how a flush packs headers into packets of at most MTU bytes, and how `input` reads them back. */
module ArqCodec {
  import opened Wrappers
  import opened Words
  import opened ArqModel
  import Seqs

  /** Every field of the item fits its place in the header. */
  ghost predicate Encodable(it: Item) {
    && it.cmd in {CMD_PUSH, CMD_ACK, CMD_ASK, CMD_TELL}
    && 0 <= it.frg < 256
    && 0 <= it.wnd < TWO16
    && 0 <= it.ts < TWO32
    && 0 <= it.sn < TWO32
    && 0 <= it.una < TWO32
    && |it.payload| < TWO31
  }

  function Size(it: Item): int { HEADER + |it.payload| }

  function TotalSize(items: seq<Item>): int {
    if items == [] then 0 else Size(items[0]) + TotalSize(items[1..])
  }

  /** The 24 header bytes, each field truncated to its width. */
  function Header(conv: int, it: Item): (h: seq<byte>)
    ensures |h| == HEADER
  {
    Le32(U32(conv)) + [(it.cmd % 256) as byte, (it.frg % 256) as byte] + Le16(it.wnd % TWO16) + Le32(U32(it.ts))
    + Le32(U32(it.sn)) + Le32(U32(it.una)) + Le32(U32(|it.payload|))
  }

  function Encode(conv: int, items: seq<Item>): (data: seq<byte>)
    ensures |data| == TotalSize(items)
  {
    if items == [] then [] else Header(conv, items[0]) + items[0].payload + Encode(conv, items[1..])
  }

  /** The items at the start of a datagram, and whether the reader stopped at a header it rejects. */
  datatype Parsed = Parsed(items: seq<Item>, rejected: bool)

  /** The header at the start of data, its payload being what follows it; None when the reader rejects it. */
  function ReadItem(conv: int, data: seq<byte>): (r: Option<Item>)
    requires |data| >= HEADER
    ensures r.Some? ==> Size(r.value) <= |data|
  {
    var cmd, length := data[4] as int, FromLe32(data[20..24]);
    if FromLe32(data[0..4]) != conv || |data| - HEADER < length then None
    else if cmd != CMD_PUSH && cmd != CMD_ACK && cmd != CMD_ASK && cmd != CMD_TELL then None
    else
      Some(Item(cmd, data[5] as int, FromLe16(data[6..8]), FromLe32(data[8..12]), FromLe32(data[12..16]),
                FromLe32(data[16..20]), data[HEADER..HEADER + length]))
  }

  function Parse(conv: int, data: seq<byte>): Parsed
    decreases |data|
  {
    if |data| < HEADER then Parsed([], false)
    else
      match ReadItem(conv, data)
      case None => Parsed([], true)
      case Some(it) =>
        var rest := Parse(conv, data[Size(it)..]);
        Parsed([it] + rest.items, rest.rejected)
  }

  /** `input` on the bytes of a datagram: a header it rejects ends it before the round-trip and window updates. */
  function InputBytes(m: Mode, st: State, data: seq<byte>, now: int): State {
    var p := Parse(st.cfg.conv, data);
    if |data| < HEADER then st
    else if p.rejected then TakeItems(m, st, p.items)
    else Input(m, st, p.items, now)
  }

  /** Where the fields of a header lie. */
  lemma Layout(a: seq<byte>, b: seq<byte>, c: seq<byte>, d: seq<byte>, e: seq<byte>, f: seq<byte>, g: seq<byte>,
               rest: seq<byte>)
    requires |a| == |d| == |e| == |f| == |g| == 4 && |b| == |c| == 2
    ensures var h := a + b + c + d + e + f + g + rest;
            && h[0..4] == a && h[4] == b[0] && h[5] == b[1] && h[6..8] == c && h[8..12] == d && h[12..16] == e
            && h[16..20] == f && h[20..24] == g && h[24..] == rest
  {
  }

  lemma HeaderFields(conv: int, it: Item, rest: seq<byte>)
    requires 0 <= conv < TWO32 && Encodable(it)
    ensures ReadItem(conv, Header(conv, it) + it.payload + rest) == Some(it)
  {
    assert U32(conv) == conv && U32(it.ts) == it.ts && U32(it.sn) == it.sn && U32(it.una) == it.una;
    assert U32(|it.payload|) == |it.payload| && it.wnd % TWO16 == it.wnd;
    Layout(Le32(conv), [it.cmd as byte, it.frg as byte], Le16(it.wnd), Le32(it.ts), Le32(it.sn), Le32(it.una),
           Le32(|it.payload|), it.payload + rest);
    var data := Header(conv, it) + it.payload + rest;
    Seqs.Assoc(Header(conv, it), it.payload, rest);
    Le32RoundTrip(conv); Le16RoundTrip(it.wnd); Le32RoundTrip(it.ts);
    Le32RoundTrip(it.sn); Le32RoundTrip(it.una); Le32RoundTrip(|it.payload|);
    assert data[HEADER..HEADER + |it.payload|] == it.payload;
  }

  /** A datagram parses back to exactly the items that were encoded. */
  lemma {:induction false} ParseEncode(conv: int, items: seq<Item>)
    requires 0 <= conv < TWO32 && forall k :: 0 <= k < |items| ==> Encodable(items[k])
    ensures Parse(conv, Encode(conv, items)) == Parsed(items, false)
  {
    if items == [] {
    } else {
      var it, rest := items[0], Encode(conv, items[1..]);
      var data := Encode(conv, items);
      assert data == Header(conv, it) + it.payload + rest;
      HeaderFields(conv, it, rest);
      assert data[Size(it)..] == rest;
      ParseEncode(conv, items[1..]);
      assert [it] + items[1..] == items;
    }
  }

  // ---------------------------------------------------------------- packing

  /** The packets made of `cur`, the packet being filled, and the items still to come. */
  function Pack(mtu: int, cur: seq<Item>, items: seq<Item>): seq<seq<Item>>
    decreases |items|
  {
    if items == [] then (if cur == [] then [] else [cur])
    else if TotalSize(cur) + Size(items[0]) > mtu && cur != [] then [cur] + Pack(mtu, [items[0]], items[1..])
    else Pack(mtu, cur + [items[0]], items[1..])
  }

  function Concat(packets: seq<seq<Item>>): seq<Item> {
    if packets == [] then [] else packets[0] + Concat(packets[1..])
  }

  lemma TotalSizeAppend(items: seq<Item>, it: Item)
    ensures TotalSize(items + [it]) == TotalSize(items) + Size(it)
  {
    if items == [] {
      assert items + [it] == [it];
    } else {
      TotalSizeAppend(items[1..], it);
      assert (items + [it])[1..] == items[1..] + [it];
    }
  }

  /** Packing loses nothing, reorders nothing, and never makes an empty or an oversized packet. */
  lemma {:induction false} PackExact(mtu: int, cur: seq<Item>, items: seq<Item>)
    requires TotalSize(cur) <= mtu
    requires forall k :: 0 <= k < |items| ==> Size(items[k]) <= mtu
    ensures Concat(Pack(mtu, cur, items)) == cur + items
    ensures forall k :: 0 <= k < |Pack(mtu, cur, items)| ==>
                          Pack(mtu, cur, items)[k] != [] && TotalSize(Pack(mtu, cur, items)[k]) <= mtu
    decreases |items|
  {
    if items == [] {
      assert cur + items == cur;
      assert Concat([cur]) == cur + Concat([]);
    } else if TotalSize(cur) + Size(items[0]) > mtu && cur != [] {
      TotalSizeAppend([], items[0]);
      assert [] + [items[0]] == [items[0]];
      PackExact(mtu, [items[0]], items[1..]);
      assert [items[0]] + items[1..] == items;
    } else {
      TotalSizeAppend(cur, items[0]);
      if cur == [] { assert TotalSize(cur) == 0; }
      PackExact(mtu, cur + [items[0]], items[1..]);
      assert (cur + [items[0]]) + items[1..] == cur + items;
    }
  }

  /** The packets of a flush. */
  function FlushPackets(m: Mode, st: State, now: int, ackOnly: bool): seq<seq<Item>> {
    Pack(st.cfg.mtu, [], FlushItems(m, st, now, ackOnly))
  }

  /** The bytes of a flush's packets. */
  function EncodeAll(conv: int, packets: seq<seq<Item>>): seq<seq<byte>> {
    seq(|packets|, i requires 0 <= i < |packets| => Encode(conv, packets[i]))
  }
}
