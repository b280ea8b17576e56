/** Both directions of the data channel byte by byte: types, sizes and fields at their offsets, descriptors in place. */
module Layouts {
  import opened SocketUtils
  import opened Wire
  import In = InputFraming
  import Out = OutputFraming

  // ---------- words of longer messages ----------

  lemma WordInFirst(a: seq<byte>, b: seq<byte>, k: nat)
    requires k + 4 <= |a|
    ensures WordAt(a + b, k) == WordAt(a, k)
  {
    assert (a + b)[k..k + 4] == a[k..k + 4];
  }

  lemma WordInSecond(a: seq<byte>, b: seq<byte>, k: nat)
    requires k + 4 <= |b|
    ensures WordAt(a + b, |a| + k) == WordAt(b, k)
  {
    assert (a + b)[|a| + k..|a| + k + 4] == b[k..k + 4];
  }

  lemma WordInSlice(bs: seq<byte>, start: nat, end: nat, k: nat)
    requires start <= end <= |bs| && k + 4 <= end - start
    ensures WordAt(bs[start..end], k) == WordAt(bs, start + k)
  {
    assert bs == bs[..start] + (bs[start..end] + bs[end..]);
    WordInFirst(bs[start..end], bs[end..], k);
    WordInSecond(bs[..start], bs[start..end] + bs[end..], k);
  }

  /** A header of type `kind` and size `size` at this offset. */
  predicate HeaderAt(bs: seq<byte>, offset: nat, kind: nat, size: nat) {
    offset + 8 <= |bs| && WordAt(bs, offset) == kind && WordAt(bs, offset + 4) == size
  }

  /** The type and the four words of an event at this offset. */
  predicate EventAt(bs: seq<byte>, offset: nat, ev: Event) {
    offset + 20 <= |bs| && WordAt(bs, offset) == ev.kind
    && WordAt(bs, offset + 4) == ev.w0 && WordAt(bs, offset + 8) == ev.w1
    && WordAt(bs, offset + 12) == ev.w2 && WordAt(bs, offset + 16) == ev.w3
  }

  lemma HeaderThere(a: seq<byte>, h: Header, b: seq<byte>)
    ensures HeaderAt(a + EncodeHeader(h) + b, |a|, h.kind, h.size)
  {
    var hs := EncodeHeader(h);
    HeaderLayout(h);
    WordInFirst(hs, b, 0);
    WordInFirst(hs, b, 4);
    WordInSecond(a, hs + b, 0);
    WordInSecond(a, hs + b, 4);
    assert a + hs + b == a + (hs + b);
  }

  lemma EventThere(a: seq<byte>, ev: Event, b: seq<byte>)
    ensures EventAt(a + EncodeEvent(ev) + b, |a|, ev)
  {
    var es := EncodeEvent(ev);
    EventLayout(ev);
    forall k: nat | k + 4 <= |es|
      ensures WordAt(a + es + b, |a| + k) == WordAt(es, k)
    {
      WordInFirst(es, b, k);
      WordInSecond(a, es + b, k);
      assert a + es + b == a + (es + b);
    }
    assert WordAt(a + es + b, |a| + 0) == ev.kind;
    assert WordAt(a + es + b, |a| + 4) == ev.w0 && WordAt(a + es + b, |a| + 8) == ev.w1;
    assert WordAt(a + es + b, |a| + 12) == ev.w2 && WordAt(a + es + b, |a| + 16) == ev.w3;
  }

  /** An event right behind its header, with what follows. */
  lemma EventMessage(h: Header, ev: Event, rest: seq<byte>)
    ensures var bs := EncodeHeader(h) + EncodeEvent(ev) + rest;
            HeaderAt(bs, 0, h.kind, h.size) && EventAt(bs, 8, ev) && bs[28..] == rest
  {
    HeaderThere([], h, EncodeEvent(ev) + rest);
    EventThere(EncodeHeader(h), ev, rest);
    assert [] + EncodeHeader(h) + (EncodeEvent(ev) + rest) == EncodeHeader(h) + EncodeEvent(ev) + rest;
  }

  // ---------- consumer to producer ----------

  function BytesOf(cells: seq<In.Cell>): (bs: seq<byte>)
    ensures |bs| == |cells|
  {
    seq(|cells|, i requires 0 <= i < |cells| => cells[i].b)
  }

  /** These descriptors come with byte k, and no others. */
  predicate FdsOnlyAt(cells: seq<In.Cell>, k: nat, fds: seq<int>) {
    k < |cells| && forall i | 0 <= i < |cells| :: cells[i].fds == if i == k then fds else []
  }

  lemma PutBytes(bs: seq<byte>, fds: seq<int>)
    requires bs != []
    ensures BytesOf(In.Put(bs, fds)) == bs && FdsOnlyAt(In.Put(bs, fds), 0, fds)
  {
  }

  lemma BytesBoth(a: seq<In.Cell>, b: seq<In.Cell>)
    ensures BytesOf(a + b) == BytesOf(a) + BytesOf(b)
  {
  }

  /** push_input_event: type 102 and size 20, the event, no descriptors. */
  lemma PlainLayout(ev: Event)
    requires In.WellFormed(In.Plain(ev))
    ensures var cells := In.Write(In.Plain(ev)); var bs := BytesOf(cells);
            |bs| == 28 && HeaderAt(bs, 0, 102, 20) && EventAt(bs, 8, ev) && FdsOnlyAt(cells, 0, [])
  {
    var bs := EncodeHeader(In.INPUT_HEADER) + EncodeEvent(ev);
    EventMessage(In.INPUT_HEADER, ev, []);
    assert bs + [] == bs;
    PutBytes(bs, []);
  }

  /** push_input_event_with_length: the payload behind the event, not counted in the header. */
  lemma PayloadLayout(ev: Event, payload: seq<byte>)
    requires In.WellFormed(In.WithPayload(ev, payload))
    ensures var cells := In.Write(In.WithPayload(ev, payload)); var bs := BytesOf(cells);
            HeaderAt(bs, 0, 102, 20) && EventAt(bs, 8, ev) && bs[28..] == payload && FdsOnlyAt(cells, 0, [])
  {
    EventMessage(In.INPUT_HEADER, ev, payload);
    PutBytes(EncodeHeader(In.INPUT_HEADER) + EncodeEvent(ev) + payload, []);
  }

  /** push_input_event_with_fds: the event, then type 104 and size 0, whose first byte brings the descriptors. */
  lemma ResourceLayout(ev: Event, fds: seq<int>)
    requires In.WellFormed(In.Resource(ev, fds))
    ensures var cells := In.Write(In.Resource(ev, fds)); var bs := BytesOf(cells);
            && |bs| == 36 && HeaderAt(bs, 0, 102, 20) && EventAt(bs, 8, ev) && HeaderAt(bs, 28, 104, 0)
            && FdsOnlyAt(cells, 28, fds)
  {
    var event, header := EncodeHeader(In.INPUT_HEADER) + EncodeEvent(ev), EncodeHeader(In.FDS_HEADER);
    EventMessage(In.INPUT_HEADER, ev, header);
    HeaderThere(event, In.FDS_HEADER, []);
    assert event + header + [] == event + header;
    PutBytes(event, []);
    PutBytes(header, fds);
    BytesBoth(In.Put(event, []), In.Put(header, fds));
  }

  /** push_dmabufs: type 200 and 28 bytes a record, the descriptors with the first byte, the records right behind. */
  lemma TableLayout(infos: seq<BufInfo>, fds: seq<int>)
    requires In.WellFormed(In.BufsReady(infos, fds))
    ensures var cells := In.Write(In.BufsReady(infos, fds)); var bs := BytesOf(cells);
            HeaderAt(bs, 0, 200, 28 * |infos|) && FdsOnlyAt(cells, 0, fds) && bs[8..] == EncodeInfos(infos)
  {
    var header, records := EncodeHeader(In.BufsHeader(|infos|)), EncodeInfos(infos);
    HeaderThere([], In.BufsHeader(|infos|), records);
    assert [] + header + records == header + records;
    PutBytes(header, fds);
    PutBytes(records, []);
    BytesBoth(In.Put(header, fds), In.Put(records, []));
  }

  // ---------- producer to consumer ----------

  /** An output event: type 103 and size 20, the event, and its payload not counted in the header. */
  lemma OutputLayout(m: Out.Out)
    ensures var bs := Out.Write(m);
            HeaderAt(bs, 0, 103, 20) && EventAt(bs, 8, m.ev) && bs[28..] == m.payload
  {
    EventMessage(Out.OUTPUT_HEADER, m.ev, m.payload);
  }

  lemma DecodedHeader(bs: seq<byte>)
    requires |bs| == 8
    ensures DecodeHeader(bs).kind == WordAt(bs, 0) && DecodeHeader(bs).size == WordAt(bs, 4)
  {
    HeaderRoundTrip(DecodeHeader(bs), bs);
    HeaderLayout(DecodeHeader(bs));
  }

  lemma DecodedEvent(bs: seq<byte>)
    requires |bs| == 20
    ensures EventAt(bs, 0, DecodeEvent(bs))
  {
    EventRoundTrip(DecodeEvent(bs), bs);
    EventLayout(DecodeEvent(bs));
  }

  lemma EventInSlice(bs: seq<byte>, start: nat, end: nat, ev: Event)
    requires start + 20 == end <= |bs| && EventAt(bs[start..end], 0, ev)
    ensures EventAt(bs, start, ev)
  {
    WordInSlice(bs, start, end, 0);
    WordInSlice(bs, start, end, 4);
    WordInSlice(bs, start, end, 8);
    WordInSlice(bs, start, end, 12);
    WordInSlice(bs, start, end, 16);
  }

  /** poll_output_event accepts exactly a header of type 103 and size 20, and stores the event behind it. */
  lemma AcceptsOutput(c: Out.Conn)
    requires !c.fallback && |c.data| >= 28
    ensures var p := Out.PollEvent(c, Out.Readable);
            if HeaderAt(c.data, 0, 103, 20)
            then p.ret == 1 && EventAt(c.data, 8, p.ev) && p.c == c.(data := c.data[28..])
            else p.ret == -1 && p.c == c.(data := c.data[28..], fallback := true)
  {
    var head, body := c.data[..8], c.data[8..28];
    DecodedHeader(head);
    DecodedEvent(body);
    WordInSlice(c.data, 0, 8, 0);
    WordInSlice(c.data, 0, 8, 4);
    EventInSlice(c.data, 8, 28, DecodeEvent(body));
  }

  /** A round over a context in a session: what it reads, in terms of the bytes. */
  predicate EndsSession(bs: seq<byte>, r: Out.Round) {
    match r.poll
    case Quiet => false
    case HungUp => true
    case Readable =>
      |bs| >= 28 && (!HeaderAt(bs, 0, 103, 20)
                     || (WordAt(bs, 8) == 2 && !r.replied)
                     || (WordAt(bs, 8) == 1 && WordAt(bs, 12) > 0 && r.memory && r.payloadPoll.HungUp?))
  }

  /**
   A round of the event thread ends the session if and only if poll reports the end of the connection, for the event or
   for a clipboard's payload, or the header is not that of an output event, or the reply to a resource request does not
   get out.
   */
  lemma RoundEndsIff(c: Out.Conn, r: Out.Round)
    requires !c.fallback
    ensures Out.Step(c, r).fallback <==> EndsSession(c.data, r)
  {
    if r.poll.Readable? && |c.data| >= 28 {
      AcceptsOutput(c);
    }
  }
}
