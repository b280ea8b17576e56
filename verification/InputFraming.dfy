/**
 The consumer-to-producer data stream: what each writer puts on the socket, descriptors included, and the
 reader the layouts prescribe. The two are inverse to each other, so the stream is uniquely decodable.
 */
module InputFraming {
  import opened SocketUtils
  import opened Wire
  import opened Options

  /** One byte of the stream; descriptors sent with SCM_RIGHTS arrive with the first byte of their message. */
  datatype Cell = Cell(b: byte, fds: seq<int>)

  datatype Msg =
    | BufsReady(infos: seq<BufInfo>, fds: seq<int>)
    | Plain(ev: Event)                           // push_input_event
    | WithPayload(ev: Event, payload: seq<byte>) // push_input_event_with_length
    | Resource(ev: Event, fds: seq<int>)         // push_input_event_with_fds, fd_count > 0

  predicate CarriesLength(e: Event) {
    e.kind == INPUT_TYPE_CLIPBOARD || e.kind == INPUT_TYPE_TEXT_INPUT
  }

  predicate CarriesFds(e: Event) {
    e.kind == INPUT_TYPE_RESOURCE && e.w1 > 0
  }

  /** The messages the source sends: the event says what follows it. */
  predicate WellFormed(m: Msg) {
    match m
    case BufsReady(infos, fds) => 0 < |infos| <= MAX_BUFS && |fds| == |infos|
    case Plain(ev) => !CarriesLength(ev) && !CarriesFds(ev)
    case WithPayload(ev, payload) => CarriesLength(ev) && ev.w0 == |payload|
    case Resource(ev, fds) => CarriesFds(ev) && ev.w1 == |fds|
  }

  // ---------- writing ----------

  /** send_all(bs), or send_fds(bs, fds). */
  function Put(bs: seq<byte>, fds: seq<int>): (cells: seq<Cell>)
    requires bs == [] ==> fds == []
    ensures |cells| == |bs|
  {
    seq(|bs|, i requires 0 <= i < |bs| => Cell(bs[i], if i == 0 then fds else []))
  }

  const INPUT_HEADER := Header(DATA_MSG_INPUT_EVENT, EVENT_SIZE)
  const FDS_HEADER := Header(DATA_MSG_INPUT_EXTEND_FDS, 0)

  function BufsHeader(count: nat): Header
    requires count <= MAX_BUFS
  {
    Header(DATA_MSG_BUFS_READY, count * BUF_INFO_SIZE)
  }

  function Write(m: Msg): seq<Cell>
    requires WellFormed(m)
  {
    match m
    case BufsReady(infos, fds) => Put(EncodeHeader(BufsHeader(|infos|)), fds) + Put(EncodeInfos(infos), [])
    case Plain(ev) => Put(EncodeHeader(INPUT_HEADER) + EncodeEvent(ev), [])
    case WithPayload(ev, payload) => Put(EncodeHeader(INPUT_HEADER) + EncodeEvent(ev) + payload, [])
    case Resource(ev, fds) =>
      Put(EncodeHeader(INPUT_HEADER) + EncodeEvent(ev), []) + Put(EncodeHeader(FDS_HEADER), fds)
  }

  ghost predicate AllWellFormed(ms: seq<Msg>) {
    forall m | m in ms :: WellFormed(m)
  }

  ghost function WriteAll(ms: seq<Msg>): seq<Cell>
    requires AllWellFormed(ms)
  {
    if ms == [] then []
    else
      assert ms[0] in ms;
      Write(ms[0]) + WriteAll(ms[1..])
  }

  // ---------- reading ----------

  /** The next n bytes and the descriptors that arrived with the first of them; no others may be among them. */
  datatype Chunk = Chunk(bs: seq<byte>, fds: seq<int>)

  predicate Available(cells: seq<Cell>, n: nat) {
    n <= |cells| && forall i | 0 < i < n :: cells[i].fds == []
  }

  function Take(cells: seq<Cell>, n: nat): (c: Chunk)
    requires Available(cells, n)
    ensures |c.bs| == n
  {
    Chunk(seq(n, i requires 0 <= i < n => cells[i].b), if n == 0 then [] else cells[0].fds)
  }

  datatype Parsed = Stuck | Got(m: Msg, rest: seq<Cell>)

  function ReadBufs(size: nat, fds: seq<int>, body: seq<Cell>): Parsed {
    if size % BUF_INFO_SIZE != 0 || !(0 < size / BUF_INFO_SIZE <= MAX_BUFS) || |fds| != size / BUF_INFO_SIZE
       || !Available(body, size) || Take(body, size).fds != []
    then Stuck
    else Got(BufsReady(DecodeInfos(Take(body, size).bs), fds), body[size..])
  }

  function ReadPayload(ev: Event, body: seq<Cell>): Parsed {
    if !Available(body, ev.w0) || Take(body, ev.w0).fds != [] then Stuck
    else Got(WithPayload(ev, Take(body, ev.w0).bs), body[ev.w0..])
  }

  function ReadFds(ev: Event, body: seq<Cell>): Parsed {
    if !Available(body, HEADER_SIZE) then Stuck
    else
      var c := Take(body, HEADER_SIZE);
      if DecodeHeader(c.bs) != FDS_HEADER || |c.fds| != ev.w1 then Stuck
      else Got(Resource(ev, c.fds), body[HEADER_SIZE..])
  }

  function ReadEvent(body: seq<Cell>): Parsed {
    if !Available(body, EVENT_SIZE) || Take(body, EVENT_SIZE).fds != [] then Stuck
    else
      var ev, rest := DecodeEvent(Take(body, EVENT_SIZE).bs), body[EVENT_SIZE..];
      if CarriesLength(ev) then ReadPayload(ev, rest)
      else if CarriesFds(ev) then ReadFds(ev, rest)
      else Got(Plain(ev), rest)
  }

  function Read(cells: seq<Cell>): Parsed {
    if !Available(cells, HEADER_SIZE) then Stuck
    else
      var c, body := Take(cells, HEADER_SIZE), cells[HEADER_SIZE..];
      var h := DecodeHeader(c.bs);
      if h.kind == DATA_MSG_BUFS_READY then ReadBufs(h.size, c.fds, body)
      else if h == INPUT_HEADER && c.fds == [] then ReadEvent(body)
      else Stuck
  }

  lemma ReadShrinks(cells: seq<Cell>)
    ensures Read(cells).Got? ==> |Read(cells).rest| < |cells|
  {
  }

  function ReadAll(cells: seq<Cell>): Option<seq<Msg>>
    decreases |cells|
  {
    if cells == [] then Some([])
    else
      var r := Read(cells);
      ReadShrinks(cells);
      if r.Stuck? then None
      else
        var more := ReadAll(r.rest);
        if more.None? then None else Some([r.m] + more.value)
  }

  // ---------- inverse to each other ----------

  lemma TakePut(bs: seq<byte>, fds: seq<int>, rest: seq<Cell>)
    requires bs == [] ==> fds == []
    ensures var cells := Put(bs, fds) + rest;
            Available(cells, |bs|) && Take(cells, |bs|) == Chunk(bs, fds) && cells[|bs|..] == rest
  {
  }

  lemma PutTake(cells: seq<Cell>, n: nat)
    requires Available(cells, n)
    ensures var c := Take(cells, n); (n == 0 ==> c.fds == []) && Put(c.bs, c.fds) + cells[n..] == cells
  {
  }

  lemma PutJoin(a: seq<byte>, b: seq<byte>)
    ensures Put(a + b, []) == Put(a, []) + Put(b, [])
  {
  }

  lemma ReadWriteBufs(infos: seq<BufInfo>, fds: seq<int>, rest: seq<Cell>)
    requires WellFormed(BufsReady(infos, fds))
    ensures Read(Write(BufsReady(infos, fds)) + rest) == Got(BufsReady(infos, fds), rest)
  {
    var h, body := BufsHeader(|infos|), Put(EncodeInfos(infos), []) + rest;
    assert Write(BufsReady(infos, fds)) + rest == Put(EncodeHeader(h), fds) + body;
    TakePut(EncodeHeader(h), fds, body);
    HeaderRoundTrip(h, EncodeHeader(h));
    TakePut(EncodeInfos(infos), [], rest);
    BufInfosRoundTrip(infos, EncodeInfos(infos));
  }

  /** The header of an input event, and its event, are read back, whatever follows. */
  lemma ReadInput(ev: Event, tail: seq<Cell>, cells: seq<Cell>)
    requires cells == Put(EncodeHeader(INPUT_HEADER) + EncodeEvent(ev), []) + tail
    ensures Read(cells) ==
            if CarriesLength(ev) then ReadPayload(ev, tail)
            else if CarriesFds(ev) then ReadFds(ev, tail)
            else Got(Plain(ev), tail)
  {
    var body := Put(EncodeEvent(ev), []) + tail;
    PutJoin(EncodeHeader(INPUT_HEADER), EncodeEvent(ev));
    assert cells == Put(EncodeHeader(INPUT_HEADER), []) + body;
    TakePut(EncodeHeader(INPUT_HEADER), [], body);
    HeaderRoundTrip(INPUT_HEADER, EncodeHeader(INPUT_HEADER));
    TakePut(EncodeEvent(ev), [], tail);
    EventRoundTrip(ev, EncodeEvent(ev));
  }

  lemma ReadWritePayload(ev: Event, payload: seq<byte>, rest: seq<Cell>)
    requires WellFormed(WithPayload(ev, payload))
    ensures Read(Write(WithPayload(ev, payload)) + rest) == Got(WithPayload(ev, payload), rest)
  {
    var head, tail := EncodeHeader(INPUT_HEADER) + EncodeEvent(ev), Put(payload, []) + rest;
    PutJoin(head, payload);
    var cells := Put(head, []) + tail;
    assert Write(WithPayload(ev, payload)) + rest == cells;
    ReadInput(ev, tail, cells);
    TakePut(payload, [], rest);
  }

  lemma ReadWriteResource(ev: Event, fds: seq<int>, rest: seq<Cell>)
    requires WellFormed(Resource(ev, fds))
    ensures Read(Write(Resource(ev, fds)) + rest) == Got(Resource(ev, fds), rest)
  {
    var head, tail := EncodeHeader(INPUT_HEADER) + EncodeEvent(ev), Put(EncodeHeader(FDS_HEADER), fds) + rest;
    var cells := Put(head, []) + tail;
    assert Write(Resource(ev, fds)) + rest == cells;
    ReadInput(ev, tail, cells);
    TakePut(EncodeHeader(FDS_HEADER), fds, rest);
    HeaderRoundTrip(FDS_HEADER, EncodeHeader(FDS_HEADER));
  }

  lemma ReadWrite(m: Msg, rest: seq<Cell>)
    requires WellFormed(m)
    ensures Read(Write(m) + rest) == Got(m, rest)
  {
    match m
    case BufsReady(infos, fds) => ReadWriteBufs(infos, fds, rest);
    case Plain(ev) => ReadInput(ev, rest, Write(m) + rest);
    case WithPayload(ev, payload) => ReadWritePayload(ev, payload, rest);
    case Resource(ev, fds) => ReadWriteResource(ev, fds, rest);
  }

  lemma WriteReadBufs(size: nat, fds: seq<int>, body: seq<Cell>)
    requires ReadBufs(size, fds, body).Got?
    ensures var r := ReadBufs(size, fds, body);
            && WellFormed(r.m) && BufsHeader(|r.m.infos|).size == size
            && Put(EncodeInfos(r.m.infos), []) + r.rest == body
  {
    var c := Take(body, size);
    PutTake(body, size);
    BufInfosRoundTrip([], c.bs);
  }

  /** What follows an event is written back by the message that was read. */
  lemma WriteReadTail(ev: Event, head: seq<byte>, tail: seq<Cell>, r: Parsed)
    requires head == EncodeHeader(INPUT_HEADER) + EncodeEvent(ev) && r.Got?
    requires r == if CarriesLength(ev) then ReadPayload(ev, tail)
                  else if CarriesFds(ev) then ReadFds(ev, tail)
                  else Got(Plain(ev), tail)
    ensures WellFormed(r.m) && Put(head, []) + tail == Write(r.m) + r.rest
  {
    if CarriesLength(ev) {
      PutTake(tail, ev.w0);
      PutJoin(head, Take(tail, ev.w0).bs);
    } else if CarriesFds(ev) {
      PutTake(tail, HEADER_SIZE);
      HeaderRoundTrip(FDS_HEADER, Take(tail, HEADER_SIZE).bs);
    }
  }

  lemma WriteReadEvent(body: seq<Cell>)
    requires ReadEvent(body).Got?
    ensures var r := ReadEvent(body);
            WellFormed(r.m) && Put(EncodeHeader(INPUT_HEADER), []) + body == Write(r.m) + r.rest
  {
    var c, tail := Take(body, EVENT_SIZE), body[EVENT_SIZE..];
    var ev := DecodeEvent(c.bs);
    PutTake(body, EVENT_SIZE);
    EventRoundTrip(ev, c.bs);
    PutJoin(EncodeHeader(INPUT_HEADER), EncodeEvent(ev));
    var head := EncodeHeader(INPUT_HEADER) + EncodeEvent(ev);
    assert Put(EncodeHeader(INPUT_HEADER), []) + body == Put(head, []) + tail;
    WriteReadTail(ev, head, tail, ReadEvent(body));
  }

  lemma WriteRead(cells: seq<Cell>)
    requires Read(cells).Got?
    ensures WellFormed(Read(cells).m) && Write(Read(cells).m) + Read(cells).rest == cells
  {
    var c, body := Take(cells, HEADER_SIZE), cells[HEADER_SIZE..];
    var h := DecodeHeader(c.bs);
    PutTake(cells, HEADER_SIZE);
    HeaderRoundTrip(h, c.bs);
    if h.kind == DATA_MSG_BUFS_READY {
      WriteReadBufs(h.size, c.fds, body);
    } else {
      WriteReadEvent(body);
    }
  }

  lemma {:induction false} ReadAllWritten(ms: seq<Msg>)
    requires AllWellFormed(ms)
    ensures ReadAll(WriteAll(ms)) == Some(ms)
  {
    if ms != [] {
      assert ms[0] in ms;
      var rest := WriteAll(ms[1..]);
      var cells := Write(ms[0]) + rest;
      ReadWrite(ms[0], rest);
      assert Read(cells) == Got(ms[0], rest);
      ReadAllWritten(ms[1..]);
      assert WriteAll(ms) == cells && cells != [];
      assert [ms[0]] + ms[1..] == ms;
    }
  }

  lemma {:induction false} WriteAllRead(cells: seq<Cell>)
    requires ReadAll(cells).Some?
    ensures AllWellFormed(ReadAll(cells).value) && WriteAll(ReadAll(cells).value) == cells
    decreases |cells|
  {
    if cells != [] {
      WriteRead(cells);
      ReadShrinks(cells);
      WriteAllRead(Read(cells).rest);
    }
  }

  /** A stream reads as exactly one list of messages: the well-formed list that writes it. */
  lemma UniquelyDecodable(ms: seq<Msg>, cells: seq<Cell>)
    ensures ReadAll(cells) == Some(ms) <==> AllWellFormed(ms) && WriteAll(ms) == cells
  {
    if AllWellFormed(ms) && WriteAll(ms) == cells {
      ReadAllWritten(ms);
    }
    if ReadAll(cells) == Some(ms) {
      WriteAllRead(cells);
    }
  }
}
