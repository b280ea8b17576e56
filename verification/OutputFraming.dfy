/**
 The producer-to-consumer direction of the data channel and the event thread's decoding loop. Every outcome
 of poll, malloc and the reply to a resource request is an input, so the statements hold for all of them.
 */
module OutputFraming {
  import opened SocketUtils
  import opened Wire

  /** An output event with the bytes that follow it: only a clipboard event of non-zero size has any. The
      largest size is left out: the receiver's buffer, one byte longer, could not be asked for. */
  datatype Out = Out(ev: Event, payload: seq<byte>)

  predicate HasPayload(e: Event) {
    e.kind == OUTPUT_TYPE_CLIPBOARD && e.w0 > 0
  }

  predicate WellFormed(m: Out) {
    |m.payload| == (if HasPayload(m.ev) then m.ev.w0 else 0) && |m.payload| < 0xffff_ffff
  }

  ghost predicate AllWellFormed(ms: seq<Out>) {
    forall m | m in ms :: WellFormed(m)
  }

  const OUTPUT_HEADER := Header(DATA_MSG_OUTPUT_EVENT, EVENT_SIZE)
  const MESSAGE_SIZE := HEADER_SIZE + EVENT_SIZE

  function Write(m: Out): (bs: seq<byte>)
    ensures |bs| == MESSAGE_SIZE + |m.payload|
  {
    EncodeHeader(OUTPUT_HEADER) + EncodeEvent(m.ev) + m.payload
  }

  function WriteAll(ms: seq<Out>): seq<byte> {
    if ms == [] then [] else Write(ms[0]) + WriteAll(ms[1..])
  }

  // ---------- one round of the loop ----------

  datatype Poll = Quiet | HungUp | Readable

  /** One round: poll's answer, malloc's, the second poll's for a payload, and whether a resource reply gets out. */
  datatype Round = Round(poll: Poll, memory: bool, payloadPoll: Poll, replied: bool)

  /** The bytes still to come before the end of the stream, whether fallback was entered, and what was handled. */
  datatype Conn = Conn(data: seq<byte>, fallback: bool, handled: seq<Out>)

  const NO_EVENT := Event(0, 0, 0, 0, 0)

  /** What poll_output_event returns, the connection it leaves and the event it stores when it returns 1. */
  datatype Polled = Polled(ret: int, c: Conn, ev: Event)

  function PollEvent(c: Conn, poll: Poll): Polled {
    if c.fallback then Polled(0, c, NO_EVENT)
    else
      match poll
      case Quiet => Polled(0, c, NO_EVENT)
      case HungUp => Polled(-1, c.(fallback := true), NO_EVENT)
      case Readable =>
        if |c.data| < MESSAGE_SIZE then Polled(-1, c.(data := []), NO_EVENT)
        else
          var c' := c.(data := c.data[MESSAGE_SIZE..]);
          if DecodeHeader(c.data[..HEADER_SIZE]) != OUTPUT_HEADER then Polled(-1, c'.(fallback := true), NO_EVENT)
          else Polled(1, c', DecodeEvent(c.data[HEADER_SIZE..MESSAGE_SIZE]))
  }

  /** The same for poll_output_event_extend_data and the payload bytes. */
  datatype Extended = Extended(ret: int, c: Conn, payload: seq<byte>)

  function PollPayload(c: Conn, size: nat, poll: Poll): Extended {
    if c.fallback then Extended(0, c, [])
    else
      match poll
      case Quiet => Extended(0, c, [])
      case HungUp => Extended(-1, c.(fallback := true), [])
      case Readable =>
        if |c.data| < size then Extended(-1, c.(data := []), [])
        else Extended(1, c.(data := c.data[size..]), c.data[..size])
  }

  /** What the round does with an event it has read. */
  function Handle(c: Conn, ev: Event, r: Round): Conn {
    if ev.kind == OUTPUT_TYPE_RESOURCES_REQUEST then
      Conn(c.data, c.fallback || !r.replied, c.handled + [Out(ev, [])])
    else if HasPayload(ev) then
      if !r.memory then c
      else
        var p := PollPayload(c, ev.w0, r.payloadPoll);
        if p.ret == 1 then p.c.(handled := p.c.handled + [Out(ev, p.payload)]) else p.c
    else c.(handled := c.handled + [Out(ev, [])])
  }

  function Step(c: Conn, r: Round): Conn {
    var p := PollEvent(c, r.poll);
    if p.ret == 1 then Handle(p.c, p.ev, r) else p.c
  }

  function Run(c: Conn, rounds: seq<Round>): Conn
    decreases |rounds|
  {
    if rounds == [] then c else Run(Step(c, rounds[0]), rounds[1..])
  }

  function Start(data: seq<byte>): Conn {
    Conn(data, false, [])
  }

  // ---------- reading what was written ----------

  lemma ReadsBack(m: Out, rest: seq<byte>, r: Round, c: Conn)
    requires WellFormed(m) && r.poll.Readable? && c.data == Write(m) + rest && !c.fallback
    ensures Step(c, r) == Handle(c.(data := m.payload + rest), m.ev, r)
  {
    var data := c.data;
    assert data[..HEADER_SIZE] == EncodeHeader(OUTPUT_HEADER);
    assert data[HEADER_SIZE..MESSAGE_SIZE] == EncodeEvent(m.ev);
    assert data[MESSAGE_SIZE..] == m.payload + rest;
    HeaderRoundTrip(OUTPUT_HEADER, EncodeHeader(OUTPUT_HEADER));
    EventRoundTrip(m.ev, EncodeEvent(m.ev));
  }

  /** The round neither loses a payload nor the connection. */
  predicate Smooth(r: Round) {
    !r.poll.HungUp? && r.memory && r.payloadPoll.Readable? && r.replied
  }

  lemma SmoothStep(m: Out, rest: seq<byte>, r: Round, c: Conn)
    requires WellFormed(m) && Smooth(r) && r.poll.Readable? && c.data == Write(m) + rest && !c.fallback
    ensures Step(c, r) == Conn(rest, false, c.handled + [m])
  {
    ReadsBack(m, rest, r, c);
    assert (m.payload + rest)[..|m.payload|] == m.payload && (m.payload + rest)[|m.payload|..] == rest;
    if m.payload == [] {
      assert m.payload + rest == rest;
    }
  }

  function Reads(rounds: seq<Round>): nat {
    if rounds == [] then 0 else (if rounds[0].poll.Readable? then 1 else 0) + Reads(rounds[1..])
  }

  lemma ListStep(before: seq<Out>, ms: seq<Out>, k: nat)
    requires ms != [] && k < |ms|
    ensures before + [ms[0]] + ms[1..][..k] == before + ms[..k + 1] && ms[1..][k..] == ms[k + 1..]
  {
  }

  lemma {:induction false} SmoothRun(ms: seq<Out>, rounds: seq<Round>, c: Conn)
    requires AllWellFormed(ms) && (forall r | r in rounds :: Smooth(r))
    requires c.data == WriteAll(ms) && !c.fallback
    ensures var k := Min(Reads(rounds), |ms|);
            Run(c, rounds) == Conn(WriteAll(ms[k..]), false, c.handled + ms[..k])
    decreases |rounds|
  {
    if rounds == [] {
      assert c.handled + ms[..0] == c.handled && ms[0..] == ms;
    } else {
      var r, later := rounds[0], rounds[1..];
      assert r in rounds && forall r' | r' in later :: r' in rounds;
      if r.poll.Readable? && ms != [] {
        assert ms[0] in ms && forall m | m in ms[1..] :: m in ms;
        SmoothStep(ms[0], WriteAll(ms[1..]), r, c);
        SmoothRun(ms[1..], later, Step(c, r));
        ListStep(c.handled, ms, Min(Reads(later), |ms| - 1));
      } else {
        assert Step(c, r) == c;
        SmoothRun(ms, later, c);
      }
    }
  }

  /**
   Round trip: however the events are spread over timeouts, each readable round handles the next message with
   its payload, in order, and enough readable rounds handle the whole list and leave nothing behind.
   */
  lemma HandlesExactlyTheList(ms: seq<Out>, rounds: seq<Round>)
    requires AllWellFormed(ms) && (forall r | r in rounds :: Smooth(r))
    ensures var k := Min(Reads(rounds), |ms|);
            Run(Start(WriteAll(ms)), rounds) == Conn(WriteAll(ms[k..]), false, ms[..k])
  {
    SmoothRun(ms, rounds, Start(WriteAll(ms)));
  }

  /** A wrong header puts the context in fallback, and nothing is handled from it or after it. */
  lemma {:induction false} WrongHeaderFallsBack(c: Conn, r: Round, rounds: seq<Round>)
    requires !c.fallback && r.poll.Readable? && |c.data| >= MESSAGE_SIZE
    requires DecodeHeader(c.data[..HEADER_SIZE]) != OUTPUT_HEADER
    ensures Run(c, [r] + rounds).fallback && Run(c, [r] + rounds).handled == c.handled
  {
    assert ([r] + rounds)[1..] == rounds;
    FallbackStays(Step(c, r), rounds);
  }

  lemma {:induction false} FallbackStays(c: Conn, rounds: seq<Round>)
    requires c.fallback
    ensures Run(c, rounds) == c
  {
    if rounds != [] {
      FallbackStays(c, rounds[1..]);
    }
  }

  // ---------- exactly when the handled events are a prefix of the list ----------

  /** The payload is left in the stream: no memory for it, or it did not arrive in time. */
  predicate Skips(r: Round) {
    !r.memory || r.payloadPoll.Quiet?
  }

  /** Nothing is read any more before the connection hangs up. */
  predicate Deaf(rounds: seq<Round>) {
    rounds == [] || rounds[0].poll.HungUp? || (rounds[0].poll.Quiet? && Deaf(rounds[1..]))
  }

  /** No round that could leave a payload in the stream is followed by another read. */
  predicate InStep(rounds: seq<Round>) {
    rounds == [] || rounds[0].poll.HungUp?
    || (if rounds[0].poll.Readable? && Skips(rounds[0]) then Deaf(rounds[1..]) else InStep(rounds[1..]))
  }

  lemma {:induction false} DeafRun(c: Conn, rounds: seq<Round>)
    requires Deaf(rounds) || c.fallback
    ensures Run(c, rounds).handled == c.handled
    decreases |rounds|
  {
    if c.fallback {
      FallbackStays(c, rounds);
    } else if rounds != [] {
      DeafRun(Step(c, rounds[0]), rounds[1..]);
    }
  }

  lemma {:induction false} DrainedRun(c: Conn, rounds: seq<Round>)
    requires c.data == []
    ensures Run(c, rounds).handled == c.handled
    decreases |rounds|
  {
    if rounds != [] {
      DrainedRun(Step(c, rounds[0]), rounds[1..]);
    }
  }

  /** Every list the source of `data` may have been sending, cut off anywhere. */
  predicate CutOff(data: seq<byte>, ms: seq<Out>) {
    data <= WriteAll(ms)
  }

  lemma CutMessage(data: seq<byte>, ms: seq<Out>)
    requires CutOff(data, ms) && |data| >= MESSAGE_SIZE
    ensures ms != []
    ensures data[..MESSAGE_SIZE] == EncodeHeader(OUTPUT_HEADER) + EncodeEvent(ms[0].ev)
    ensures data[MESSAGE_SIZE..] <= ms[0].payload + WriteAll(ms[1..])
  {
    var whole := WriteAll(ms);
    assert whole == EncodeHeader(OUTPUT_HEADER) + EncodeEvent(ms[0].ev) + (ms[0].payload + WriteAll(ms[1..]));
    assert data[MESSAGE_SIZE..] == whole[MESSAGE_SIZE..|data|];
  }

  lemma CutStep(c: Conn, r: Round, ms: seq<Out>)
    requires !c.fallback && r.poll.Readable? && CutOff(c.data, ms) && AllWellFormed(ms) && |c.data| >= MESSAGE_SIZE
    ensures ms != [] && Step(c, r) == Handle(c.(data := c.data[MESSAGE_SIZE..]), ms[0].ev, r)
  {
    CutMessage(c.data, ms);
    assert c.data[..HEADER_SIZE] == c.data[..MESSAGE_SIZE][..HEADER_SIZE] == EncodeHeader(OUTPUT_HEADER);
    assert c.data[HEADER_SIZE..MESSAGE_SIZE] == c.data[..MESSAGE_SIZE][HEADER_SIZE..] == EncodeEvent(ms[0].ev);
    HeaderRoundTrip(OUTPUT_HEADER, EncodeHeader(OUTPUT_HEADER));
    EventRoundTrip(ms[0].ev, EncodeEvent(ms[0].ev));
  }

  /** A round that reads and does not skip: the next message is handled, or nothing more ever is. */
  lemma AttentiveStep(c: Conn, r: Round, ms: seq<Out>)
    requires !c.fallback && r.poll.Readable? && !Skips(r) && CutOff(c.data, ms) && AllWellFormed(ms)
    ensures var v := Step(c, r);
            || (v.handled == c.handled && (v.fallback || v.data == []))
            || (ms != [] && v.handled == c.handled + [ms[0]] && CutOff(v.data, ms[1..]))
  {
    if |c.data| >= MESSAGE_SIZE {
      CutMessage(c.data, ms);
      CutStep(c, r, ms);
      var rest, m := c.data[MESSAGE_SIZE..], ms[0];
      assert m in ms;
      if HasPayload(m.ev) && |rest| >= |m.payload| {
        assert rest[..|m.payload|] == (m.payload + WriteAll(ms[1..]))[..|m.payload|] == m.payload;
        assert rest[|m.payload|..] <= WriteAll(ms[1..]);
      } else if !HasPayload(m.ev) {
        assert m.payload + WriteAll(ms[1..]) == WriteAll(ms[1..]);
        assert m == Out(m.ev, []);
      }
    }
  }

  /** A round that skips may still handle the next message, if it has no payload to skip. */
  lemma SkippingStep(c: Conn, r: Round, ms: seq<Out>)
    requires !c.fallback && r.poll.Readable? && CutOff(c.data, ms) && AllWellFormed(ms) && Skips(r)
    ensures var v := Step(c, r);
            v.handled == c.handled || (ms != [] && v.handled == c.handled + [ms[0]])
  {
    if |c.data| >= MESSAGE_SIZE {
      CutStep(c, r, ms);
      assert ms[0] in ms;
      assert !HasPayload(ms[0].ev) ==> ms[0] == Out(ms[0].ev, []);
    }
  }

  lemma Between(before: seq<Out>, ms: seq<Out>, after: seq<Out>)
    requires ms != [] && before + [ms[0]] <= after <= before + [ms[0]] + ms[1..]
    ensures before <= after <= before + ms
  {
    assert before + [ms[0]] + ms[1..] == before + ms;
  }

  lemma {:induction false} InStepRun(ms: seq<Out>, rounds: seq<Round>, c: Conn)
    requires AllWellFormed(ms) && InStep(rounds) && !c.fallback && CutOff(c.data, ms)
    ensures c.handled <= Run(c, rounds).handled <= c.handled + ms
    decreases |rounds|, 1
  {
    if rounds == [] {
    } else {
      var r, v := rounds[0], Step(c, rounds[0]);
      if r.poll.Quiet? {
        InStepRun(ms, rounds[1..], v);
      } else if r.poll.HungUp? {
        FallbackStays(v, rounds[1..]);
      } else if Skips(r) {
        SkippingStep(c, r, ms);
        DeafRun(v, rounds[1..]);
      } else {
        AttentiveStep(c, r, ms);
        AttentiveRun(ms, rounds[1..], c, v);
      }
    }
  }

  lemma {:induction false} AttentiveRun(ms: seq<Out>, rounds: seq<Round>, c: Conn, v: Conn)
    requires AllWellFormed(ms) && InStep(rounds)
    requires || (v.handled == c.handled && (v.fallback || v.data == []))
             || (ms != [] && v.handled == c.handled + [ms[0]] && CutOff(v.data, ms[1..]))
    ensures c.handled <= Run(v, rounds).handled <= c.handled + ms
    decreases |rounds|, 2
  {
    if v.fallback {
      FallbackStays(v, rounds);
      assert ms != [] ==> c.handled + [ms[0]] <= c.handled + ms;
    } else if v.handled == c.handled {
      DrainedRun(v, rounds);
    } else {
      InStepRun(ms[1..], rounds, v);
      Between(c.handled, ms, Run(v, rounds).handled);
    }
  }

  const SET_VAR := Out(Event(OUTPUT_TYPE_SET_CONSUMER_VAR, 1, 1, 0, 0), [])

  /** A clipboard event whose text happens to read as an output event. */
  const CLIP := Out(Event(OUTPUT_TYPE_CLIPBOARD, MESSAGE_SIZE, 0, 0, 0), Write(SET_VAR))

  /** One plain event for every read before the first skip that is read past, then the clipboard event. */
  function Misread(rounds: seq<Round>): seq<Out> {
    if rounds == [] then []
    else if rounds[0].poll.Readable? then if Skips(rounds[0]) then [CLIP] else [SET_VAR] + Misread(rounds[1..])
    else Misread(rounds[1..])
  }

  lemma {:induction false} MisreadTail(rounds: seq<Round>, c: Conn)
    requires !Deaf(rounds) && !c.fallback && c.data == Write(SET_VAR)
    ensures c.handled + [SET_VAR] <= Run(c, rounds).handled
  {
    if rounds[0].poll.Readable? {
      assert c.data == Write(SET_VAR) + [];
      ReadsBack(SET_VAR, [], rounds[0], c);
      assert SET_VAR.payload + [] == [];
      DrainedRun(Step(c, rounds[0]), rounds[1..]);
    } else {
      MisreadTail(rounds[1..], Step(c, rounds[0]));
    }
  }

  lemma NotWithin(handled: seq<Out>, ms: seq<Out>, all: seq<Out>)
    requires ms != [] && !(all <= handled + [ms[0]] + ms[1..])
    ensures !(all <= handled + ms)
  {
    assert handled + [ms[0]] + ms[1..] == handled + ms;
  }

  lemma {:induction false} MisreadRun(rounds: seq<Round>, c: Conn)
    requires !InStep(rounds) && !c.fallback && c.data == WriteAll(Misread(rounds))
    ensures AllWellFormed(Misread(rounds)) && !(Run(c, rounds).handled <= c.handled + Misread(rounds))
  {
    var r := rounds[0];
    var ms := Misread(rounds);
    if r.poll.Quiet? {
      MisreadRun(rounds[1..], c);
    } else if Skips(r) {
      ReadsBack(CLIP, [], r, c);
      var v := Step(c, r);
      assert v.data == Write(SET_VAR) + [] == Write(SET_VAR);
      MisreadTail(rounds[1..], v);
      assert Run(v, rounds[1..]).handled[|c.handled|] == SET_VAR;
      assert (c.handled + ms)[|c.handled|] == CLIP;
    } else {
      var rest := WriteAll(Misread(rounds[1..]));
      ReadsBack(SET_VAR, rest, r, c);
      assert SET_VAR.payload + rest == rest;
      MisreadRun(rounds[1..], Step(c, r));
      NotWithin(c.handled, ms, Run(c, rounds).handled);
    }
  }

  /**
   What is handled is a prefix of the list sent, for every list and every point at which the stream ends,
   exactly when no round that leaves a payload behind is followed by another read.
   */
  lemma HandledIsPrefixIffInStep(rounds: seq<Round>)
    ensures InStep(rounds) <==>
            forall ms: seq<Out>, data: seq<byte> | AllWellFormed(ms) && CutOff(data, ms) ::
              Run(Start(data), rounds).handled <= ms
  {
    if InStep(rounds) {
      forall ms: seq<Out>, data: seq<byte> | AllWellFormed(ms) && CutOff(data, ms)
        ensures Run(Start(data), rounds).handled <= ms
      {
        InStepRun(ms, rounds, Start(data));
      }
    } else {
      var ms := Misread(rounds);
      MisreadRun(rounds, Start(WriteAll(ms)));
      assert CutOff(WriteAll(ms), ms);
    }
  }
}
