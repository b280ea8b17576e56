/**
 A whole run up to the first frame: connect, store a table, FDS_READY, select, the producer's message, and the
 fence handed back. What Runs says of every run is said of this one too.
 */
module FirstFrame {
  import opened Wire
  import opened InputFraming
  import opened Kernel
  import opened Endpoints
  import opened Renewal
  import opened Agreement
  import opened Context
  import opened Calls
  import opened Runs
  import opened Promises

  /** A process with a control connection as descriptor 0 and nothing else. */
  const PROCESS := OS(map[0 := Foreign(0)], map[], 0, map[], map[], map[], map[], map[], [], {}, [])

  const CHANNELS := NO_ENDS.(bufReady := 1)
  const MEMORY := CHANNELS.(shm := 2, address := 1)
  const ENDS := MEMORY.(data := 3, fence := 4, audio := 5)

  lemma Connects() returns (t: Ctx)
    ensures Begun(PROCESS, 0, t) && t.os.inbox == [] && t.os.fences == map[]
    ensures |t.os.hellos| == 1 && t.os.answered == {}
  {
    var a := Opened(PROCESS, 1, EventFd(0));
    var b := Mapped(a, 2, 1);
    var c := Connected(b, 3, 4, 5).(hellos := [HelloFor(b, MEMORY)]);
    OpeningStart(PROCESS, 0);
    OpeningBufReady(PROCESS, 0, PROCESS, NO_ENDS, 1);
    OpeningShm(PROCESS, 0, a, CHANNELS, b, MEMORY);
    assert HelloSent(b, MEMORY, 0, c, Connected(b, 3, 4, 5));
    HelloRenews(PROCESS, 0, b, MEMORY, 0, c, ENDS);
    t := NewCtx(PROCESS, 0).(os := c, e := ENDS);
  }

  /** Every syscall succeeds, and every message is there in time. */
  const FINE := Answers(true, Arrived, true, 1000, 1000, Setup(true, true, true, true, 3, true))

  const INFO := BufInfo(256, 64, 64, 1, 0, 0)

  lemma Stores(s: Ctx) returns (t: Ctx)
    requires s.fallback
    ensures Step(s, Table([INFO], [7], FINE, 0), t) && t == s.(infos := [INFO], fds := [7])
  {
    t := s.(infos := [INFO], fds := [7]);
    assert [INFO][..1] == [INFO] && [7][..1] == [7];
  }

  lemma ProducerAnswers(s: Ctx) returns (t: Ctx)
    requires |s.os.hellos| == 1 && s.os.answered == {} && s.os.inbox == []
    ensures Step(s, Producer(Answer(0)), t) && t == s.(os := t.os)
    ensures t.os.inbox == [Ready(0)] && t.os.fences == s.os.fences
  {
    t := s.(os := Moved(s.os, Answer(0)));
  }

  /** The flip and the table, as select_dmabuf makes them. */
  lemma Flips(s: Ctx) returns (u: Ctx)
    requires Good(s) && s.fallback && s.os.inbox != [] && s.os.inbox[0].Ready? && s.fds == [7] && s.infos == [INFO]
    ensures TriedExit(s, FINE, u) && Good(u) && !u.fallback && !u.pending && u.fds == s.fds
    ensures u.missed == 0 && u.queued == [] && u.os.fences == s.os.fences
  {
    var v := Flipped(s);
    FlippedReady(s);
    var m := BufsReady(v.infos, v.fds);
    BytesWrite(m);
    var w := v.(os := Sent(v.os, v.os.open[v.e.data].pair, Write(m)), log := v.log + [m]);
    u := w.(exitCalls := s.exitCalls + 1);
    assert u.(exitCalls := s.exitCalls) == w;
    assert Pushed(v, FINE, w);
    TriedExitGood(s, FINE, u);
  }

  /** The frame announced in a session. */
  lemma Announces(s: Ctx) returns (t: Ctx)
    requires Good(s) && !s.fallback && !s.pending && s.fds == [7]
    ensures Chose(s, 0, t, 0) && !t.fallback && t.pending && t.fds == s.fds && t.missed == s.missed
            && t.queued == s.queued
    ensures t.os.fences == s.os.fences && SessionFences(t.os, t.e) == SessionFences(s.os, s.e)
  {
    GoodUsable(s);
    t := s.(os := Signalled(s.os.(memory := s.os.memory[s.os.maps[s.e.address].id := 0]), s.os.open[s.e.bufReady].id),
            pending := true);
  }

  lemma Selects(s: Ctx) returns (t: Ctx)
    requires Good(s) && s.fallback && s.os.inbox != [] && s.os.inbox[0].Ready? && s.fds == [7] && s.infos == [INFO]
    ensures Step(s, Select(0, FINE, 0), t) && !t.fallback && t.pending && t.fds == [7]
    ensures t.missed == 0 && t.queued == [] && t.os.fences == s.os.fences
  {
    var u := Flips(s);
    t := Announces(u);
  }

  /** The producer sends the message of a frame announced and not answered yet. */
  lemma Draws(s: Ctx, fence: int) returns (t: Ctx)
    requires Good(s) && !s.fallback && |SessionFences(s.os, s.e)| < Announced(s.os, s.e)
    ensures Step(s, Producer(Render(|s.os.hellos| - 1, fence)), t)
    ensures t == s.(os := t.os) && SessionFences(t.os, t.e) == SessionFences(s.os, s.e) + [fence]
    ensures Announced(t.os, t.e) == Announced(s.os, s.e)
  {
    SessionAgreed(s);
    var move := Render(|s.os.hellos| - 1, fence);
    assert CanMove(s.os, move);
    t := s.(os := Moved(s.os, move));
  }

  /** The message is there, and is read. */
  lemma Ends(s: Ctx) returns (t: Ctx, fence: int)
    requires Good(s) && !s.fallback && s.pending && |s.queued| < |SessionFences(s.os, s.e)|
    ensures fence == SessionFences(s.os, s.e)[|s.queued|] && Step(s, Refresh(FINE, fence), t) && Finished(s, t, fence)
    ensures !t.fallback && !t.pending && t.queued == s.queued + [fence]
  {
    SessionAgreed(s);
    var pair := s.os.open[s.e.fence].pair;
    fence := Fences(s.os, pair)[Taken(s.os, pair)];
    t := s.(os := TookOne(s.os, pair), pending := false, queued := s.queued + [fence]);
  }

  // ---------- runs of this process ----------

  function Origin(trace: Trace): Ctx {
    match trace
    case First(s) => s
    case Then(before, _, _) => Origin(before)
  }

  ghost predicate Real(trace: Trace) {
    Begun(PROCESS, 0, Origin(trace)) && Leads(Origin(trace), trace)
  }

  lemma RealGood(trace: Trace)
    requires Real(trace)
    ensures Good(trace.s)
  {
    BegunGood(PROCESS, 0, Origin(trace));
    LeadsGood(Origin(trace), trace);
  }

  lemma RunMore(ss: seq<Ctx>, calls: seq<Call>, call: Call, t: Ctx)
    requires IsRun(PROCESS, 0, ss, calls) && Step(ss[|calls|], call, t)
    ensures IsRun(PROCESS, 0, ss + [t], calls + [call])
  {
    var ss', calls' := ss + [t], calls + [call];
    forall i | 0 <= i < |calls'|
      ensures Step(ss'[i], calls'[i], ss'[i + 1])
    {
      if i < |calls| {
        assert ss'[i] == ss[i] && ss'[i + 1] == ss[i + 1] && calls'[i] == calls[i];
      }
    }
  }

  /** Such a trace is a run in the sense of Runs. */
  lemma {:induction false} RealRun(trace: Trace) returns (ss: seq<Ctx>, calls: seq<Call>)
    requires Real(trace)
    ensures IsRun(PROCESS, 0, ss, calls) && ss[|calls|] == trace.s
  {
    match trace
    case First(s) =>
      ss, calls := [s], [];
    case Then(before, call, s) =>
      ss, calls := RealRun(before);
      RunMore(ss, calls, call, s);
      ss, calls := ss + [s], calls + [call];
  }

  lemma ConnectedRuns() returns (trace: Trace)
    ensures Real(trace) && var s := trace.s;
            s.fallback && s.os.inbox == [] && s.os.fences == map[] && |s.os.hellos| == 1 && s.os.answered == {}
  {
    var s := Connects();
    trace := First(s);
  }

  /** A table is stored and the hello answered. */
  lemma AnsweredRuns() returns (trace: Trace)
    ensures Real(trace) && var s := trace.s;
            s.fallback && s.os.inbox == [Ready(0)] && s.os.fences == map[] && s.fds == [7] && s.infos == [INFO]
  {
    trace := ConnectedRuns();
    var s := Stores(trace.s);
    trace := Then(trace, Table([INFO], [7], FINE, 0), s);
    var t := ProducerAnswers(s);
    trace := Then(trace, Producer(Answer(0)), t);
  }

  lemma GoodCounts(s: Ctx)
    requires Good(s)
    ensures Announced(s.os, s.e) == |s.queued| + s.missed + (if s.pending then 1 else 0)
  {
  }

  lemma NoFences(os: OS, e: Ends)
    requires os.fences == map[]
    ensures SessionFences(os, e) == []
  {
  }

  /** The first frame announced. */
  lemma SelectedRuns() returns (trace: Trace)
    ensures Real(trace) && var s := trace.s;
            !s.fallback && s.pending && s.fds == [7] && s.missed == 0 && s.queued == []
            && SessionFences(s.os, s.e) == []
  {
    trace := AnsweredRuns();
    RealGood(trace);
    var s := Selects(trace.s);
    NoFences(s.os, s.e);
    trace := Then(trace, Select(0, FINE, 0), s);
  }

  /** The producer's message for the frame announced last. */
  lemma DrawnRuns(before: Trace, fence: int) returns (trace: Trace)
    requires Real(before) && var s := before.s;
             !s.fallback && s.pending && |SessionFences(s.os, s.e)| == |s.queued| + s.missed
    ensures Real(trace) && var s, t := before.s, trace.s;
            && !t.fallback && t.pending && t.missed == s.missed && t.queued == s.queued && t.fds == s.fds
            && SessionFences(t.os, t.e) == SessionFences(s.os, s.e) + [fence]
            && Announced(t.os, t.e) == |s.queued| + s.missed + 1
  {
    RealGood(before);
    GoodCounts(before.s);
    var t := Draws(before.s, fence);
    trace := Then(before, Producer(Render(|before.s.os.hellos| - 1, fence)), t);
  }

  /** The message of the pending frame is there, and is received. */
  lemma EndedRuns(before: Trace) returns (trace: Trace)
    requires Real(before) && var s := before.s;
             !s.fallback && s.pending && |s.queued| < |SessionFences(s.os, s.e)|
    ensures Real(trace) && var s, t := before.s, trace.s;
            !t.fallback && !t.pending && t.queued == s.queued + [SessionFences(s.os, s.e)[|s.queued|]]
  {
    RealGood(before);
    var t, r := Ends(before.s);
    trace := Then(before, Refresh(FINE, r), t);
  }

  /** Whatever fence the producer sends, some run ends in a session with that one fence handed back. */
  lemma FirstFrameRuns(fence: int) returns (trace: Trace)
    ensures Real(trace) && var s := trace.s; !s.fallback && !s.pending && s.queued == [fence]
  {
    trace := SelectedRuns();
    trace := DrawnRuns(trace, fence);
    trace := EndedRuns(trace);
  }

  // ---------- a failed read ----------

  lemma Misses(s: Ctx) returns (t: Ctx)
    requires s.pending
    ensures Step(s, Refresh(FINE.(report := Refused), -1), t) && t == s.(pending := false, missed := s.missed + 1)
  {
    t := s.(pending := false, missed := s.missed + 1);
  }

  /** recvmsg fails although poll has reported the message: the frame is given up, the message stays. */
  lemma MissedRuns(first: int) returns (trace: Trace)
    ensures Real(trace) && var s := trace.s;
            && !s.fallback && !s.pending && s.fds == [7]
            && s.missed == 1 && s.queued == [] && SessionFences(s.os, s.e) == [first]
  {
    trace := SelectedRuns();
    trace := DrawnRuns(trace, first);
    var s := Misses(trace.s);
    trace := Then(trace, Refresh(FINE.(report := Refused), -1), s);
  }

  lemma NextSelectedRuns(first: int) returns (trace: Trace)
    ensures Real(trace) && var s := trace.s;
            !s.fallback && s.pending && s.missed == 1 && s.queued == [] && SessionFences(s.os, s.e) == [first]
  {
    trace := MissedRuns(first);
    RealGood(trace);
    var s := Announces(trace.s);
    trace := Then(trace, Select(0, FINE, 0), s);
  }

  /** One failed read, and the second frame is handed the first frame's fence. */
  lemma OtherFrameFence(first: int, second: int) returns (trace: Trace, t: Ctx)
    ensures Real(trace) && Real(Then(trace, Refresh(FINE, first), t)) && Finished(trace.s, t, first)
    ensures var s := trace.s; Announced(s.os, s.e) == 2 && SessionFences(s.os, s.e) == [first, second]
  {
    trace := NextSelectedRuns(first);
    trace := DrawnRuns(trace, second);
    assert [first] + [second] == [first, second];
    RealGood(trace);
    var fence;
    t, fence := Ends(trace.s);
  }
}
