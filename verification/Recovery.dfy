/**
 When a context in fallback can have a session again: if and only if its latest hello was delivered. A syscall that
 fails while enter_fallback opens the new endpoints leaves the context in fallback for good.
 */
module Recovery {
  import opened Wire
  import opened InputFraming
  import opened Kernel
  import opened Renewal
  import opened Agreement
  import opened Context
  import opened Calls
  import opened Runs
  import opened Pacing

  /** In fallback with no hello the producer could still answer, and no answer to read. */
  predicate Stuck(s: Ctx) {
    s.fallback && Answered(s.os) && NoReady(s.os.inbox)
  }

  // ---------- nothing leads out ----------

  lemma TriedStuck(s: Ctx, a: Answers, t: Ctx)
    requires Stuck(s) && TriedExit(s, a, t)
    ensures Stuck(t)
  {
  }

  lemma MovedStuck(s: Ctx, move: Move)
    requires Stuck(s) && CanMove(s.os, move)
    ensures Stuck(s.(os := Moved(s.os, move)))
  {
  }

  lemma StepStuck(s: Ctx, call: Call, t: Ctx)
    requires Stuck(s) && Unpaced(s) && Step(s, call, t)
    ensures Stuck(t)
  {
    match call
    case Select(idx, a, r) =>
      var u :| TriedExit(s, a, u) && Chose(u, idx, t, r);
      TriedStuck(s, a, u);
    case Producer(move) => MovedStuck(s, move);
    case _ =>
  }

  lemma {:induction false} StuckForGood(s: Ctx, trace: Trace)
    requires Good(s) && Stuck(s) && Leads(s, trace)
    ensures Stuck(trace.s)
  {
    match trace
    case First(_) =>
    case Then(before, call, t) =>
      StuckForGood(s, before);
      LeadsGood(s, before);
      GoodUnpaced(before.s);
      StepStuck(before.s, call, t);
  }

  // ---------- a way out ----------

  predicate ReadyThere(s: Ctx) {
    s.fallback && exists i :: 0 <= i < |s.os.inbox| && s.os.inbox[i].Ready?
  }

  lemma ProducerAnswers(s: Ctx) returns (move: Move, t: Ctx)
    requires s.fallback && !Answered(s.os)
    ensures Step(s, Producer(move), t) && ReadyThere(t)
  {
    var n: nat :| n < |s.os.hellos| && n !in s.os.answered;
    move := Answer(n);
    t := s.(os := Moved(s.os, move));
    assert t.os.inbox[|s.os.inbox|] == Ready(n);
  }

  const NOTHING := Setup(false, false, false, false, 0, false)

  /** The sends move whatever there is of this table. */
  function Roomy(s: Ctx): Answers {
    Answers(true, Silent, false, HEADER_SIZE, BUF_INFO_SIZE * |s.fds|, NOTHING)
  }

  /** One header that is no FDS_READY. */
  lemma Skips(s: Ctx) returns (t: Ctx)
    requires ReadyThere(s) && !s.os.inbox[0].Ready?
    ensures Step(s, Select(-1, Roomy(s), 0), t) && ReadyThere(t) && |t.os.inbox| < |s.os.inbox|
  {
    t := s.(os := s.os.(inbox := s.os.inbox[1..]));
    var i :| 0 <= i < |s.os.inbox| && s.os.inbox[i].Ready?;
    assert t.os.inbox[i - 1] == s.os.inbox[i];
    assert TriedExit(s, Roomy(s), t) && Chose(t, -1, t, 0);
  }

  lemma TableSent(v: Ctx, a: Answers) returns (w: Ctx)
    requires !v.fallback && HasData(v) && |v.infos| == |v.fds| <= MAX_BUFS
    requires a.first == HEADER_SIZE && a.second == BUF_INFO_SIZE * |v.fds|
    ensures Pushed(v, a, w) && !w.fallback && w.exitCalls == v.exitCalls
  {
    if v.fds == [] {
      return v;
    }
    var m := BufsReady(v.infos, v.fds);
    w := v.(os := Sent(v.os, v.os.open[v.e.data].pair, Bytes(m)), log := v.log + Logged(m));
    assert Goes(v, m, a) && SentOne(v, m, w);
  }

  lemma FlippedFit(s: Ctx)
    requires Good(s) && s.fallback && s.os.inbox != [] && s.os.inbox[0].Ready?
    ensures HasData(Flipped(s)) && |s.infos| == |s.fds| <= MAX_BUFS
  {
    FlippedReady(s);
  }

  lemma Flips(s: Ctx) returns (t: Ctx)
    requires Good(s) && s.fallback && s.os.inbox != [] && s.os.inbox[0].Ready?
    ensures Step(s, Select(-1, Roomy(s), -1), t) && !t.fallback
  {
    FlippedFit(s);
    var w := TableSent(Flipped(s), Roomy(s));
    t := w.(exitCalls := s.exitCalls + 1);
    assert t.(exitCalls := s.exitCalls) == w;
    assert TriedExit(s, Roomy(s), t) && Chose(t, -1, t, -1);
  }

  lemma {:induction false} Drains(s: Ctx, before: Trace) returns (trace: Trace)
    requires Good(s) && Leads(s, before) && ReadyThere(before.s)
    ensures Leads(s, trace) && !trace.s.fallback
    decreases |before.s.os.inbox|
  {
    LeadsGood(s, before);
    if before.s.os.inbox[0].Ready? {
      var t := Flips(before.s);
      trace := Then(before, Select(-1, Roomy(before.s), -1), t);
    } else {
      var t := Skips(before.s);
      trace := Drains(s, Then(before, Select(-1, Roomy(before.s), 0), t));
    }
  }

  lemma Recovers(s: Ctx) returns (trace: Trace)
    requires Good(s) && s.fallback && !Stuck(s)
    ensures Leads(s, trace) && !trace.s.fallback
  {
    trace := First(s);
    if Answered(s.os) {
      trace := Drains(s, trace);
    } else {
      var move, t := ProducerAnswers(s);
      trace := Drains(s, Then(trace, Producer(move), t));
    }
  }

  /** Some calls and producer moves lead to a session. */
  ghost predicate ComesBack(s: Ctx) {
    exists trace :: Leads(s, trace) && !trace.s.fallback
  }

  lemma ComesBackIff(s: Ctx)
    requires Good(s) && s.fallback
    ensures ComesBack(s) <==> !Stuck(s)
  {
    if Stuck(s) {
      forall trace | Leads(s, trace)
        ensures trace.s.fallback
      {
        StuckForGood(s, trace);
      }
    } else {
      var trace := Recovers(s);
    }
  }

  lemma FellStuckIff(s: Ctx, k: Setup, t: Ctx)
    requires Good(s) && Fell(s, k, t)
    ensures Stuck(t) <==> !Delivers(k)
  {
    ActiveSettled(s.os, s.e);
    if Delivers(k) {
      assert (|t.os.hellos| - 1) !in t.os.answered;
    }
  }

  lemma FellGood(s: Ctx, k: Setup, t: Ctx)
    requires Good(s) && Fell(s, k, t)
    ensures Good(t) && t.fallback
  {
    FellConsistent(s, k, t);
    FellCalls(s, k, t);
  }

  /** After enter_fallback a session can follow if and only if every syscall it made succeeded: none is tried again. */
  lemma FallbackEndsIff(s: Ctx, k: Setup, t: Ctx)
    requires Good(s) && Fell(s, k, t)
    ensures ComesBack(t) <==> k.eventfd && k.memfd && k.ftruncate && k.mmap && k.pairs >= 3 && k.hello
  {
    FellGood(s, k, t);
    FellStuckIff(s, k, t);
    ComesBackIff(t);
  }
}
