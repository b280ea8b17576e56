/** Three runs of the event thread: made anew by the next session, made by a session already over, stopped late. */
module EventRuns {
  import opened Sessions
  import opened Adjacency
  import opened Undisciplined
  import opened EventStop

  /** Any rule will do: these runs keep all of them. */
  const ANY := RequestedOnce

  /** Every thread is in its own loop, or finished. */
  ghost predicate AllIdle(s: State) {
    forall u :: At(s, u).Idle? || At(s, u).Dead?
  }

  /** Some schedule of START leads to this state. */
  ghost predicate Happens(s: State) {
    exists acts :: s in Run(ONE, START, acts)
  }

  lemma ReachedHappens(s: State)
    requires Reached(ANY, s)
    ensures Happens(s)
  {
    var acts :| Leads(ANY, acts, START, s);
    LeadsVisited(ANY, acts, START, s);
  }

  // ---------- two sessions ----------

  /** One session and a fallback entered by the render thread itself; the event thread leaves its loop. */
  lemma FirstEnds() returns (s: State)
    ensures Looks(ANY, s, s.m, Idle, Dead, Idle) && Quiet(s.m, 1) && s.m.h.flips == [Exit(RENDER), Enter(RENDER)]
    ensures s.m.ev == EventThread(false, true, 1, 0)
  {
    s := FirstSession(ANY);
    s := Tear(ANY, s, RENDER);
    s := Leave(ANY, s, EVENT);
  }

  lemma SecondFlip() returns (s: State)
    ensures Looks(ANY, s, s.m, ExCall, Dead, Idle) && Open(s.m, 1) && s.m.ev == EventThread(false, true, 1, 0)
    ensures s.m.h.flips == [Exit(RENDER), Enter(RENDER), Exit(RENDER)]
  {
    s := FirstEnds();
    s := Enters(ANY, s, 1, false);
  }

  lemma SecondReap() returns (s: State)
    ensures Looks(ANY, s, s.m, StSet, Dead, Idle) && Open(s.m, 1) && s.m.ev == EventThread(false, false, 1, 1)
    ensures s.m.h.flips == [Exit(RENDER), Enter(RENDER), Exit(RENDER)]
  {
    s := SecondFlip();
    s := Callback(ANY, s);
    s := ToReap(ANY, s);
  }

  /** The second session reaps the event thread of the first, and has its own. */
  lemma SecondSession() returns (s: State)
    ensures Happens(s) && AllIdle(s) && s.m.connected && !s.m.fallback
    ensures s.m.h.flips == [Exit(RENDER), Enter(RENDER), Exit(RENDER)]
    ensures s.m.ev == EventThread(true, true, 2, 1) && At(s, Ev(0)).Dead? && At(s, Ev(1)).Idle?
  {
    s := SecondReap();
    s := ToCreate(ANY, s);
    s := Create(ANY, s);
    ReachedHappens(s);
  }

  // ---------- set again in fallback ----------

  lemma Overtaken() returns (s: State)
    ensures Looks(ANY, s, s.m, StSet, Dead, Idle) && Stopped(s) && s.m.ev == EventThread(false, false, 0, 0)
    ensures s.m.h.flips == [Exit(RENDER), Enter(INPUT)]
  {
    s := FirstFlip(ANY);
    s := Callback(ANY, s);
    s := ToReap(ANY, s);
    s := Tear(ANY, s, INPUT);
  }

  /**
   An input thread's failed send ends the session while the render thread is still in its exit callback: the callbacks
   of both are made, and the event thread runs in fallback.
   */
  lemma RunsInFallback() returns (s: State)
    ensures Happens(s) && AllIdle(s) && s.m.connected && s.m.fallback && !CallbackOwed(s)
    ensures s.m.h.flips == [Exit(RENDER), Enter(INPUT)] && s.m.ev == EventThread(true, true, 1, 0)
  {
    s := Overtaken();
    s := ToCreate(ANY, s);
    s := Create(ANY, s);
    ReachedHappens(s);
  }

  // ---------- stopped late ----------

  /** An input thread has ended the session and not made its callback yet. */
  lemma CallbackPending() returns (s: State)
    ensures Looks(ANY, s, s.m, Idle, Idle, EnCall(RIdle)) && Quiet(s.m, 1) && s.m.ev == EventThread(true, true, 1, 0)
    ensures s.m.h.flips == [Exit(RENDER), Enter(INPUT)]
  {
    s := FirstSession(ANY);
    s := TearDown(ANY, s, INPUT);
    s := TearUp(ANY, s, INPUT);
  }

  lemma FlipsAhead() returns (s: State)
    ensures Looks(ANY, s, s.m, ExCall, Idle, EnCall(RIdle)) && Open(s.m, 1) && s.m.ev == EventThread(true, true, 1, 0)
    ensures s.m.h.flips == [Exit(RENDER), Enter(INPUT), Exit(RENDER)]
  {
    s := CallbackPending();
    s := Enters(ANY, s, 1, false);
  }

  /** start_event_thread finds event_running set, and returns. */
  lemma FindsRunning(s: State) returns (v: State)
    requires Reached(ANY, s) && At(s, RENDER) == ExCall && s.m.connected && s.m.ev.running
    ensures Reached(ANY, v) && At(v, RENDER) == Idle && Only(s, v, RENDER)
    ensures v.m == s.m.(h := s.m.h.(called := s.m.h.called + multiset{Exit(RENDER)}))
  {
    v := Advance(ANY, s, RENDER, Failed,
                 Local(StCheck, s.m.(h := s.m.h.(called := s.m.h.called + multiset{Exit(RENDER)}))));
    v := Advance(ANY, v, RENDER, Ok, Local(Idle, v.m));
  }

  /**
   The next session begins before the last one's fallback callback is made: the callback then stops the event thread of
   the new session, which has none from there on.
   */
  lemma SessionWithoutEvents() returns (s: State)
    ensures Happens(s) && AllIdle(s) && s.m.connected && !s.m.fallback && !CallbackOwed(s)
    ensures s.m.h.flips == [Exit(RENDER), Enter(INPUT), Exit(RENDER)]
    ensures !s.m.ev.running && At(s, Ev(0)).Dead? && s.m.ev.created == 1
  {
    s := FlipsAhead();
    s := FindsRunning(s);
    s := TearCall(ANY, s, INPUT);
    s := Leave(ANY, s, EVENT);
    ReachedHappens(s);
  }
}
