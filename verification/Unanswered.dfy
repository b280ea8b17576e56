/**
 Two runs in which the write gate opens although the session has answered nothing: a request that began in an earlier
 session, or in fallback, is recorded in the mask of the next.
 */
module Unanswered {
  import opened Sessions
  import opened Adjacency
  import opened Undisciplined

  /** The rule these runs break: a request is under way at the flip. */
  const FLIP := NoneAtFlip

  lemma Happens(s: State)
    requires Reached(FLIP, s)
    ensures exists acts :: Leads(FLIP, acts, START, s) && s in Run(ONE, START, acts)
  {
    var acts :| Leads(FLIP, acts, START, s);
    LeadsVisited(FLIP, acts, START, s);
  }

  /** In a session with nothing recorded, a request about to check `fallback` once more records its service. */
  lemma Records(s: State, g: nat) returns (v: State)
    requires Reached(FLIP, s) && At(s, EVENT) == MkCheck(0) && Open(s.m, g) && s.m.mask == {}
    ensures Reached(FLIP, v) && At(v, EVENT) == Idle && Open(v.m, g) && !v.m.gate && v.m.net == s.m.net
    ensures v.m.h == s.m.h
  {
    v := Mark(FLIP, s);
    v := Marked(FLIP, v);
  }

  lemma NextSession(s: State) returns (v: State)
    requires Looks(FLIP, s, s.m, Idle, MkCheck(0), Idle) && Quiet(s.m, 1)
    ensures Reached(FLIP, v) && At(v, EVENT) == MkCheck(0) && Open(v.m, 1) && v.m.mask == {} && v.m.net == s.m.net
    ensures v.m.h.flips == s.m.h.flips + [Exit(RENDER)]
  {
    v := Enters(FLIP, s, 1, false);
  }

  // ---------- a request dropped in fallback ----------

  lemma AskedInFallback() returns (s: State)
    ensures Looks(FLIP, s, s.m, Idle, MkCheck(0), Idle) && Quiet(s.m, 1) && s.m.net == Net(map[], {})
    ensures s.m.h.flips == [Exit(RENDER), Enter(INPUT)]
  {
    s := FirstSession(FLIP);
    s := Ask(FLIP, s);
    s := Tear(FLIP, s, INPUT);
    s := Advance(FLIP, s, EVENT, Ok, Local(MkCheck(0), s.m));
  }

  /** push_input_event_with_fds has returned at once, in fallback; the service is recorded, and the gate opens. */
  lemma DroppedButRecorded() returns (s: State)
    ensures exists acts :: Leads(FLIP, acts, START, s) && s in Run(ONE, START, acts)
    ensures Open(s.m, 1) && !s.m.gate && s.m.net == Net(map[], {})
    ensures s.m.h.flips == [Exit(RENDER), Enter(INPUT), Exit(RENDER)]
  {
    s := AskedInFallback();
    s := NextSession(s);
    s := Records(s, 1);
    Happens(s);
  }

  // ---------- a reply that has failed ----------

  /** The reply's first send fails. */
  lemma ReplyFails() returns (s: State)
    ensures Looks(FLIP, s, s.m, Idle, EnLock(RMark(0)), Idle) && Open(s.m, 0) && s.m.h.flips == [Exit(RENDER)]
    ensures s.m.ctrl.inbox == [] && 1 !in s.m.net.streams && 1 !in s.m.net.broken
  {
    s := FirstSession(FLIP);
    s := Ask(FLIP, s);
    s := ToLock(FLIP, s);
    s := ToEvent(FLIP, s, 0);
    s := FailsToSend(s);
  }

  lemma FailsToSend(s: State) returns (v: State)
    requires Reached(FLIP, s) && At(s, EVENT) == FdEvent(0, 1, Gen(0)) && s.m.connected && s.m.fd == Gen(0)
    ensures Reached(FLIP, v) && At(v, EVENT) == EnLock(RMark(0)) && Only(s, v, EVENT)
    ensures v.m == s.m.(dataLock := Free, net := s.m.net.(broken := s.m.net.broken + {0}))
  {
    var broken := s.m.net.(broken := s.m.net.broken + {0});
    v := Advance(FLIP, s, EVENT, Failed, Local(FdUnlock(0, false), s.m.(net := broken)));
    v := Advance(FLIP, v, EVENT, Ok, Local(EnLock(RMark(0)), v.m.(dataLock := Free)));
  }

  lemma LocksLate(s: State) returns (v: State)
    requires Reached(FLIP, s) && At(s, EVENT) == EnLock(RMark(0)) && Quiet(s.m, 1)
    ensures Reached(FLIP, v) && At(v, EVENT) == EnTest(RMark(0)) && Only(s, v, EVENT)
    ensures v.m == s.m.(stateLock := Held(EVENT))
  {
    v := Advance(FLIP, s, EVENT, Ok, Local(EnTest(RMark(0)), s.m.(stateLock := Held(EVENT))));
  }

  lemma TestsLate(s: State) returns (v: State)
    requires Reached(FLIP, s) && At(s, EVENT) == EnLock(RMark(0)) && Quiet(s.m, 1)
    ensures Reached(FLIP, v) && At(v, EVENT) == EnLost(RMark(0)) && Only(s, v, EVENT)
    ensures v.m == s.m.(stateLock := Held(EVENT))
  {
    v := LocksLate(s);
    v := Advance(FLIP, v, EVENT, Ok, Local(EnLost(RMark(0)), v.m));
  }

  /** Another thread has entered fallback first. */
  lemma Loses(s: State) returns (v: State)
    requires Reached(FLIP, s) && At(s, EVENT) == EnLock(RMark(0)) && Quiet(s.m, 1)
    ensures Reached(FLIP, v) && At(v, EVENT) == MkCheck(0) && Only(s, v, EVENT) && v.m == s.m
  {
    v := TestsLate(s);
    v := Advance(FLIP, v, EVENT, Ok, Local(MkCheck(0), v.m.(stateLock := Free)));
  }

  lemma Overtaken() returns (s: State)
    ensures Looks(FLIP, s, s.m, Idle, MkCheck(0), Idle) && Quiet(s.m, 1)
    ensures 1 !in s.m.net.streams && s.m.h.flips == [Exit(RENDER), Enter(INPUT)]
  {
    s := ReplyFails();
    s := Tear(FLIP, s, INPUT);
    s := Loses(s);
  }

  /** A reply has failed with its session; the next records the service all the same, and has carried nothing. */
  lemma FailedButRecorded() returns (s: State)
    ensures exists acts :: Leads(FLIP, acts, START, s) && s in Run(ONE, START, acts)
    ensures Open(s.m, 1) && !s.m.gate && Stream(s.m.net, 1) == []
    ensures s.m.h.flips == [Exit(RENDER), Enter(INPUT), Exit(RENDER)]
  {
    s := Overtaken();
    s := NextSession(s);
    s := Records(s, 1);
    Happens(s);
  }
}
