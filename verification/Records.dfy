/** Which services a session has answered: over whole runs, exactly those requested since it began are recorded. */
module Records {
  import opened Wire
  import opened InputFraming
  import opened Kernel
  import opened Ledger
  import opened Context
  import opened Calls
  import opened Runs
  import opened Promises

  /** The services answered once a call has been made in a session, by their index. */
  function AfterCall(answered: set<nat>, s: Ctx, call: Call): set<nat> {
    match call
    case Services(_, true) => {}
    case Request(service, _, _, _) =>
      if service in s.books.services && |s.books.services| < 32
      then answered + {ServiceIndex(s.books.services, service)} else answered
    case _ => answered
  }

  /** The services requested in the session that is on after i calls, since it began; none when there is no session. */
  ghost function AnsweredIn(ss: seq<Ctx>, calls: seq<Call>, i: nat): set<nat>
    requires |ss| == |calls| + 1 && i < |ss|
  {
    if i == 0 || ss[i].fallback then {} else AfterCall(AnsweredIn(ss, calls, i - 1), ss[i - 1], calls[i - 1])
  }

  predicate Noted(s: Ctx, call: Call, t: Ctx) {
    t.books.recorded == if t.fallback then {} else AfterCall(s.books.recorded, s, call)
  }

  /** Outside a session nothing is recorded, nor without services. */
  predicate Unrecorded(s: Ctx) {
    (s.fallback || s.books.services == []) ==> s.books.recorded == {}
  }

  lemma GoodUnrecorded(s: Ctx)
    requires Good(s)
    ensures Unrecorded(s)
  {
    assert forall j | j in s.books.recorded :: j < |s.books.services|;
  }

  lemma SendingRecorded(s: Ctx, m: Msg, a: Answers, t: Ctx)
    requires Sending(s, m, a, t)
    ensures t.books.recorded == if t.fallback && !s.fallback then {} else s.books.recorded
  {
  }

  lemma SelectingRecorded(s: Ctx, idx: int, a: Answers, t: Ctx, r: int)
    requires Unrecorded(s) && Selecting(s, idx, a, t, r)
    ensures t.books.recorded == s.books.recorded
  {
    if s.fallback {
      var u :| TriedExit(s, a, u) && Chose(u, idx, t, r);
      if Leaves(s, a) && s.fds != [] {
        SendingRecorded(Flipped(s), BufsReady(s.infos, s.fds), a, u.(exitCalls := s.exitCalls));
      }
    }
  }

  lemma InputRecorded(s: Ctx, m: Msg, a: Answers, t: Ctx, r: int)
    requires Unrecorded(s) && PushedInput(s, m, a, t, r)
    ensures t.books.recorded == if t.fallback then {} else s.books.recorded
  {
    if !s.fallback && (a.memory || !m.WithPayload?) {
      SendingRecorded(s, m, a, t);
    }
  }

  lemma RequestRecorded(s: Ctx, service: u32, res: Resources, m: Msg, a: Answers, t: Ctx)
    requires Unrecorded(s) && Requested(s, service, res, m, a, t)
    ensures Noted(s, Request(service, res, m, a), t)
  {
    var i := ServiceIndex(s.books.services, service);
    if i < |s.books.services| {
      var u := s.(books := Allotted(s.books, i, res));
      assert u.books.recorded == s.books.recorded;
      if !u.fallback && !Goes(u, m, a) {
        SendingRecorded(u, m, a, t);
      }
    }
  }

  lemma TableRecorded(s: Ctx, infos: seq<BufInfo>, fds: seq<int>, a: Answers, t: Ctx, r: int)
    requires Unrecorded(s) && PushedTable(s, infos, fds, a, t, r)
    ensures t.fallback && t.books.recorded == {}
  {
    var u := s.(infos := infos[..Clamped(|infos|)], fds := fds[..Clamped(|fds|)]);
    if !s.fallback {
      var v :| TableSent(u, a, v, t, r);
      if u.fds != [] {
        SendingRecorded(u, BufsReady(u.infos, u.fds), a, v);
      }
    }
  }

  lemma RefreshRecorded(s: Ctx, a: Answers, t: Ctx, r: int)
    requires Unrecorded(s) && Refreshed(s, a, t, r)
    ensures t.books.recorded == if t.fallback then {} else s.books.recorded
  {
  }

  lemma RegisteredRecorded(s: Ctx, types: seq<u32>, ok: bool, t: Ctx)
    requires Unrecorded(s) && Registered(s, types, ok, t) && MayRegister(s.books, ok)
    ensures Noted(s, Services(types, ok), t)
  {
  }

  lemma StepNoted(s: Ctx, call: Call, t: Ctx)
    requires Unrecorded(s) && Step(s, call, t)
    ensures Noted(s, call, t)
  {
    match call
    case Services(types, ok) => RegisteredRecorded(s, types, ok, t);
    case Select(idx, a, r) => SelectingRecorded(s, idx, a, t, r);
    case Refresh(a, r) => RefreshRecorded(s, a, t, r);
    case Input(m, a, r) => InputRecorded(s, m, a, t, r);
    case Request(service, res, m, a) => RequestRecorded(s, service, res, m, a, t);
    case Table(infos, fds, a, r) => TableRecorded(s, infos, fds, a, t, r);
    case HangUp(_) =>
    case Producer(_) =>
  }

  lemma RunNoted(os: OS, ctrl: int, ss: seq<Ctx>, calls: seq<Call>, i: nat)
    requires IsRun(os, ctrl, ss, calls) && i < |calls|
    ensures Noted(ss[i], calls[i], ss[i + 1])
  {
    RunGood(os, ctrl, ss, calls, i);
    GoodUnrecorded(ss[i]);
    StepNoted(ss[i], calls[i], ss[i + 1]);
  }

  lemma {:induction false} NotesAddUp(ss: seq<Ctx>, calls: seq<Call>, i: nat)
    requires |ss| == |calls| + 1 && i < |ss| && ss[0].books.recorded == {}
    requires forall k | 0 <= k < |calls| :: Noted(ss[k], calls[k], ss[k + 1])
    ensures ss[i].books.recorded == AnsweredIn(ss, calls, i)
  {
    if i > 0 {
      NotesAddUp(ss, calls, i - 1);
      assert Noted(ss[i - 1], calls[i - 1], ss[i]);
    }
  }

  lemma RunNotes(os: OS, ctrl: int, ss: seq<Ctx>, calls: seq<Call>, i: nat)
    requires IsRun(os, ctrl, ss, calls) && i < |ss|
    ensures ss[i].books.recorded == AnsweredIn(ss, calls, i)
  {
    forall k | 0 <= k < |calls|
      ensures Noted(ss[k], calls[k], ss[k + 1])
    {
      RunNoted(os, ctrl, ss, calls, k);
    }
    NotesAddUp(ss, calls, i);
  }

  /**
   In every reachable state writers go without data_lock exactly when there are no services, or fewer than 32 and each
   of them has been requested since the session began.
   */
  lemma GateCountsRequests(os: OS, ctrl: int, ss: seq<Ctx>, calls: seq<Call>, i: nat)
    requires IsRun(os, ctrl, ss, calls) && i < |ss|
    ensures var services := ss[i].books.services;
            !ss[i].books.gate.needsLock <==>
            services == []
            || (|services| < 32 && forall j | 0 <= j < |services| :: j in AnsweredIn(ss, calls, i))
  {
    RunGood(os, ctrl, ss, calls, i);
    RunNotes(os, ctrl, ss, calls, i);
    GateOpens(ss[i]);
  }
}
