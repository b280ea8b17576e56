/** Whole runs: from a successful connect, any calls of the library and any moves of the producer, in any order. */
module Runs {
  import opened Wire
  import opened InputFraming
  import opened Kernel
  import opened Endpoints
  import opened Renewal
  import opened Agreement
  import opened Ledger
  import opened WriteGate
  import opened Context
  import opened Calls

  // ---------- the beginning ----------

  /** A control connection nobody has used yet. */
  ghost predicate NewConnection(os: OS, ctrl: int) {
    Sound(os) && ctrl >= 0 && ctrl in os.open && os.hellos == [] && os.answered == {} && os.inbox == []
  }

  ghost function NewCtx(os: OS, ctrl: int): Ctx {
    Ctx(os, ctrl, NO_ENDS, true, false, 0, [], [], [], [], NO_BOOKS, 0, 0,
        os.open - Used(ctrl), os.maps)
  }

  /** connect_to_deamon_with_fd has succeeded. */
  ghost predicate Begun(os: OS, ctrl: int, t: Ctx) {
    NewConnection(os, ctrl) && Renewed(os, ctrl, t.os, t.e, true) && t == NewCtx(os, ctrl).(os := t.os, e := t.e)
  }

  lemma BegunGood(os: OS, ctrl: int, t: Ctx)
    requires Begun(os, ctrl, t)
    ensures Good(t)
  {
    RenewedHandshake(os, ctrl, t.os, t.e, true);
    RenewedFrames(os, ctrl, t.os, t.e, true);
    RenewedPacing(os, ctrl, t.os, t.e, true);
    assert OthersFds(os, ctrl, NO_ENDS) == os.open - Used(ctrl);
    ArmStands(0);
    assert Live([]) == {};
  }

  // ---------- steps ----------

  /** The calls of the library with what they return, and the producer's moves. */
  datatype Call =
    | Services(types: seq<u32>, ok: bool)
    | Select(idx: int, a: Answers, r: int)
    | Refresh(a: Answers, r: int)
    | Input(m: Msg, a: Answers, r: int)
    | Request(service: u32, res: Resources, reply: Msg, a: Answers)
    | Table(infos: seq<BufInfo>, fds: seq<int>, a: Answers, r: int)
    | HangUp(setup: Setup)                           // poll_output_event finding the stream closed or out of step
    | Producer(move: Move)

  ghost predicate Step(s: Ctx, call: Call, t: Ctx) {
    match call
    case Services(types, ok) => Registered(s, types, ok, t) && MayRegister(s.books, ok)
    case Select(idx, a, r) => Selecting(s, idx, a, t, r)
    case Refresh(a, r) => Refreshed(s, a, t, r)
    case Input(m, a, r) => (m.Plain? || m.WithPayload?) && WellFormed(m) && PushedInput(s, m, a, t, r)
    case Request(service, res, m, a) => Requested(s, service, res, m, a, t)
    case Table(infos, fds, a, r) => PushedTable(s, infos, fds, a, t, r)
    case HangUp(k) => HungUp(s, k, t)
    case Producer(move) => CanMove(s.os, move) && t == s.(os := Moved(s.os, move))
  }

  lemma StepGood(s: Ctx, call: Call, t: Ctx)
    requires Good(s) && Step(s, call, t)
    ensures Good(t)
  {
    match call
    case Services(types, ok) => RegisteredGood(s, types, ok, t);
    case Select(idx, a, r) => SelectingGood(s, idx, a, t, r);
    case Refresh(a, r) => RefreshedGood(s, a, t, r);
    case Input(m, a, r) => PushedInputGood(s, m, a, t, r);
    case Request(service, res, m, a) => RequestedGood(s, service, res, m, a, t);
    case Table(infos, fds, a, r) => PushedTableGood(s, infos, fds, a, t, r);
    case HangUp(k) => HungUpGood(s, k, t);
    case Producer(move) => MovedGood(s, move);
  }

  predicate SameOthers(s: Ctx, t: Ctx) {
    t.others == s.others && t.otherMaps == s.otherMaps && t.ctrl == s.ctrl
  }

  lemma SendingOthers(s: Ctx, m: Msg, a: Answers, t: Ctx)
    requires Sending(s, m, a, t)
    ensures SameOthers(s, t)
  {
  }

  lemma PushedOthers(s: Ctx, a: Answers, t: Ctx)
    requires Pushed(s, a, t)
    ensures SameOthers(s, t)
  {
    if s.fds != [] {
      SendingOthers(s, BufsReady(s.infos, s.fds), a, t);
    }
  }

  lemma TriedExitOthers(s: Ctx, a: Answers, u: Ctx)
    requires TriedExit(s, a, u)
    ensures SameOthers(s, u)
  {
    if Leaves(s, a) {
      PushedOthers(Flipped(s), a, u.(exitCalls := s.exitCalls));
    }
  }

  lemma ChoseOthers(s: Ctx, idx: int, t: Ctx, r: int)
    requires Chose(s, idx, t, r)
    ensures SameOthers(s, t)
  {
  }

  lemma SelectingOthers(s: Ctx, idx: int, a: Answers, t: Ctx, r: int)
    requires Selecting(s, idx, a, t, r)
    ensures SameOthers(s, t)
  {
    if s.fallback {
      var u :| TriedExit(s, a, u) && Chose(u, idx, t, r);
      TriedExitOthers(s, a, u);
      ChoseOthers(u, idx, t, r);
    } else {
      ChoseOthers(s, idx, t, r);
    }
  }

  lemma RequestedOthers(s: Ctx, service: u32, res: Resources, m: Msg, a: Answers, t: Ctx)
    requires Requested(s, service, res, m, a, t)
    ensures SameOthers(s, t)
  {
    var i := ServiceIndex(s.books.services, service);
    if i < |s.books.services| {
      var u := s.(books := Allotted(s.books, i, res));
      if !u.fallback && !Goes(u, m, a) {
        SendingOthers(u, m, a, t);
      }
    }
  }

  lemma PushedTableOthers(s: Ctx, infos: seq<BufInfo>, fds: seq<int>, a: Answers, t: Ctx, r: int)
    requires PushedTable(s, infos, fds, a, t, r)
    ensures SameOthers(s, t)
  {
    var u := s.(infos := infos[..Clamped(|infos|)], fds := fds[..Clamped(|fds|)]);
    if !u.fallback {
      var v :| TableSent(u, a, v, t, r);
      PushedOthers(u, a, v);
    }
  }

  lemma StepOthers(s: Ctx, call: Call, t: Ctx)
    requires Step(s, call, t)
    ensures SameOthers(s, t)
  {
    match call
    case Services(types, ok) =>
    case Select(idx, a, r) => SelectingOthers(s, idx, a, t, r);
    case Refresh(a, r) =>
    case Input(m, a, r) =>
      if !s.fallback && (a.memory || !m.WithPayload?) {
        SendingOthers(s, m, a, t);
      }
    case Request(service, res, m, a) => RequestedOthers(s, service, res, m, a, t);
    case Table(infos, fds, a, r) => PushedTableOthers(s, infos, fds, a, t, r);
    case HangUp(_) =>
    case Producer(move) =>
  }

  /** The calls, and the states before, between and after them. */
  ghost predicate IsRun(os: OS, ctrl: int, ss: seq<Ctx>, calls: seq<Call>) {
    && |ss| == |calls| + 1
    && Begun(os, ctrl, ss[0])
    && (forall i | 0 <= i < |calls| :: Step(ss[i], calls[i], ss[i + 1]))
  }

  /** A run as it goes on, from any state. */
  datatype Trace = First(s: Ctx) | Then(before: Trace, call: Call, s: Ctx)

  ghost predicate Leads(start: Ctx, trace: Trace) {
    match trace
    case First(s) => s == start
    case Then(before, call, s) => Leads(start, before) && Step(before.s, call, s)
  }

  lemma {:induction false} LeadsGood(start: Ctx, trace: Trace)
    requires Good(start) && Leads(start, trace)
    ensures Good(trace.s)
  {
    match trace
    case First(s) =>
    case Then(before, call, s) =>
      LeadsGood(start, before);
      StepGood(before.s, call, s);
  }

  lemma RunStep(os: OS, ctrl: int, ss: seq<Ctx>, calls: seq<Call>, i: nat)
    requires IsRun(os, ctrl, ss, calls) && i < |calls| && Good(ss[i])
    ensures Good(ss[i + 1])
  {
    var s, t := ss[i], ss[i + 1];
    StepGood(s, calls[i], t);
  }

  lemma RunStart(os: OS, ctrl: int, ss: seq<Ctx>, calls: seq<Call>)
    requires IsRun(os, ctrl, ss, calls)
    ensures Good(ss[0])
  {
    BegunGood(os, ctrl, ss[0]);
  }

  /** What holds at the start and is kept by every step holds throughout. */
  lemma {:induction false} Throughout(ss: seq<Ctx>, holds: Ctx -> bool, i: nat)
    requires i < |ss| && holds(ss[0])
    requires forall k | 0 <= k < |ss| - 1 && holds(ss[k]) :: holds(ss[k + 1])
    ensures holds(ss[i])
  {
    if i > 0 {
      Throughout(ss, holds, i - 1);
    }
  }

  lemma RunGood(os: OS, ctrl: int, ss: seq<Ctx>, calls: seq<Call>, i: nat)
    requires IsRun(os, ctrl, ss, calls) && i < |ss|
    ensures Good(ss[i])
  {
    RunStart(os, ctrl, ss, calls);
    var good := (s: Ctx) => Good(s);
    forall k | 0 <= k < |ss| - 1 && good(ss[k])
      ensures good(ss[k + 1])
    {
      RunStep(os, ctrl, ss, calls, k);
    }
    Throughout(ss, good, i);
  }

  lemma {:induction false} RunOthers(os: OS, ctrl: int, ss: seq<Ctx>, calls: seq<Call>, i: nat)
    requires IsRun(os, ctrl, ss, calls) && i < |ss|
    ensures SameOthers(NewCtx(os, ctrl), ss[i])
  {
    if i > 0 {
      RunOthers(os, ctrl, ss, calls, i - 1);
      StepOthers(ss[i - 1], calls[i - 1], ss[i]);
    }
  }
}
