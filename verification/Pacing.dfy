/**
 Frame pacing over whole runs: how many frames a session has given up, and that the select/refresh_done loop
 gives up none unless a read of the fence channel fails.
 */
module Pacing {
  import opened Wire
  import opened InputFraming
  import opened Kernel
  import opened Agreement
  import opened Ledger
  import opened Context
  import opened Calls
  import opened Runs
  import opened Promises

  /** A frame is announced while another is pending. */
  predicate Overlaps(s: Ctx, call: Call) {
    call.Select? && s.pending && !s.fallback && 0 <= call.idx < |s.fds|
  }

  /** poll has reported the message of the pending frame, but recvmsg fails. */
  predicate ReadFails(s: Ctx, call: Call) {
    call.Refresh? && s.pending && call.a.report.Refused?
  }

  predicate GivesUp(s: Ctx, call: Call) {
    Overlaps(s, call) || ReadFails(s, call)
  }

  // ---------- one step ----------

  /** The frames given up in the session: one more, as many, or none where there is no session. */
  predicate Counted(s: Ctx, call: Call, t: Ctx) {
    t.missed == if t.fallback then 0 else if GivesUp(s, call) then s.missed + 1 else s.missed
  }

  /** In fallback there is nothing to give up. */
  predicate Unpaced(s: Ctx) {
    s.fallback ==> s.missed == 0 && !s.pending
  }

  lemma GoodUnpaced(s: Ctx)
    requires Good(s)
    ensures Unpaced(s)
  {
  }

  lemma SendingMissed(s: Ctx, m: Msg, a: Answers, t: Ctx)
    requires Sending(s, m, a, t)
    ensures t.missed == if t.fallback && !s.fallback then 0 else s.missed
    ensures t.pending ==> s.pending
  {
  }

  lemma LeavingMissed(s: Ctx, a: Answers, u: Ctx)
    requires s.missed == 0 && !s.pending && TriedExit(s, a, u)
    ensures u.missed == 0 && !u.pending
  {
    if Leaves(s, a) && s.fds != [] {
      SendingMissed(Flipped(s), BufsReady(s.infos, s.fds), a, u.(exitCalls := s.exitCalls));
    }
  }

  lemma SelectCounted(s: Ctx, idx: int, a: Answers, r: int, t: Ctx)
    requires Unpaced(s) && Selecting(s, idx, a, t, r)
    ensures Counted(s, Select(idx, a, r), t)
  {
    if s.fallback {
      var u :| TriedExit(s, a, u) && Chose(u, idx, t, r);
      LeavingMissed(s, a, u);
    }
  }

  lemma RefreshCounted(s: Ctx, a: Answers, r: int, t: Ctx)
    requires Unpaced(s) && Refreshed(s, a, t, r)
    ensures Counted(s, Refresh(a, r), t)
  {
  }

  /** The other calls and the producer give up no frame. */
  predicate Kept(s: Ctx, t: Ctx) {
    t.missed == if t.fallback then 0 else s.missed
  }

  lemma InputKept(s: Ctx, m: Msg, a: Answers, r: int, t: Ctx)
    requires Unpaced(s) && PushedInput(s, m, a, t, r)
    ensures Kept(s, t)
  {
    if !s.fallback && (a.memory || !m.WithPayload?) {
      SendingMissed(s, m, a, t);
    }
  }

  lemma RequestKept(s: Ctx, service: u32, res: Resources, m: Msg, a: Answers, t: Ctx)
    requires Unpaced(s) && Requested(s, service, res, m, a, t)
    ensures Kept(s, t)
  {
    var i := ServiceIndex(s.books.services, service);
    if i < |s.books.services| {
      var u := s.(books := Allotted(s.books, i, res));
      if !u.fallback && !Goes(u, m, a) {
        SendingMissed(u, m, a, t);
      }
    }
  }

  lemma TableKept(s: Ctx, infos: seq<BufInfo>, fds: seq<int>, a: Answers, t: Ctx, r: int)
    requires Unpaced(s) && PushedTable(s, infos, fds, a, t, r)
    ensures Kept(s, t)
  {
    var u := s.(infos := infos[..Clamped(|infos|)], fds := fds[..Clamped(|fds|)]);
    if !s.fallback {
      var v :| TableSent(u, a, v, t, r);
      if u.fds != [] {
        SendingMissed(u, BufsReady(u.infos, u.fds), a, v);
      }
    }
  }

  lemma StepCounted(s: Ctx, call: Call, t: Ctx)
    requires Unpaced(s) && Step(s, call, t)
    ensures Counted(s, call, t)
  {
    match call
    case Services(types, ok) =>
    case Select(idx, a, r) => SelectCounted(s, idx, a, r, t);
    case Refresh(a, r) => RefreshCounted(s, a, r, t);
    case Input(m, a, r) => InputKept(s, m, a, r, t);
    case Request(service, res, m, a) => RequestKept(s, service, res, m, a, t);
    case Table(infos, fds, a, r) => TableKept(s, infos, fds, a, t, r);
    case HangUp(_) =>
    case Producer(move) =>
  }

  // ---------- whole runs ----------

  /** How many frames the session that is on after i calls has given up; none when there is no session. */
  ghost function GivenUp(ss: seq<Ctx>, calls: seq<Call>, i: nat): nat
    requires |ss| == |calls| + 1 && i < |ss|
  {
    if i == 0 || ss[i].fallback then 0
    else GivenUp(ss, calls, i - 1) + if GivesUp(ss[i - 1], calls[i - 1]) then 1 else 0
  }

  lemma RunUnpaced(os: OS, ctrl: int, ss: seq<Ctx>, calls: seq<Call>, i: nat)
    requires IsRun(os, ctrl, ss, calls) && i < |ss|
    ensures Unpaced(ss[i])
  {
    RunGood(os, ctrl, ss, calls, i);
    GoodUnpaced(ss[i]);
  }

  lemma RunCounted(os: OS, ctrl: int, ss: seq<Ctx>, calls: seq<Call>, i: nat)
    requires IsRun(os, ctrl, ss, calls) && i < |calls|
    ensures Counted(ss[i], calls[i], ss[i + 1])
  {
    RunUnpaced(os, ctrl, ss, calls, i);
    StepCounted(ss[i], calls[i], ss[i + 1]);
  }

  lemma {:induction false} CountsAddUp(ss: seq<Ctx>, calls: seq<Call>, i: nat)
    requires |ss| == |calls| + 1 && i < |ss| && ss[0].missed == 0
    requires forall k | 0 <= k < |calls| :: Counted(ss[k], calls[k], ss[k + 1])
    ensures ss[i].missed == GivenUp(ss, calls, i)
  {
    if i > 0 {
      CountsAddUp(ss, calls, i - 1);
      assert Counted(ss[i - 1], calls[i - 1], ss[i]);
    }
  }

  lemma RunCounts(os: OS, ctrl: int, ss: seq<Ctx>, calls: seq<Call>, i: nat)
    requires IsRun(os, ctrl, ss, calls) && i < |ss|
    ensures ss[i].missed == GivenUp(ss, calls, i)
  {
    forall k | 0 <= k < |calls|
      ensures Counted(ss[k], calls[k], ss[k + 1])
    {
      RunCounted(os, ctrl, ss, calls, k);
    }
    CountsAddUp(ss, calls, i);
  }

  /**
   After any calls and producer moves: frames announced less messages received in the session are the pending
   frame and those given up.
   */
  lemma FramesCounted(os: OS, ctrl: int, ss: seq<Ctx>, calls: seq<Call>, i: nat)
    requires IsRun(os, ctrl, ss, calls) && i < |ss|
    ensures var s := ss[i];
            Announced(s.os, s.e) - Received(s.os, s.e) == GivenUp(ss, calls, i) + (if s.pending then 1 else 0)
  {
    RunCounts(os, ctrl, ss, calls, i);
    RunGood(os, ctrl, ss, calls, i);
  }

  /** The render loop waits for each frame before it selects the next, and no read of the fence channel fails. */
  ghost predicate OneAtATime(ss: seq<Ctx>, calls: seq<Call>)
    requires |ss| == |calls| + 1
  {
    forall k | 0 <= k < |calls| :: !(calls[k].Select? && ss[k].pending) && !ReadFails(ss[k], calls[k])
  }

  lemma {:induction false} NoneGivenUp(ss: seq<Ctx>, calls: seq<Call>, i: nat)
    requires |ss| == |calls| + 1 && i < |ss| && OneAtATime(ss, calls)
    ensures GivenUp(ss, calls, i) == 0
  {
    if i > 0 {
      NoneGivenUp(ss, calls, i - 1);
      assert !GivesUp(ss[i - 1], calls[i - 1]);
    }
  }

  /** Then, with any other calls and producer moves in between, exactly the pending frame is outstanding. */
  lemma LoopPaced(os: OS, ctrl: int, ss: seq<Ctx>, calls: seq<Call>, i: nat)
    requires IsRun(os, ctrl, ss, calls) && i < |ss| && OneAtATime(ss, calls)
    ensures var s := ss[i]; Announced(s.os, s.e) - Received(s.os, s.e) == if s.pending then 1 else 0
    ensures ss[i].missed == 0
  {
    NoneGivenUp(ss, calls, i);
    RunCounts(os, ctrl, ss, calls, i);
    FramesCounted(os, ctrl, ss, calls, i);
  }

  /** And every frame completed gets its own fence: the k-th frame of the session the k-th message. */
  lemma LoopFences(os: OS, ctrl: int, ss: seq<Ctx>, calls: seq<Call>, i: nat, r: int)
    requires IsRun(os, ctrl, ss, calls) && i < |calls| && OneAtATime(ss, calls)
    requires calls[i].Refresh? && ss[i].pending && Finished(ss[i], ss[i + 1], r)
    ensures var s := ss[i];
            |SessionFences(s.os, s.e)| == Announced(s.os, s.e) == |s.queued| + 1
            && r == SessionFences(s.os, s.e)[|s.queued|] && ss[i + 1].queued == SessionFences(s.os, s.e)
  {
    LoopPaced(os, ctrl, ss, calls, i);
    RunGood(os, ctrl, ss, calls, i);
    FrameGetsItsFence(ss[i], ss[i + 1], r);
  }

  /**
   Of any completed frame: the fence handed back is the next of the session's, and it is that of the frame announced
   last, the pending one, if and only if the session has given up no frame.
   */
  lemma OwnFenceIff(s: Ctx, t: Ctx, r: int)
    requires Good(s) && s.pending && Finished(s, t, r)
    ensures |s.queued| < |SessionFences(s.os, s.e)| && r == SessionFences(s.os, s.e)[|s.queued|]
    ensures |s.queued| == Announced(s.os, s.e) - 1 <==> s.missed == 0
  {
  }
}
