/** What every reachable state promises, read off the invariant. */
module Promises {
  import opened Options
  import opened InputFraming
  import opened Kernel
  import opened Endpoints
  import opened Renewal
  import opened Agreement
  import opened Ledger
  import opened WriteGate
  import opened Context
  import opened Calls
  import opened Runs

  /**
   After any calls, with any of their syscalls failing, the open descriptors are everybody else's and the
   non-negative fields, no two of which are the same; and so for the mapping.
   */
  lemma DescriptorsConserved(os: OS, ctrl: int, ss: seq<Ctx>, calls: seq<Call>, i: nat)
    requires IsRun(os, ctrl, ss, calls) && i < |ss|
    ensures var s := ss[i];
            && Distinct(ctrl, s.e)
            && OwnedFds(ctrl, s.e) <= s.os.open.Keys
            && s.os.open - OwnedFds(ctrl, s.e) == os.open - {ctrl}
            && (if s.e.address > 0 then s.os.maps.Keys == os.maps.Keys + {s.e.address} && s.e.address !in os.maps
                else s.os.maps == os.maps)
  {
    RunGood(os, ctrl, ss, calls, i);
    RunOthers(os, ctrl, ss, calls, i);
    Owns(os, ctrl, ss[i]);
  }

  lemma Owns(os: OS, ctrl: int, s: Ctx)
    requires Connection(s) && ctrl >= 0 && s.ctrl == ctrl && s.others == os.open - Used(ctrl) && s.otherMaps == os.maps
    ensures Distinct(ctrl, s.e) && OwnedFds(ctrl, s.e) <= s.os.open.Keys
    ensures s.os.open - OwnedFds(ctrl, s.e) == os.open - {ctrl}
    ensures if s.e.address > 0 then s.os.maps.Keys == os.maps.Keys + {s.e.address} && s.e.address !in os.maps
            else s.os.maps == os.maps
  {
  }

  /**
   In a session all five endpoints are valid, shm is mapped, and the producer holds the other ends, from the
   latest hello, which it has answered.
   */
  lemma SessionAgreed(s: Ctx)
    requires Good(s) && !s.fallback
    ensures {s.e.data, s.e.bufReady, s.e.fence, s.e.shm, s.e.audio} <= s.os.open.Keys
    ensures s.e.address in s.os.maps && s.os.maps[s.e.address] == s.os.open[s.e.shm]
    ensures Current(s.os, s.e) && (|s.os.hellos| - 1) in s.os.answered
  {
    assert Answered(s.os);
  }

  /** What the producer has read of the session starts with the stored table, and has no other. */
  lemma TableShared(s: Ctx)
    requires Good(s) && !s.fallback
    ensures HasData(s)
    ensures var read := ReadAll(Cells(s.os, s.os.open[s.e.data].pair));
            && read == Some(s.log)
            && (s.infos != [] ==> s.log != [] && s.log[0] == BufsReady(s.infos, s.fds))
            && (forall i | 0 <= i < |s.log| && s.log[i].BufsReady? :: i == 0)
  {
    UniquelyDecodable(s.log, WriteAll(s.log));
  }

  /** The write gate is open exactly when every service has been recorded, and then each has been answered. */
  lemma GateOpens(s: Ctx)
    requires Good(s)
    ensures !s.books.gate.needsLock <==>
            s.books.services == []
            || (|s.books.services| < 32 && AllRecorded(|s.books.services|, s.books.recorded))
    ensures !s.books.gate.needsLock ==>
              forall j | 0 <= j < |s.books.services| ::
                exists k :: 0 <= k < |s.log| && IsReply(s.log[k], s.books.services[j])
  {
  }

  /** Every allocation is in exactly one slot or freed, and a fallback leaves none in a slot. */
  lemma NothingLeaks(s: Ctx, k: Setup, t: Ctx)
    requires Good(s) && Fell(s, k, t)
    ensures AllEmpty(t.books.resources) && t.books.freed == t.books.given == Live(s.books.resources) + s.books.freed
    ensures Live(s.books.resources) !! s.books.freed
  {
  }

  lemma GoodPaced(s: Ctx)
    requires Good(s) && s.pending
    ensures !s.fallback && FramesOk(s.os) && Current(s.os, s.e)
    ensures PacingOk(s.os, false, true, s.missed, s.queued, s.e)
  {
  }

  lemma OneMoreQueued(queued: seq<int>, fences: seq<int>)
    requires queued <= fences && |fences| == |queued| + 1
    ensures queued + [fences[|queued|]] == fences
  {
  }

  /**
   In a session, frames announced less messages received are the pending one and those given up; with none
   given up, the fence handed back is the one the producer sent for the frame announced last.
   */
  lemma FrameGetsItsFence(s: Ctx, t: Ctx, r: int)
    requires Good(s) && s.pending && s.missed == 0 && Finished(s, t, r)
    ensures |SessionFences(s.os, s.e)| == Announced(s.os, s.e) == |s.queued| + 1
    ensures r == SessionFences(s.os, s.e)[|s.queued|] && t.queued == SessionFences(s.os, s.e)
  {
    GoodPaced(s);
    FenceOfFrame(s.os, s.queued, s.e);
    OneMoreQueued(s.queued, SessionFences(s.os, s.e));
  }

  /** A fence the producer sends for an earlier hello does not reach the session. */
  lemma LateFenceStaysOut(s: Ctx, n: nat, fence: int)
    requires Good(s) && !s.fallback && n < |s.os.hellos| - 1 && CanMove(s.os, Render(n, fence))
    ensures SessionFences(Moved(s.os, Render(n, fence)), s.e) == SessionFences(s.os, s.e)
  {
  }
}
