/**
 Single teardown: the flips between fallback and active alternate, each active session's endpoints are
 released exactly once, and each flip's winner alone makes its callback.
 */
module Transitions {
  import opened Sessions
  import opened Teardown

  predicate Alternating(flips: seq<Flip>) {
    forall i | 0 <= i < |flips| :: flips[i].Exit? <==> i % 2 == 0
  }

  /** The call under way by the holder of state_lock. */
  function HolderPc(s: State): Pc {
    if s.m.stateLock.Held? then At(s, s.m.stateLock.owner) else Idle
  }

  function OwesFree(p: Pc): nat { if p.EnFree? then 1 else 0 }

  function OwesClose(p: Pc): nat { if p.EnFree? || p.EnData? || p.EnClose? then 1 else 0 }

  function OwesOpen(p: Pc): nat { if p.EnFree? || p.EnData? || p.EnClose? || p.EnOpen? then 1 else 0 }

  predicate TearingDown(p: Pc) {
    p.EnFree? || p.EnData? || p.EnClose? || p.EnOpen? || p.EnUnData? || p.EnUnState?
  }

  /** How far the endpoints have followed the flips, given what the holder of state_lock still owes. */
  ghost predicate Counts(m: Shared, holder: Pc) {
    && Alternating(m.h.flips)
    && (m.fallback <==> |m.h.flips| % 2 == 0)
    && (TearingDown(holder) ==> m.fallback)
    && m.h.freed + OwesFree(holder) == |m.h.flips| / 2
    && |m.h.torn| + OwesClose(holder) == |m.h.flips| / 2
    && m.gen + OwesOpen(holder) == |m.h.flips| / 2
    && m.h.arms == m.gen + (|m.h.flips| + 1) / 2
    && (forall i | 0 <= i < |m.h.torn| :: m.h.torn[i] == i)
  }

  /** Won the flip into fallback, callback not yet made. */
  predicate OwesFallbackCall(p: Pc) {
    TearingDown(p) || p.EnCall?
  }

  /** Won the flip out of fallback, callback not yet made. */
  predicate OwesExitCall(p: Pc) {
    || (p.ExUnlock? && p.won) || p.ExBufs? || p.ExInfos? || p.ExCall?
    || (InEnter(p) && p.ret == RCall)
  }

  ghost predicate Calls(h: History, t: Tid, p: Pc) {
    && multiset(h.flips)[Enter(t)] == h.called[Enter(t)] + (if OwesFallbackCall(p) then 1 else 0)
    && multiset(h.flips)[Exit(t)] == h.called[Exit(t)] + (if OwesExitCall(p) then 1 else 0)
  }

  ghost predicate TransitionInv(s: State) {
    && Locks(s) && Numbered(s)
    && Counts(s.m, HolderPc(s))
    && (forall u :: Calls(s.m.h, u, At(s, u)))
  }

  // ---------- one step ----------

  function Own(p: Pc): Pc { if HoldsState(p) then p else Idle }

  /** A step neither flips, tears down, nor calls back, and leaves nothing newly owed. */
  predicate Quiet(m: Shared, p: Pc, r: Local) {
    && r.m.fallback == m.fallback && r.m.gen == m.gen && r.m.h == m.h
    && HoldsState(p) == HoldsState(r.p) == false
    && OwesFallbackCall(p) == OwesFallbackCall(r.p) == false
    && OwesExitCall(p) == OwesExitCall(r.p) == false
  }

  ghost predicate CountStep(m: Shared, p: Pc, r: Local) {
    if HoldsState(p) || HoldsState(r.p) then Counts(m, Own(p)) ==> Counts(r.m, Own(r.p))
    else r.m.fallback == m.fallback && r.m.gen == m.gen && r.m.h.flips == m.h.flips && r.m.h.torn == m.h.torn
         && r.m.h.freed == m.h.freed && r.m.h.arms == m.h.arms
  }

  ghost predicate CallStep(h: History, t: Tid, p: Pc, r: Local) {
    && (Calls(h, t, p) ==> Calls(r.m.h, t, r.p))
    && (r.m.h.flips == h.flips || r.m.h.flips == h.flips + [Enter(t)] || r.m.h.flips == h.flips + [Exit(t)])
    && (r.m.h.called == h.called || r.m.h.called == h.called + multiset{Enter(t)}
        || r.m.h.called == h.called + multiset{Exit(t)})
  }

  lemma QuietInput(m: Shared, t: Tid, p: Pc, out: Outcome)
    requires InInput(p)
    ensures Quiet(m, p, ExecInput(m, t, p, out))
  {
  }

  lemma QuietFds(m: Shared, t: Tid, p: Pc, out: Outcome)
    requires InFds(p)
    ensures Quiet(m, p, ExecFds(m, t, p, out))
  {
  }

  lemma QuietMark(c: Config, m: Shared, t: Tid, p: Pc)
    requires InMark(p)
    ensures Quiet(m, p, ExecMark(c, m, t, p))
  {
  }

  lemma QuietStart(m: Shared, p: Pc, out: Outcome)
    requires InStart(p)
    ensures Quiet(m, p, ExecStart(m, p, out))
  {
  }

  lemma QuietStop(m: Shared, t: Tid, p: Pc)
    requires InStop(p)
    ensures Quiet(m, p, ExecStop(m, t, p))
  {
  }

  lemma CountsTaking(c: Config, m: Shared, t: Tid, p: Pc, out: Outcome)
    requires LockPre(m, t, p) && (p.EnLock? || p.EnTest? || p.EnLost? || p.EnFree? || p.EnData?)
    ensures CountStep(m, p, ExecEnter(c, m, t, p, out))
  {
  }

  lemma CountsSwapping(c: Config, m: Shared, t: Tid, p: Pc, out: Outcome)
    requires p.EnClose? || p.EnOpen? || p.EnUnData? || p.EnUnState? || p.EnCall?
    ensures CountStep(m, p, ExecEnter(c, m, t, p, out))
  {
  }

  lemma CountsEnter(c: Config, m: Shared, t: Tid, p: Pc, out: Outcome)
    requires LockPre(m, t, p) && InEnter(p)
    ensures CountStep(m, p, ExecEnter(c, m, t, p, out))
  {
    if p.EnLock? || p.EnTest? || p.EnLost? || p.EnFree? || p.EnData? {
      CountsTaking(c, m, t, p, out);
    } else {
      CountsSwapping(c, m, t, p, out);
    }
  }

  /** A step that neither flips nor calls back leaves the same calls owed. */
  predicate SameCalls(m: Shared, p: Pc, r: Local) {
    && r.m.h.flips == m.h.flips && r.m.h.called == m.h.called
    && OwesFallbackCall(r.p) == OwesFallbackCall(p) && OwesExitCall(r.p) == OwesExitCall(p)
  }

  lemma CallsWithinEnter(c: Config, m: Shared, t: Tid, p: Pc, out: Outcome)
    requires InEnter(p) && !p.EnTest? && !p.EnCall?
    ensures SameCalls(m, p, ExecEnter(c, m, t, p, out))
  {
  }

  lemma CallsWithinExit(c: Config, m: Shared, t: Tid, p: Pc, out: Outcome)
    requires InExit(p) && !p.ExTest? && !p.ExCall?
    ensures SameCalls(m, p, ExecExit(c, m, t, p, out))
  {
  }

  lemma CallsFlipIn(c: Config, m: Shared, t: Tid, p: Pc, out: Outcome)
    requires p.EnTest?
    ensures CallStep(m.h, t, p, ExecEnter(c, m, t, p, out))
  {
  }

  lemma CallsEnterCall(c: Config, m: Shared, t: Tid, p: Pc, out: Outcome)
    requires p.EnCall?
    ensures CallStep(m.h, t, p, ExecEnter(c, m, t, p, out))
  {
  }

  lemma CallsFlipOut(c: Config, m: Shared, t: Tid, p: Pc, out: Outcome)
    requires p.ExTest?
    ensures CallStep(m.h, t, p, ExecExit(c, m, t, p, out))
  {
  }

  lemma CallsExitCall(c: Config, m: Shared, t: Tid, p: Pc, out: Outcome)
    requires p.ExCall?
    ensures CallStep(m.h, t, p, ExecExit(c, m, t, p, out))
  {
  }

  lemma CountsFlipOut(c: Config, m: Shared, t: Tid, p: Pc, out: Outcome)
    requires p.ExTest?
    ensures CountStep(m, p, ExecExit(c, m, t, p, out))
  {
  }

  /** A step of try_exit_fallback other than the flip leaves the counts alone and owes nothing. */
  predicate SameCounts(m: Shared, p: Pc, r: Local) {
    && r.m.fallback == m.fallback && r.m.gen == m.gen
    && r.m.h.flips == m.h.flips && r.m.h.torn == m.h.torn && r.m.h.freed == m.h.freed && r.m.h.arms == m.h.arms
    && !TearingDown(Own(p)) && !TearingDown(Own(r.p))
  }

  lemma CountsWithinExit(c: Config, m: Shared, t: Tid, p: Pc, out: Outcome)
    requires InExit(p) && !p.ExTest?
    ensures SameCounts(m, p, ExecExit(c, m, t, p, out))
  {
  }

  lemma FlipsEnter(c: Config, m: Shared, t: Tid, p: Pc, out: Outcome)
    requires LockPre(m, t, p) && InEnter(p)
    ensures var r := ExecEnter(c, m, t, p, out); CountStep(m, p, r) && CallStep(m.h, t, p, r)
  {
    CountsEnter(c, m, t, p, out);
    if p.EnTest? { CallsFlipIn(c, m, t, p, out); }
    else if p.EnCall? { CallsEnterCall(c, m, t, p, out); }
    else { CallsWithinEnter(c, m, t, p, out); }
  }

  lemma FlipsExit(c: Config, m: Shared, t: Tid, p: Pc, out: Outcome)
    requires LockPre(m, t, p) && InExit(p)
    ensures var r := ExecExit(c, m, t, p, out); CountStep(m, p, r) && CallStep(m.h, t, p, r)
  {
    if p.ExTest? { CountsFlipOut(c, m, t, p, out); } else { CountsWithinExit(c, m, t, p, out); }
    if p.ExTest? { CallsFlipOut(c, m, t, p, out); }
    else if p.ExCall? { CallsExitCall(c, m, t, p, out); }
    else { CallsWithinExit(c, m, t, p, out); }
  }

  lemma LocalFlips(c: Config, m: Shared, t: Tid, p: Pc, out: Outcome)
    requires LockPre(m, t, p) && p != Idle && p != Dead
    ensures var r := Exec(c, m, t, p, out); CountStep(m, p, r) && CallStep(m.h, t, p, r)
  {
    if InInput(p) { QuietInput(m, t, p, out); }
    else if InFds(p) { QuietFds(m, t, p, out); }
    else if InMark(p) { QuietMark(c, m, t, p); }
    else if InEnter(p) { FlipsEnter(c, m, t, p, out); }
    else if InExit(p) { FlipsExit(c, m, t, p, out); }
    else if InStart(p) { QuietStart(m, p, out); }
    else { QuietStop(m, t, p); }
  }

  lemma LiftCounts(s: State, t: Tid, r: Local)
    requires Locks(s) && Numbered(s) && Counts(s.m, HolderPc(s)) && t in s.pc
    requires LockStep(s.m, t, r) && CountStep(s.m, At(s, t), r)
    ensures Counts(r.m, HolderPc(After(s, t, r)))
  {
  }

  lemma LiftCalls(s: State, t: Tid, r: Local)
    requires Numbered(s) && t in s.pc && s.m.ev.created <= r.m.ev.created
    requires CallStep(s.m.h, t, At(s, t), r)
    requires forall u :: Calls(s.m.h, u, At(s, u))
    ensures forall u :: Calls(r.m.h, u, At(After(s, t, r), u))
  {
    forall u
      ensures Calls(r.m.h, u, At(After(s, t, r), u))
    {
      assert Calls(s.m.h, u, At(s, u));
    }
  }

  lemma TransitionGo(c: Config, s: State, t: Tid, out: Outcome, r: Local)
    requires TransitionInv(s) && Enabled(c, s, Go(t, out)) && r == Exec(c, s.m, t, At(s, t), out)
    ensures Counts(r.m, HolderPc(After(s, t, r)))
    ensures forall u :: Calls(r.m.h, u, At(After(s, t, r), u))
  {
    LocalLocks(c, s.m, t, At(s, t), out);
    LocalFlips(c, s.m, t, At(s, t), out);
    LiftCounts(s, t, r);
    LiftCalls(s, t, r);
  }

  /** The other actions move at most one thread, between its own loop and the start of a call. */
  lemma OtherMoves(c: Config, s: State, a: Act, u: Tid)
    requires Enabled(c, s, a) && !a.Go?
    ensures var v := Apply(c, s, a);
            && v.m.h.flips == s.m.h.flips && v.m.h.called == s.m.h.called
            && v.m.stateLock == s.m.stateLock && Counts(v.m, HolderPc(s)) == Counts(s.m, HolderPc(s))
            && (At(v, u) == At(s, u)
                || (At(s, u) == Idle && !HoldsState(At(v, u)) && !OwesFallbackCall(At(v, u))
                    && !OwesExitCall(At(v, u))))
  {
  }

  lemma TransitionOther(c: Config, s: State, a: Act, v: State)
    requires TransitionInv(s) && Enabled(c, s, a) && !a.Go? && v == Apply(c, s, a)
    ensures Counts(v.m, HolderPc(v))
    ensures forall u :: Calls(v.m.h, u, At(v, u))
  {
    forall u
      ensures Calls(v.m.h, u, At(v, u))
    {
      assert Calls(s.m.h, u, At(s, u));
      OtherMoves(c, s, a, u);
    }
    OtherMoves(c, s, a, if s.m.stateLock.Held? then s.m.stateLock.owner else RENDER);
  }

  lemma TransitionStep(c: Config, s: State, a: Act)
    requires TransitionInv(s) && Enabled(c, s, a)
    ensures TransitionInv(Apply(c, s, a))
  {
    LocksStep(c, s, a);
    if a.Go? {
      TransitionGo(c, s, a.t, a.out, Exec(c, s.m, a.t, At(s, a.t), a.out));
    } else {
      TransitionOther(c, s, a, Apply(c, s, a));
    }
  }

  lemma TransitionStart(c: Config, s: State)
    requires Starting(c, s)
    ensures TransitionInv(s)
  {
    LocksStart(c, s);
    CountsStart(c, s);
    forall u
      ensures Calls(s.m.h, u, At(s, u))
    {
      CallsStart(s.m.h, u, At(s, u));
    }
  }

  lemma CallsStart(h: History, t: Tid, p: Pc)
    requires h.flips == [] && h.called == multiset{} && Outside(p)
    ensures Calls(h, t, p)
  {
  }

  lemma CountsStart(c: Config, s: State)
    requires Starting(c, s)
    ensures Counts(s.m, HolderPc(s))
  {
  }

  lemma {:induction false} TransitionRun(c: Config, s: State, acts: seq<Act>)
    requires TransitionInv(s)
    ensures forall v | v in Run(c, s, acts) :: TransitionInv(v)
    decreases |acts|
  {
    if acts == [] || !Enabled(c, s, acts[0]) {
    } else {
      TransitionStep(c, s, acts[0]);
      TransitionRun(c, Apply(c, s, acts[0]), acts[1..]);
    }
  }

  // ---------- what it means ----------

  function Exits(flips: seq<Flip>): nat {
    if flips == [] then 0
    else Exits(flips[..|flips| - 1]) + (if flips[|flips| - 1].Exit? then 1 else 0)
  }

  function Enters(flips: seq<Flip>): nat {
    if flips == [] then 0
    else Enters(flips[..|flips| - 1]) + (if flips[|flips| - 1].Enter? then 1 else 0)
  }

  lemma {:induction false} AlternatingCounts(flips: seq<Flip>)
    requires Alternating(flips)
    ensures Exits(flips) == (|flips| + 1) / 2
    ensures Enters(flips) == |flips| / 2
  {
    if flips == [] {
    } else {
      AlternatingCounts(flips[..|flips| - 1]);
    }
  }

  /**
   Exits and enters alternate and their difference is the current state; the endpoints of each finished
   session are closed exactly once, in order, and its resources freed exactly once, the last one's
   possibly still under way by the holder of state_lock; and the write gate has been armed once for each
   set of endpoints opened and once for each exit.
   */
  ghost predicate TornOnce(s: State) {
    var flips := s.m.h.flips;
    && Alternating(flips)
    && Exits(flips) == Enters(flips) + (if s.m.fallback then 0 else 1)
    && (forall i | 0 <= i < |s.m.h.torn| :: s.m.h.torn[i] == i)
    && |s.m.h.torn| == Enters(flips) - OwesClose(HolderPc(s))
    && s.m.h.freed == Enters(flips) - OwesFree(HolderPc(s))
    && s.m.gen == Enters(flips) - OwesOpen(HolderPc(s))
    && s.m.h.arms == s.m.gen + Exits(flips)
    && (!s.m.fallback ==> |s.m.h.torn| == s.m.h.freed == s.m.gen == Enters(flips))
  }

  lemma CountsTornOnce(s: State)
    requires Counts(s.m, HolderPc(s))
    ensures TornOnce(s)
  {
    AlternatingCounts(s.m.h.flips);
  }

  /** For any threads, any set of them leaving fallback, and any interleaving. */
  lemma SingleTeardown(c: Config, start: State, acts: seq<Act>, s: State)
    requires Starting(c, start) && s in Run(c, start, acts)
    ensures TornOnce(s)
  {
    TransitionStart(c, start);
    TransitionRun(c, start, acts);
    CountsTornOnce(s);
  }

  /**
   Every callback a thread has made or still owes answers one flip that this thread won (none is owed by a
   thread in its own loop), and enter_fallback and both callbacks are reached with neither lock held.
   */
  ghost predicate CalledByWinner(s: State, t: Tid) {
    var p := At(s, t);
    && multiset(s.m.h.flips)[Enter(t)] == s.m.h.called[Enter(t)] + (if OwesFallbackCall(p) then 1 else 0)
    && multiset(s.m.h.flips)[Exit(t)] == s.m.h.called[Exit(t)] + (if OwesExitCall(p) then 1 else 0)
    && (p.EnCall? || p.ExCall? || p.EnLock? ==> s.m.stateLock != Held(t) && s.m.dataLock != Held(t))
  }

  lemma InvCalledByWinner(s: State, t: Tid)
    requires TransitionInv(s)
    ensures CalledByWinner(s, t)
  {
    assert Calls(s.m.h, t, At(s, t));
  }

  lemma WinnerCallsBack(c: Config, start: State, acts: seq<Act>, s: State, t: Tid)
    requires Starting(c, start) && s in Run(c, start, acts)
    ensures CalledByWinner(s, t)
  {
    TransitionStart(c, start);
    TransitionRun(c, start, acts);
    InvCalledByWinner(s, t);
  }
}
