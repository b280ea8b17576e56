/** Lock discipline and the fallback transitions, for any number of threads and any interleaving. */
module Teardown {
  import opened Sessions

  predicate HoldsState(p: Pc) {
    p.EnTest? || p.EnLost? || p.EnFree? || p.EnData? || p.EnClose? || p.EnOpen? || p.EnUnData? || p.EnUnState?
    || p.ExTest? || p.ExUnlock?
  }

  predicate HoldsData(p: Pc) {
    (p.InRead? && p.locked) || (p.InSend? && p.locked) || p.InUnlock?
    || p.FdRead? || p.FdEvent? || p.FdFds? || p.FdUnlock? || p.MkSet? || p.MkUnlock?
    || p.EnClose? || p.EnOpen? || p.EnUnData?
  }

  ghost predicate Locks(s: State) {
    && (forall u :: s.m.stateLock == Held(u) <==> HoldsState(At(s, u)))
    && (forall u :: s.m.dataLock == Held(u) <==> HoldsData(At(s, u)))
  }

  /** Event threads that have not been created have no program counter. */
  ghost predicate Numbered(s: State) {
    forall k: nat :: k >= s.m.ev.created ==> Ev(k) !in s.pc
  }

  /** A step of `t` leaves a lock alone or moves it between free and held by `t`. */
  predicate Moves(before: Lock, after: Lock, t: Tid) {
    before == after || (before in {Free, Held(t)} && after in {Free, Held(t)})
  }

  /** After a step of `t`, each lock is held by `t` exactly when the new program counter says so. */
  predicate LockStep(m: Shared, t: Tid, r: Local) {
    && (r.m.stateLock == Held(t) <==> HoldsState(r.p))
    && (r.m.dataLock == Held(t) <==> HoldsData(r.p))
    && Moves(m.stateLock, r.m.stateLock, t)
    && Moves(m.dataLock, r.m.dataLock, t)
    && m.ev.created <= r.m.ev.created <= m.ev.created + 1
  }

  predicate LockPre(m: Shared, t: Tid, p: Pc) {
    && (m.stateLock == Held(t) <==> HoldsState(p))
    && (m.dataLock == Held(t) <==> HoldsData(p))
    && (WantsState(p) ==> m.stateLock == Free)
    && (WantsData(p) ==> m.dataLock == Free)
  }

  lemma LocksInput(m: Shared, t: Tid, p: Pc, out: Outcome)
    requires LockPre(m, t, p) && InInput(p)
    ensures LockStep(m, t, ExecInput(m, t, p, out))
  {
  }

  lemma LocksFds(m: Shared, t: Tid, p: Pc, out: Outcome)
    requires LockPre(m, t, p) && InFds(p)
    ensures LockStep(m, t, ExecFds(m, t, p, out))
  {
  }

  lemma LocksMark(c: Config, m: Shared, t: Tid, p: Pc)
    requires LockPre(m, t, p) && InMark(p)
    ensures LockStep(m, t, ExecMark(c, m, t, p))
  {
  }

  lemma LocksEnter(c: Config, m: Shared, t: Tid, p: Pc, out: Outcome)
    requires LockPre(m, t, p) && InEnter(p)
    ensures LockStep(m, t, ExecEnter(c, m, t, p, out))
  {
  }

  lemma LocksExit(c: Config, m: Shared, t: Tid, p: Pc, out: Outcome)
    requires LockPre(m, t, p) && InExit(p)
    ensures LockStep(m, t, ExecExit(c, m, t, p, out))
  {
  }

  lemma LocksStarting(m: Shared, t: Tid, p: Pc, out: Outcome)
    requires LockPre(m, t, p) && InStart(p)
    ensures LockStep(m, t, ExecStart(m, p, out))
  {
  }

  lemma LocksStop(m: Shared, t: Tid, p: Pc)
    requires LockPre(m, t, p) && InStop(p)
    ensures LockStep(m, t, ExecStop(m, t, p))
  {
  }

  lemma LocalLocks(c: Config, m: Shared, t: Tid, p: Pc, out: Outcome)
    requires LockPre(m, t, p) && p != Idle && p != Dead
    ensures LockStep(m, t, Exec(c, m, t, p, out))
  {
    if InInput(p) { LocksInput(m, t, p, out); }
    else if InFds(p) { LocksFds(m, t, p, out); }
    else if InMark(p) { LocksMark(c, m, t, p); }
    else if InEnter(p) { LocksEnter(c, m, t, p, out); }
    else if InExit(p) { LocksExit(c, m, t, p, out); }
    else if InStart(p) { LocksStarting(m, t, p, out); }
    else { LocksStop(m, t, p); }
  }

  lemma LiftLocks(s: State, t: Tid, r: Local)
    requires Locks(s) && Numbered(s) && t in s.pc
    requires LockStep(s.m, t, r)
    ensures Locks(After(s, t, r)) && Numbered(After(s, t, r))
  {
  }

  lemma LocksStep(c: Config, s: State, a: Act)
    requires Locks(s) && Numbered(s) && Enabled(c, s, a)
    ensures Locks(Apply(c, s, a)) && Numbered(Apply(c, s, a))
  {
    match a
    case Begin(t, call) =>
    case Finish(t) =>
    case Producer(msg) =>
    case Go(t, out) =>
      LocalLocks(c, s.m, t, At(s, t), out);
      LiftLocks(s, t, Exec(c, s.m, t, At(s, t), out));
  }

  lemma LocksStart(c: Config, s: State)
    requires Starting(c, s)
    ensures Locks(s) && Numbered(s)
  {
    assert forall u :: !HoldsState(At(s, u)) && !HoldsData(At(s, u));
  }
}
