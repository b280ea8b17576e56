/**
 Generation agreement: with a producer that answers each delivered hello with at most one FDS_READY, the
 FDS_READY that ends fallback answers the latest hello, under every interleaving and after any failures.
 */
module Handshake {
  import opened Sessions
  import opened Teardown
  import opened Transitions

  /** The producer sends FDS_READY only for a hello that reached it and that it has not answered. */
  predicate Polite(s: State, a: Act) {
    a.Producer? && a.msg.Ready? ==> a.msg.g in s.m.ctrl.hellos && a.msg.g !in s.m.ctrl.answered
  }

  predicate PoliteRun(c: Config, s: State, acts: seq<Act>)
    decreases |acts|
  {
    acts != [] && Enabled(c, s, acts[0]) ==>
      Polite(s, acts[0]) && PoliteRun(c, Apply(c, s, acts[0]), acts[1..])
  }

  /** The endpoints in the context are those of the latest hello, and the producer has answered it. */
  predicate Agreed(m: Shared) {
    m.gen in m.ctrl.hellos && m.gen in m.ctrl.answered && m.fd == Gen(m.gen)
  }

  predicate Announced(inbox: seq<Ctrl>) {
    exists i :: 0 <= i < |inbox| && inbox[i].Ready?
  }

  /** An FDS_READY read by a thread and not yet acted on. */
  predicate Carries(p: Pc) {
    p.ExLock? || p.ExTest?
  }

  /** An answer is in flight: it is for the endpoints in place, which nobody is replacing. */
  predicate InFlight(m: Shared, holder: Pc, g: nat) {
    g == m.gen && m.fallback && OwesOpen(holder) == 0 && Agreed(m)
  }

  ghost predicate HandshakeMem(m: Shared, holder: Pc) {
    && m.ctrl.answered <= m.ctrl.hellos
    && (forall g | g in m.ctrl.hellos :: g <= m.gen)
    && (forall g | g in m.ctrl.hellos && g !in m.ctrl.answered ::
          g == m.gen && m.fallback && OwesOpen(holder) == 0 && m.fd == Gen(m.gen))
    && (!m.fallback ==> Agreed(m))
    && (OwesOpen(holder) > 0 ==> m.fallback)
    && (forall i | 0 <= i < |m.ctrl.inbox| && m.ctrl.inbox[i].Ready? :: InFlight(m, holder, m.ctrl.inbox[i].g))
    && (forall i, j | 0 <= i < |m.ctrl.inbox| && 0 <= j < |m.ctrl.inbox|
                      && m.ctrl.inbox[i].Ready? && m.ctrl.inbox[j].Ready? :: i == j)
  }

  /** What a thread that carries an answer knows. */
  predicate CarrierOk(m: Shared, holder: Pc, p: Pc) {
    Carries(p) ==> InFlight(m, holder, p.gen) && !Announced(m.ctrl.inbox)
  }

  ghost predicate HandshakeInv(s: State) {
    && Locks(s) && Numbered(s)
    && HandshakeMem(s.m, HolderPc(s))
    && (forall u :: CarrierOk(s.m, HolderPc(s), At(s, u)))
    && (forall u, v | u != v :: !(Carries(At(s, u)) && Carries(At(s, v))))
  }

  // ---------- one step ----------

  /** A step that leaves the handshake state alone and takes up no answer. */
  predicate Aside(m: Shared, p: Pc, r: Local) {
    && r.m.ctrl == m.ctrl && r.m.gen == m.gen && r.m.fallback == m.fallback && r.m.fd == m.fd
    && (Carries(r.p) ==> Carries(p) && r.p.gen == p.gen)
    && OwesOpen(Own(p)) == OwesOpen(Own(r.p))
    && (HoldsState(r.p) ==> HoldsState(p) || WantsState(p))
  }

  lemma AsideInput(m: Shared, t: Tid, p: Pc, out: Outcome)
    requires InInput(p)
    ensures Aside(m, p, ExecInput(m, t, p, out))
  {
  }

  lemma AsideFds(m: Shared, t: Tid, p: Pc, out: Outcome)
    requires InFds(p)
    ensures Aside(m, p, ExecFds(m, t, p, out))
  {
  }

  lemma AsideMark(c: Config, m: Shared, t: Tid, p: Pc)
    requires InMark(p)
    ensures Aside(m, p, ExecMark(c, m, t, p))
  {
  }

  lemma AsideEnter(c: Config, m: Shared, t: Tid, p: Pc, out: Outcome)
    requires InEnter(p) && !(p.EnTest? && !m.fallback) && !p.EnClose? && !p.EnOpen?
    ensures Aside(m, p, ExecEnter(c, m, t, p, out))
  {
  }

  lemma AsideExit(c: Config, m: Shared, t: Tid, p: Pc, out: Outcome)
    requires InExit(p) && !p.ExRecv? && !(p.ExTest? && m.fallback)
    ensures Aside(m, p, ExecExit(c, m, t, p, out))
  {
  }

  lemma AsideStart(m: Shared, p: Pc, out: Outcome)
    requires InStart(p)
    ensures Aside(m, p, ExecStart(m, p, out))
  {
  }

  lemma AsideStop(m: Shared, t: Tid, p: Pc)
    requires InStop(p)
    ensures Aside(m, p, ExecStop(m, t, p))
  {
  }

  /** Where the holder of state_lock is after a step of `t` from `p`, if it was at `holder` before. */
  function HolderAfter(p: Pc, r: Local, holder: Pc): Pc {
    if HoldsState(p) || HoldsState(r.p) then Own(r.p) else holder
  }

  /** `holder`: the holder of state_lock; `q`: any other thread. */
  ghost predicate ShakePre(m: Shared, p: Pc, holder: Pc, q: Pc) {
    && HandshakeMem(m, holder)
    && (HoldsState(p) ==> holder == p)
    && (WantsState(p) ==> holder == Idle)
    && CarrierOk(m, holder, p) && CarrierOk(m, holder, q)
    && !(Carries(p) && Carries(q))
  }

  ghost predicate ShakeStep(p: Pc, holder: Pc, q: Pc, r: Local) {
    var h' := HolderAfter(p, r, holder);
    && HandshakeMem(r.m, h')
    && CarrierOk(r.m, h', r.p) && CarrierOk(r.m, h', q)
    && !(Carries(r.p) && Carries(q))
  }

  lemma ShakeAside(m: Shared, p: Pc, holder: Pc, q: Pc, r: Local)
    requires ShakePre(m, p, holder, q) && Aside(m, p, r)
    ensures ShakeStep(p, holder, q, r)
  {
    assert OwesOpen(HolderAfter(p, r, holder)) == OwesOpen(holder);
  }

  lemma ShakeEnter(c: Config, m: Shared, t: Tid, p: Pc, holder: Pc, q: Pc, out: Outcome)
    requires ShakePre(m, p, holder, q)
    requires (p.EnTest? && !m.fallback) || p.EnClose? || p.EnOpen?
    ensures ShakeStep(p, holder, q, ExecEnter(c, m, t, p, out))
  {
  }

  lemma MemTail(m: Shared, holder: Pc, inbox: seq<Ctrl>)
    requires HandshakeMem(m, holder) && m.ctrl.inbox != [] && inbox == m.ctrl.inbox[1..]
    ensures HandshakeMem(m.(ctrl := m.ctrl.(inbox := inbox)), holder)
    ensures Announced(inbox) ==> Announced(m.ctrl.inbox) && !m.ctrl.inbox[0].Ready?
    ensures m.ctrl.inbox[0].Ready? ==> Announced(m.ctrl.inbox) && InFlight(m, holder, m.ctrl.inbox[0].g)
  {
    assert forall i | 0 <= i < |inbox| :: inbox[i] == m.ctrl.inbox[i + 1];
    if Announced(inbox) {
      var i :| 0 <= i < |inbox| && inbox[i].Ready?;
      assert m.ctrl.inbox[i + 1].Ready?;
    }
  }

  /** Reading one control message: an FDS_READY passes from the channel to the thread. */
  lemma ShakeTaken(m: Shared, m': Shared, p: Pc, holder: Pc, q: Pc, head: Ctrl)
    requires p.ExRecv? && CarrierOk(m, holder, q) && HandshakeMem(m', holder)
    requires m' == m.(ctrl := m.ctrl.(inbox := m'.ctrl.inbox))
    requires Announced(m'.ctrl.inbox) ==> Announced(m.ctrl.inbox) && !head.Ready?
    requires head.Ready? ==> Announced(m.ctrl.inbox) && InFlight(m, holder, head.g)
    ensures ShakeStep(p, holder, q, Local(if head.Ready? then ExLock(head.g) else Idle, m'))
  {
  }

  /** The next header, if there is one. */
  lemma RecvIs(c: Config, m: Shared, t: Tid, p: Pc, out: Outcome)
    requires p.ExRecv?
    ensures var inbox := m.ctrl.inbox;
            ExecExit(c, m, t, p, out) ==
            if inbox == [] || out != Ok then Local(Idle, m)
            else Local(if inbox[0].Ready? then ExLock(inbox[0].g) else Idle, m.(ctrl := m.ctrl.(inbox := inbox[1..])))
  {
  }

  lemma ShakeRead(m: Shared, p: Pc, holder: Pc, q: Pc)
    requires ShakePre(m, p, holder, q) && p.ExRecv? && m.ctrl.inbox != []
    ensures var inbox := m.ctrl.inbox;
            ShakeStep(p, holder, q, Local(if inbox[0].Ready? then ExLock(inbox[0].g) else Idle,
                                          m.(ctrl := m.ctrl.(inbox := inbox[1..]))))
  {
    var inbox := m.ctrl.inbox[1..];
    MemTail(m, holder, inbox);
    ShakeTaken(m, m.(ctrl := m.ctrl.(inbox := inbox)), p, holder, q, m.ctrl.inbox[0]);
  }

  lemma ShakeRecv(c: Config, m: Shared, t: Tid, p: Pc, holder: Pc, q: Pc, out: Outcome)
    requires ShakePre(m, p, holder, q) && p.ExRecv?
    ensures ShakeStep(p, holder, q, ExecExit(c, m, t, p, out))
  {
    RecvIs(c, m, t, p, out);
    if m.ctrl.inbox != [] && out == Ok {
      ShakeRead(m, p, holder, q);
    } else {
      ShakeAside(m, p, holder, q, Local(Idle, m));
    }
  }

  lemma ShakeFlipOut(c: Config, m: Shared, t: Tid, p: Pc, holder: Pc, q: Pc, out: Outcome)
    requires ShakePre(m, p, holder, q) && p.ExTest? && m.fallback
    ensures ShakeStep(p, holder, q, ExecExit(c, m, t, p, out))
  {
  }

  predicate Shaking(m: Shared, p: Pc) {
    (p.EnTest? && !m.fallback) || p.EnClose? || p.EnOpen? || p.ExRecv? || (p.ExTest? && m.fallback)
  }

  lemma LocalAside(c: Config, m: Shared, t: Tid, p: Pc, out: Outcome)
    requires p != Idle && p != Dead && !Shaking(m, p)
    ensures Aside(m, p, Exec(c, m, t, p, out))
  {
    if InInput(p) { AsideInput(m, t, p, out); }
    else if InFds(p) { AsideFds(m, t, p, out); }
    else if InMark(p) { AsideMark(c, m, t, p); }
    else if InEnter(p) { AsideEnter(c, m, t, p, out); }
    else if InExit(p) { AsideExit(c, m, t, p, out); }
    else if InStart(p) { AsideStart(m, p, out); }
    else { AsideStop(m, t, p); }
  }

  lemma LocalShake(c: Config, m: Shared, t: Tid, p: Pc, holder: Pc, q: Pc, out: Outcome, r: Local)
    requires p != Idle && p != Dead && ShakePre(m, p, holder, q) && r == Exec(c, m, t, p, out)
    ensures ShakeStep(p, holder, q, r)
  {
    if !Shaking(m, p) {
      LocalAside(c, m, t, p, out);
      ShakeAside(m, p, holder, q, r);
    } else if InEnter(p) {
      EnterIs(c, m, t, p, out);
      ShakeEnter(c, m, t, p, holder, q, out);
    } else {
      ExitIs(c, m, t, p, out);
      if p.ExRecv? {
        ShakeRecv(c, m, t, p, holder, q, out);
      } else {
        ShakeFlipOut(c, m, t, p, holder, q, out);
      }
    }
  }

  // ---------- lifting to every thread ----------

  lemma HolderMoves(s: State, t: Tid, r: Local)
    requires Locks(s) && Numbered(s) && t in s.pc && LockStep(s.m, t, r)
    ensures HolderPc(After(s, t, r)) == HolderAfter(At(s, t), r, HolderPc(s))
  {
  }

  lemma LiftShake(s: State, t: Tid, r: Local)
    requires HandshakeInv(s) && t in s.pc && LockStep(s.m, t, r)
    requires forall u | u != t :: ShakeStep(At(s, t), HolderPc(s), At(s, u), r)
    requires ShakeStep(At(s, t), HolderPc(s), Idle, r)
    ensures var v := After(s, t, r);
            && HandshakeMem(v.m, HolderPc(v))
            && (forall u :: CarrierOk(v.m, HolderPc(v), At(v, u)))
            && (forall u, w | u != w :: !(Carries(At(v, u)) && Carries(At(v, w))))
  {
    HolderMoves(s, t, r);
    var v := After(s, t, r);
    forall u
      ensures CarrierOk(v.m, HolderPc(v), At(v, u))
    {
      if u != t { assert ShakeStep(At(s, t), HolderPc(s), At(s, u), r); }
    }
    forall u, w | u != w
      ensures !(Carries(At(v, u)) && Carries(At(v, w)))
    {
      assert !(Carries(At(s, u)) && Carries(At(s, w)));
      if u != t { assert ShakeStep(At(s, t), HolderPc(s), At(s, u), r); }
      if w != t { assert ShakeStep(At(s, t), HolderPc(s), At(s, w), r); }
    }
  }

  lemma ShakePreAt(c: Config, s: State, t: Tid, out: Outcome, q: Pc)
    requires HandshakeInv(s) && Enabled(c, s, Go(t, out))
    requires CarrierOk(s.m, HolderPc(s), q) && !(Carries(At(s, t)) && Carries(q))
    ensures LockPre(s.m, t, At(s, t)) && ShakePre(s.m, At(s, t), HolderPc(s), q)
  {
    assert CarrierOk(s.m, HolderPc(s), At(s, t));
  }

  lemma HandshakeGo(c: Config, s: State, t: Tid, out: Outcome, r: Local)
    requires HandshakeInv(s) && Enabled(c, s, Go(t, out)) && r == Exec(c, s.m, t, At(s, t), out)
    ensures HandshakeInv(After(s, t, r))
  {
    ShakePreAt(c, s, t, out, Idle);
    LocalLocks(c, s.m, t, At(s, t), out);
    LiftLocks(s, t, r);
    forall u | u != t
      ensures ShakeStep(At(s, t), HolderPc(s), At(s, u), r)
    {
      assert CarrierOk(s.m, HolderPc(s), At(s, u)) && !(Carries(At(s, t)) && Carries(At(s, u)));
      ShakePreAt(c, s, t, out, At(s, u));
      LocalShake(c, s.m, t, At(s, t), HolderPc(s), At(s, u), out, r);
    }
    LocalShake(c, s.m, t, At(s, t), HolderPc(s), Idle, out, r);
    LiftShake(s, t, r);
  }

  /** A thread starting a call or leaving its loop is none of the handshake's business. */
  lemma HandshakeCalls(c: Config, s: State, a: Act, v: State)
    requires HandshakeInv(s) && Enabled(c, s, a) && (a.Begin? || a.Finish?) && v == Apply(c, s, a)
    ensures HandshakeMem(v.m, HolderPc(v))
    ensures forall u :: CarrierOk(v.m, HolderPc(v), At(v, u))
    ensures forall u, w | u != w :: !(Carries(At(v, u)) && Carries(At(v, w)))
  {
    assert v.m.ctrl == s.m.ctrl && v.m.gen == s.m.gen && v.m.fallback == s.m.fallback && v.m.fd == s.m.fd;
    assert v.m.stateLock == s.m.stateLock && HolderPc(v) == HolderPc(s);
    forall u
      ensures CarrierOk(v.m, HolderPc(v), At(v, u))
      ensures Carries(At(v, u)) ==> At(v, u) == At(s, u)
    {
      assert CarrierOk(s.m, HolderPc(s), At(s, u));
    }
  }

  lemma HandshakeProducer(s: State, msg: Ctrl, v: State)
    requires HandshakeInv(s) && Polite(s, Producer(msg))
    requires v == Apply(Config(0, {}), s, Producer(msg))
    ensures HandshakeMem(v.m, HolderPc(v))
    ensures forall u :: CarrierOk(v.m, HolderPc(v), At(v, u))
  {
    var inbox := v.m.ctrl.inbox;
    assert HolderPc(v) == HolderPc(s);
    assert forall i | 0 <= i < |inbox| - 1 :: inbox[i] == s.m.ctrl.inbox[i];
    forall u
      ensures CarrierOk(v.m, HolderPc(v), At(v, u))
    {
      assert CarrierOk(s.m, HolderPc(s), At(s, u));
    }
  }

  lemma HandshakeStep(c: Config, s: State, a: Act)
    requires HandshakeInv(s) && Enabled(c, s, a) && Polite(s, a)
    ensures HandshakeInv(Apply(c, s, a))
  {
    LocksStep(c, s, a);
    match a
    case Go(t, out) => HandshakeGo(c, s, t, out, Exec(c, s.m, t, At(s, t), out));
    case Begin(_, _) => HandshakeCalls(c, s, a, Apply(c, s, a));
    case Finish(_) => HandshakeCalls(c, s, a, Apply(c, s, a));
    case Producer(msg) => HandshakeProducer(s, msg, Apply(c, s, a));
  }

  lemma HandshakeStart(c: Config, s: State)
    requires Starting(c, s)
    ensures HandshakeInv(s)
  {
    LocksStart(c, s);
    assert forall u :: !Carries(At(s, u));
  }

  lemma {:induction false} HandshakeRun(c: Config, s: State, acts: seq<Act>)
    requires HandshakeInv(s) && PoliteRun(c, s, acts)
    ensures forall v | v in Run(c, s, acts) :: HandshakeInv(v)
    decreases |acts|
  {
    if acts == [] || !Enabled(c, s, acts[0]) {
    } else {
      HandshakeStep(c, s, acts[0]);
      HandshakeRun(c, Apply(c, s, acts[0]), acts[1..]);
    }
  }

  /**
   With a polite producer, in every reachable state: an active context has exactly the endpoints of the
   latest hello, which reached the producer and was answered; an FDS_READY on its way or in a thread's
   hands is for the endpoints in place; and the thread that brings one to the flip always wins it.
   */
  lemma ReadyAnswersLatestHello(c: Config, start: State, acts: seq<Act>, s: State)
    requires Starting(c, start) && PoliteRun(c, start, acts)
    requires s in Run(c, start, acts)
    ensures !s.m.fallback ==> Agreed(s.m)
    ensures forall i | 0 <= i < |s.m.ctrl.inbox| && s.m.ctrl.inbox[i].Ready? ::
              s.m.ctrl.inbox[i].g == s.m.gen && Agreed(s.m)
    ensures forall t | Carries(At(s, t)) :: At(s, t).gen == s.m.gen && s.m.fallback && Agreed(s.m)
  {
    HandshakeStart(c, start);
    HandshakeRun(c, start, acts);
    assert forall t :: CarrierOk(s.m, HolderPc(s), At(s, t));
  }
}
