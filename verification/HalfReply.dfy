/**
 A reply half sent: whether an input thread can part its halves is decided by the gate, which it samples itself.
 */
module HalfReply {
  import opened Sessions
  import opened Adjacency
  import opened Lifecycle

  /** Thread `e` has sent the RESOURCE event of a reply, and is about to send its descriptors. */
  predicate HalfSentBy(s: State, e: Tid) {
    At(s, e).FdFds? && s.m.dataLock == Held(e) && s.m.fd == Gen(At(s, e).gen) && At(s, e).gen !in s.m.net.broken
  }

  /** An action of push_input_event by thread `u`. */
  predicate Inputs(u: Tid, a: Act) {
    a == Begin(u, CallInput) || (a.Go? && a.t == u)
  }

  // ---------- with the gate closed ----------

  /** `u` has got no further than the wait for data_lock, and everything else is as in `s`. */
  ghost predicate HeldUp(s: State, v: State, u: Tid) {
    && v.m == s.m && (forall x | x != u :: At(v, x) == At(s, x))
    && At(v, u) in {Idle, InCheck(false), InGate(false), InLock(false)}
  }

  lemma HeldUpPaired(s: State, v: State, e: Tid, u: Tid)
    requires HeldUp(s, v, u) && u != e && HalfSentBy(s, e) && AllPaired(s)
    ensures AllPaired(v)
  {
    forall g: nat
      ensures Paired(Stream(v.m.net, g), g in v.m.net.broken || SendingHalves(v, g))
    {
      assert Paired(Stream(s.m.net, g), g in s.m.net.broken || SendingHalves(s, g));
      if SendingHalves(s, g) {
        assert At(v, e).FdFds? && At(v, e).gen == g;
      }
      PairedLoose(Stream(s.m.net, g), g in s.m.net.broken || SendingHalves(s, g),
                  g in v.m.net.broken || SendingHalves(v, g));
    }
  }

  lemma HeldUpStays(c: Config, s: State, v: State, e: Tid, u: Tid, a: Act)
    requires HeldUp(s, v, u) && u != e && HalfSentBy(s, e) && s.m.gate && !s.m.fallback
    requires Inputs(u, a) && Enabled(c, v, a)
    ensures HeldUp(s, Apply(c, v, a), u)
  {
  }

  lemma {:induction false} ClosedGateHolds(c: Config, s: State, v: State, e: Tid, u: Tid, acts: seq<Act>)
    requires HeldUp(s, v, u) && u != e && HalfSentBy(s, e) && s.m.gate && !s.m.fallback && AllPaired(s)
    requires forall a | a in acts :: Inputs(u, a)
    ensures forall w | w in Run(c, v, acts) :: AllPaired(w)
    decreases |acts|
  {
    HeldUpPaired(s, v, e, u);
    if acts != [] && Enabled(c, v, acts[0]) {
      assert acts[0] in acts;
      HeldUpStays(c, s, v, e, u, acts[0]);
      ClosedGateHolds(c, s, Apply(c, v, acts[0]), e, u, acts[1..]);
    }
  }

  // ---------- with the gate open ----------

  /** `u` is at `p`, everything else as in `s`. */
  ghost predicate Gone(s: State, v: State, u: Tid, p: Pc) {
    StreamInv(v) && v.m == s.m && At(v, u) == p && forall x | x != u :: At(v, x) == At(s, x)
  }

  lemma Goes(c: Config, s: State, v: State, u: Tid, a: Act, p: Pc)
    requires StreamInv(v) && v.m == s.m && (forall x | x != u :: At(v, x) == At(s, x)) && Inputs(u, a)
             && Enabled(c, v, a)
    requires a.Go? ==> At(v, u) in {InCheck(false), InGate(false), InRead(false, false, s.m.h.arms)}
    requires p == if a.Begin? then InCheck(false) else Exec(c, s.m, u, At(v, u), a.out).p
    ensures Gone(s, Apply(c, v, a), u, p)
  {
    StreamStepAny(c, v, a);
  }

  /** The input thread `u` can part the halves by itself. */
  ghost predicate CanPart(c: Config, s: State, u: Tid) {
    exists acts, v :: (forall a | a in acts :: Inputs(u, a)) && v in Run(c, s, acts) && !AllPaired(v)
  }

  lemma StillCan(c: Config, s: State, u: Tid, a: Act)
    requires Inputs(u, a) && Enabled(c, s, a) && CanPart(c, Apply(c, s, a), u)
    ensures CanPart(c, s, u)
  {
    var acts, v :| (forall b | b in acts :: Inputs(u, b)) && v in Run(c, Apply(c, s, a), acts) && !AllPaired(v);
    assert ([a] + acts)[1..] == acts;
    assert v in Run(c, s, [a] + acts) && forall b | b in [a] + acts :: Inputs(u, b);
  }

  lemma NowParted(c: Config, s: State, u: Tid)
    requires !AllPaired(s)
    ensures CanPart(c, s, u)
  {
    var none: seq<Act> := [];
    assert s in Run(c, s, none);
  }

  /** From the sample of the open gate on, the event is sent without data_lock. */
  lemma SendParts(c: Config, s: State, v: State, e: Tid, u: Tid)
    requires Gone(s, v, u, InSend(false, false, s.m.h.arms, s.m.fd)) && u != e && HalfSentBy(s, e) && s.m.connected
    ensures Enabled(c, v, Go(u, Ok)) && !AllPaired(Apply(c, v, Go(u, Ok)))
  {
    assert DataHolderPc(v) == At(s, e);
    WedgeBreaks(c, v, Go(u, Ok));
  }

  lemma FromRead(c: Config, s: State, v: State, e: Tid, u: Tid)
    requires Gone(s, v, u, InRead(false, false, s.m.h.arms)) && u != e && HalfSentBy(s, e) && s.m.connected
    ensures CanPart(c, v, u)
  {
    var go := Go(u, Ok);
    var w := Apply(c, v, go);
    Goes(c, s, v, u, go, InSend(false, false, s.m.h.arms, s.m.fd));
    SendParts(c, s, w, e, u);
    NowParted(c, Apply(c, w, go), u);
    StillCan(c, w, u, go);
    StillCan(c, v, u, go);
  }

  lemma FromGate(c: Config, s: State, v: State, e: Tid, u: Tid)
    requires Gone(s, v, u, InGate(false)) && u != e && HalfSentBy(s, e) && s.m.connected && !s.m.gate
    ensures CanPart(c, v, u)
  {
    var go := Go(u, Ok);
    Goes(c, s, v, u, go, InRead(false, false, s.m.h.arms));
    FromRead(c, s, Apply(c, v, go), e, u);
    StillCan(c, v, u, go);
  }

  lemma FromCheck(c: Config, s: State, v: State, e: Tid, u: Tid)
    requires Gone(s, v, u, InCheck(false)) && u != e && HalfSentBy(s, e) && s.m.connected && !s.m.fallback && !s.m.gate
    ensures CanPart(c, v, u)
  {
    var go := Go(u, Ok);
    Goes(c, s, v, u, go, InGate(false));
    FromGate(c, s, Apply(c, v, go), e, u);
    StillCan(c, v, u, go);
  }

  lemma OpenGateParts(c: Config, s: State, e: Tid, u: Tid)
    requires StreamInv(s) && s.m.connected && !s.m.fallback && !s.m.gate && HalfSentBy(s, e) && u != e
             && At(s, u) == Idle
    ensures CanPart(c, s, u)
  {
    Goes(c, s, s, u, Begin(u, CallInput), InCheck(false));
    FromCheck(c, s, Apply(c, s, Begin(u, CallInput)), e, u);
    StillCan(c, s, u, Begin(u, CallInput));
  }

  // ---------- together ----------

  lemma {:induction false} StreamRun(c: Config, s: State, acts: seq<Act>)
    requires StreamInv(s) && NeverWedged(c, s, acts)
    ensures forall v | v in Run(c, s, acts) :: StreamInv(v)
    decreases |acts|
  {
    if acts != [] && Enabled(c, s, acts[0]) {
      StreamStepAny(c, s, acts[0]);
      StreamRun(c, Apply(c, s, acts[0]), acts[1..]);
    }
  }

  /**
   In any session reached with all halves adjacent so far, with a reply half sent and an input thread idle, that
   thread can part the halves if and only if the gate is open.
   */
  lemma GateDecides(c: Config, start: State, acts: seq<Act>, s: State, e: Tid, u: Tid)
    requires Starting(c, start) && NeverWedged(c, start, acts) && s in Run(c, start, acts)
    requires s.m.connected && !s.m.fallback && HalfSentBy(s, e) && u != e && At(s, u) == Idle
    ensures CanPart(c, s, u) <==> !s.m.gate
  {
    StreamStart(c, start);
    StreamRun(c, start, acts);
    StreamInvPaired(s);
    if s.m.gate {
      forall more, v | (forall a | a in more :: Inputs(u, a)) && v in Run(c, s, more)
        ensures AllPaired(v)
      {
        ClosedGateHolds(c, s, s, e, u, more);
      }
    } else {
      OpenGateParts(c, s, e, u);
    }
  }

  // ---------- 32 services or more ----------

  /** Nobody is recording a service. */
  ghost predicate Unmarked(s: State) {
    s.m.gate && forall u :: !At(s, u).MkLock? && !At(s, u).MkSet?
  }

  lemma UnmarkedStep(c: Config, s: State, a: Act)
    requires c.services >= 32 && Unmarked(s) && Enabled(c, s, a)
    ensures Unmarked(Apply(c, s, a))
  {
    if a.Go? {
      UnmarkedLocal(c, s.m, a.t, At(s, a.t), a.out, Exec(c, s.m, a.t, At(s, a.t), a.out));
    }
    forall u
      ensures !At(Apply(c, s, a), u).MkLock? && !At(Apply(c, s, a), u).MkSet?
    {
      assert !At(s, u).MkLock? && !At(s, u).MkSet?;
    }
  }

  lemma UnmarkedEnter(c: Config, m: Shared, t: Tid, p: Pc, out: Outcome)
    requires InEnter(p) && c.services >= 32 && m.gate
    ensures var r := ExecEnter(c, m, t, p, out); r.m.gate && !r.p.MkLock? && !r.p.MkSet?
  {
  }

  lemma UnmarkedExit(c: Config, m: Shared, t: Tid, p: Pc, out: Outcome)
    requires InExit(p) && c.services >= 32 && m.gate
    ensures var r := ExecExit(c, m, t, p, out); r.m.gate && !r.p.MkLock? && !r.p.MkSet?
  {
  }

  lemma UnmarkedInput(m: Shared, t: Tid, p: Pc, out: Outcome)
    requires InInput(p) && m.gate
    ensures var r := ExecInput(m, t, p, out); r.m.gate && !r.p.MkLock? && !r.p.MkSet?
  {
  }

  lemma UnmarkedFds(m: Shared, t: Tid, p: Pc, out: Outcome)
    requires InFds(p) && m.gate
    ensures var r := ExecFds(m, t, p, out); r.m.gate && !r.p.MkLock? && !r.p.MkSet?
  {
  }

  lemma UnmarkedMark(c: Config, m: Shared, t: Tid, p: Pc)
    requires c.services >= 32 && m.gate && (p.MkCheck? || p.MkUnlock?)
    ensures var r := ExecMark(c, m, t, p); r.m.gate && !r.p.MkLock? && !r.p.MkSet?
  {
  }

  lemma UnmarkedStart(m: Shared, p: Pc, out: Outcome)
    requires InStart(p) && m.gate
    ensures var r := ExecStart(m, p, out); r.m.gate && !r.p.MkLock? && !r.p.MkSet?
  {
  }

  lemma UnmarkedStop(m: Shared, t: Tid, p: Pc)
    requires InStop(p) && m.gate
    ensures var r := ExecStop(m, t, p); r.m.gate && !r.p.MkLock? && !r.p.MkSet?
  {
  }

  lemma UnmarkedLocal(c: Config, m: Shared, t: Tid, p: Pc, out: Outcome, r: Local)
    requires c.services >= 32 && m.gate && !p.MkLock? && !p.MkSet? && r == Exec(c, m, t, p, out)
    ensures r.m.gate && !r.p.MkLock? && !r.p.MkSet?
  {
    if InInput(p) {
      UnmarkedInput(m, t, p, out);
    } else if InFds(p) {
      UnmarkedFds(m, t, p, out);
    } else if InMark(p) {
      UnmarkedMark(c, m, t, p);
    } else if InEnter(p) {
      UnmarkedEnter(c, m, t, p, out);
      EnterIs(c, m, t, p, out);
    } else if InExit(p) {
      UnmarkedExit(c, m, t, p, out);
      ExitIs(c, m, t, p, out);
    } else if InStart(p) {
      UnmarkedStart(m, p, out);
      StartIs(c, m, t, p, out);
    } else if InStop(p) {
      UnmarkedStop(m, t, p);
      StopIs(c, m, t, p, out);
    }
  }

  lemma {:induction false} UnmarkedRun(c: Config, s: State, acts: seq<Act>)
    requires c.services >= 32 && Unmarked(s)
    ensures forall v | v in Run(c, s, acts) :: Unmarked(v)
    decreases |acts|
  {
    if acts != [] && Enabled(c, s, acts[0]) {
      UnmarkedStep(c, s, acts[0]);
      UnmarkedRun(c, Apply(c, s, acts[0]), acts[1..]);
    }
  }

  /** With 32 services or more the mask is not kept, and every writer takes data_lock for good. */
  lemma ManyKeepTheGate(c: Config, start: State, acts: seq<Act>, s: State)
    requires Starting(c, start) && c.services >= 32 && s in Run(c, start, acts)
    ensures s.m.gate
  {
    assert forall u :: Outside(At(start, u));
    UnmarkedRun(c, start, acts);
  }
}
