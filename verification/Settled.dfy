/**
 What calls do once a fallback has settled: nothing until the next flip; what a failed send does to a session: it ends;
 what reaches a socket that has been closed, and what a session takes from the control connection: nothing.
 */
module Settled {
  import opened Sessions
  import opened Teardown
  import opened Transitions
  import opened Lifecycle
  import opened Instances
  import opened EventStop

  // ---------- a settled fallback ----------

  /** In its own loop or a lifecycle call, or at a step that looks at fallback before anything else. */
  predicate Harmless(p: Pc) {
    || Outside(p)
    || p == InCheck(false) || p.FdCheck? || p.MkCheck?
    || p == EnLock(RIdle) || p == EnTest(RIdle) || p == EnLost(RIdle)
    || p.ExCheck? || p.ExRecv? || p.ExLock? || p.ExTest?
  }

  ghost predicate AllHarmless(s: State) {
    s.m.fallback && forall u :: Harmless(At(s, u))
  }

  /** Nothing has been sent, recorded, torn down, opened, called back or started. */
  predicate Untouched(m: Shared, n: Shared) {
    && n.fallback == m.fallback && n.fd == m.fd && n.gen == m.gen && n.gate == m.gate && n.mask == m.mask
    && n.dataLock == m.dataLock && n.net == m.net && n.ev.created == m.ev.created
    && n.h == m.h.(requested := n.h.requested)
  }

  /** One step other than the flip. */
  predicate SettledStep(m: Shared, p: Pc, r: Local) {
    m.fallback && Harmless(p) && r.m.h.flips == m.h.flips ==> Untouched(m, r.m) && Harmless(r.p)
  }

  lemma SettledInput(m: Shared, t: Tid, p: Pc, out: Outcome)
    requires p == InCheck(false)
    ensures SettledStep(m, p, ExecInput(m, t, p, out))
  {
  }

  lemma SettledFds(m: Shared, t: Tid, p: Pc, out: Outcome)
    requires p.FdCheck?
    ensures SettledStep(m, p, ExecFds(m, t, p, out))
  {
  }

  lemma SettledMark(c: Config, m: Shared, t: Tid, p: Pc)
    requires p.MkCheck?
    ensures SettledStep(m, p, ExecMark(c, m, t, p))
  {
  }

  lemma SettledEnter(c: Config, m: Shared, t: Tid, p: Pc, out: Outcome)
    requires p == EnLock(RIdle) || p == EnTest(RIdle) || p == EnLost(RIdle)
    ensures SettledStep(m, p, ExecEnter(c, m, t, p, out))
  {
  }

  lemma SettledExit(c: Config, m: Shared, t: Tid, p: Pc, out: Outcome)
    requires p.ExCheck? || p.ExRecv? || p.ExLock? || p.ExTest?
    ensures SettledStep(m, p, ExecExit(c, m, t, p, out))
  {
    if p.ExTest? && m.fallback {
      assert |ExecExit(c, m, t, p, out).m.h.flips| > |m.h.flips|;
    }
  }

  lemma SettledStop(m: Shared, t: Tid, p: Pc)
    requires InStop(p)
    ensures SettledStep(m, p, ExecStop(m, t, p))
  {
  }

  lemma LocalSettled(c: Config, m: Shared, t: Tid, p: Pc, out: Outcome, r: Local)
    requires Harmless(p) && p != Idle && p != Dead && r == Exec(c, m, t, p, out)
    ensures SettledStep(m, p, r)
  {
    if InEnter(p) {
      SettledEnter(c, m, t, p, out);
      EnterIs(c, m, t, p, out);
    } else if InExit(p) {
      SettledExit(c, m, t, p, out);
      ExitIs(c, m, t, p, out);
    } else if InStop(p) {
      SettledStop(m, t, p);
      StopIs(c, m, t, p, out);
    } else {
      CallIs(c, m, t, p, out);
      if p.FdCheck? {
        SettledFds(m, t, p, out);
      } else if p.MkCheck? {
        SettledMark(c, m, t, p);
      } else {
        SettledInput(m, t, p, out);
      }
    }
  }

  lemma SettledGo(s: State, t: Tid, r: Local)
    requires AllHarmless(s) && SettledStep(s.m, At(s, t), r) && SameSpell(s, After(s, t, r))
    ensures AllHarmless(After(s, t, r)) && Untouched(s.m, r.m)
  {
    assert Harmless(At(s, t));
    forall u
      ensures Harmless(At(After(s, t, r), u))
    {
      assert Harmless(At(s, u));
    }
  }

  lemma SettledOther(c: Config, s: State, a: Act)
    requires AllHarmless(s) && Enabled(c, s, a) && !a.Go?
    ensures AllHarmless(Apply(c, s, a)) && Untouched(s.m, Apply(c, s, a).m)
  {
    forall u
      ensures Harmless(At(Apply(c, s, a), u))
    {
      assert Harmless(At(s, u));
    }
  }

  lemma SettledEvent(c: Config, s: State, e: Event)
    requires AllHarmless(s) && Possible(c, s, e) && SameSpell(s, Becomes(c, s, e))
    ensures AllHarmless(Becomes(c, s, e)) && Untouched(s.m, Becomes(c, s, e).m)
  {
    match e
    case Step(a) =>
      if a.Go? {
        assert Harmless(At(s, a.t));
        LocalSettled(c, s.m, a.t, At(s, a.t), a.out, Exec(c, s.m, a.t, At(s, a.t), a.out));
        SettledGo(s, a.t, Exec(c, s.m, a.t, At(s, a.t), a.out));
      } else {
        SettledOther(c, s, a);
      }
    case Connect =>
    case NativeStart =>
      forall u
        ensures Harmless(At(Becomes(c, s, e), u))
      {
        assert Harmless(At(s, u));
      }
  }

  lemma {:induction false} SettledRun(c: Config, s: State, es: seq<Event>, v: State)
    requires AllHarmless(s) && LeadsWithin(c, s, es, v)
    ensures Untouched(s.m, v.m)
    decreases |es|
  {
    if es != [] {
      SettledEvent(c, s, es[0]);
      SettledRun(c, Becomes(c, s, es[0]), es[1..], v);
    }
  }

  /**
   In fallback with no call on the context under way, nothing that any thread does before the next flip sends anything,
   records a service, touches the endpoints or makes a callback.
   */
  lemma FallbackIsQuiet(c: Config, s: State, es: seq<Event>, v: State)
    requires s.m.fallback && (forall u :: Outside(At(s, u))) && LeadsWithin(c, s, es, v)
    ensures v.m.net == s.m.net && v.m.mask == s.m.mask && v.m.gate == s.m.gate && v.m.gen == s.m.gen && v.m.fd == s.m.fd
    ensures v.m.h.torn == s.m.h.torn && v.m.h.freed == s.m.h.freed && v.m.h.called == s.m.h.called
    ensures v.m.ev.created == s.m.ev.created
  {
    SettledRun(c, s, es, v);
  }

  // ---------- control headers in a session ----------

  /** In a session, with nobody about to read a control header. */
  ghost predicate Unread(s: State) {
    !s.m.fallback && forall u :: !At(s, u).ExRecv?
  }

  /** One step without a flip. */
  predicate UnreadStep(m: Shared, p: Pc, r: Local) {
    !m.fallback && !p.ExRecv? && r.m.h.flips == m.h.flips ==>
      !r.m.fallback && r.m.ctrl == m.ctrl && !r.p.ExRecv?
  }

  lemma UnreadCalls(m: Shared, t: Tid, p: Pc, out: Outcome)
    requires InInput(p) || InFds(p)
    ensures UnreadStep(m, p, if InInput(p) then ExecInput(m, t, p, out) else ExecFds(m, t, p, out))
  {
  }

  lemma UnreadMark(c: Config, m: Shared, t: Tid, p: Pc)
    requires InMark(p)
    ensures UnreadStep(m, p, ExecMark(c, m, t, p))
  {
  }

  /** Somebody who holds state_lock to tear down does so in fallback. */
  lemma UnreadEnter(c: Config, m: Shared, t: Tid, p: Pc, out: Outcome)
    requires InEnter(p) && (TearingDown(p) ==> m.fallback)
    ensures UnreadStep(m, p, ExecEnter(c, m, t, p, out))
  {
    if p.EnTest? && !m.fallback {
      assert |ExecEnter(c, m, t, p, out).m.h.flips| > |m.h.flips|;
    }
  }

  lemma UnreadExit(c: Config, m: Shared, t: Tid, p: Pc, out: Outcome)
    requires InExit(p)
    ensures UnreadStep(m, p, ExecExit(c, m, t, p, out))
  {
  }

  lemma UnreadStart(m: Shared, p: Pc, out: Outcome)
    requires InStart(p)
    ensures UnreadStep(m, p, ExecStart(m, p, out))
  {
  }

  lemma UnreadStop(m: Shared, t: Tid, p: Pc)
    requires InStop(p)
    ensures UnreadStep(m, p, ExecStop(m, t, p))
  {
  }

  lemma LocalUnread(c: Config, m: Shared, t: Tid, p: Pc, out: Outcome, r: Local)
    requires p != Idle && p != Dead && (TearingDown(p) ==> m.fallback) && r == Exec(c, m, t, p, out)
    ensures UnreadStep(m, p, r)
  {
    if InInput(p) || InFds(p) {
      UnreadCalls(m, t, p, out);
    } else if InMark(p) {
      UnreadMark(c, m, t, p);
    } else if InEnter(p) {
      UnreadEnter(c, m, t, p, out);
      EnterIs(c, m, t, p, out);
    } else if InExit(p) {
      UnreadExit(c, m, t, p, out);
      ExitIs(c, m, t, p, out);
    } else if InStart(p) {
      UnreadStart(m, p, out);
      StartIs(c, m, t, p, out);
    } else {
      UnreadStop(m, t, p);
      StopIs(c, m, t, p, out);
    }
  }

  lemma UnreadGo(s: State, t: Tid, r: Local)
    requires Unread(s) && UnreadStep(s.m, At(s, t), r) && SameSpell(s, After(s, t, r))
    ensures Unread(After(s, t, r)) && r.m.ctrl == s.m.ctrl
  {
    assert !At(s, t).ExRecv?;
    forall u
      ensures !At(After(s, t, r), u).ExRecv?
    {
      assert !At(s, u).ExRecv?;
    }
  }

  lemma UnreadOther(c: Config, s: State, a: Act)
    requires Unread(s) && Enabled(c, s, a) && !a.Go?
    ensures Unread(Apply(c, s, a)) && s.m.ctrl.inbox <= Apply(c, s, a).m.ctrl.inbox
  {
    forall u
      ensures !At(Apply(c, s, a), u).ExRecv?
    {
      assert !At(s, u).ExRecv?;
    }
  }

  lemma UnreadAct(c: Config, s: State, a: Act)
    requires TransitionInv(s) && Unread(s) && Enabled(c, s, a) && SameSpell(s, Apply(c, s, a))
    ensures Unread(Apply(c, s, a)) && s.m.ctrl.inbox <= Apply(c, s, a).m.ctrl.inbox
  {
    if a.Go? {
      var p := At(s, a.t);
      assert HoldsState(p) ==> HolderPc(s) == p;
      assert !p.ExRecv?;
      LocalUnread(c, s.m, a.t, At(s, a.t), a.out, Exec(c, s.m, a.t, At(s, a.t), a.out));
      UnreadGo(s, a.t, Exec(c, s.m, a.t, At(s, a.t), a.out));
    } else {
      UnreadOther(c, s, a);
    }
  }

  /** The actions lead from `s` to `v` without a flip, or the end of the connection. */
  ghost predicate ActsWithin(c: Config, s: State, acts: seq<Act>, v: State)
    decreases |acts|
  {
    if acts == [] then v == s
    else
      Enabled(c, s, acts[0]) && SameSpell(s, Apply(c, s, acts[0])) && ActsWithin(c, Apply(c, s, acts[0]), acts[1..], v)
  }

  lemma {:induction false} UnreadRun(c: Config, s: State, acts: seq<Act>, v: State)
    requires TransitionInv(s) && Unread(s) && ActsWithin(c, s, acts, v)
    ensures s.m.ctrl.inbox <= v.m.ctrl.inbox
    decreases |acts|
  {
    if acts != [] {
      TransitionStep(c, s, acts[0]);
      UnreadAct(c, s, acts[0]);
      UnreadRun(c, Apply(c, s, acts[0]), acts[1..], v);
    }
  }

  /** In a session nothing is taken from the control connection, unless by a thread that saw the fallback before it. */
  lemma SessionLeavesControl(c: Config, start: State, before: seq<Act>, s: State, acts: seq<Act>, v: State)
    requires Starting(c, start) && s in Run(c, start, before)
    requires !s.m.fallback && (forall u :: !At(s, u).ExRecv?) && ActsWithin(c, s, acts, v)
    ensures s.m.ctrl.inbox <= v.m.ctrl.inbox
  {
    TransitionStart(c, start);
    TransitionRun(c, start, before);
    UnreadRun(c, s, acts, v);
  }

  // ---------- a failed send ----------

  /** A send on the socket in place has failed. */
  predicate Broken(m: Shared) {
    m.fd.Gen? && m.fd.g in m.net.broken
  }

  predicate Fails(s: State, v: State) {
    v.m.fd == s.m.fd && Broken(v.m) && !Broken(s.m)
  }

  /** Since the last flip a send has failed. */
  function FailedSince(ss: seq<State>, i: nat): bool
    requires i < |ss|
  {
    i > 0 && SameSpell(ss[i - 1], ss[i]) && (FailedSince(ss, i - 1) || Fails(ss[i - 1], ss[i]))
  }

  /** On the way to the flip into fallback. */
  predicate OnTheWay(p: Pc) {
    || (p.InUnlock? && !p.ok) || (p.FdUnlock? && !p.ok)
    || p.EnLock? || p.EnTest?
  }

  ghost predicate SomeoneOnTheWay(s: State) {
    exists u :: OnTheWay(At(s, u))
  }

  predicate FailLocal(m: Shared, p: Pc, r: Local) {
    && (r.m.fd == m.fd && Broken(r.m) && !Broken(m) ==> OnTheWay(r.p))
    && (OnTheWay(p) ==> OnTheWay(r.p) || m.fallback || r.m.fallback)
    && (m.fallback && !r.m.fallback ==> r.m.h.flips != m.h.flips)
  }

  lemma FailInput(m: Shared, t: Tid, p: Pc, out: Outcome)
    requires InInput(p)
    ensures FailLocal(m, p, ExecInput(m, t, p, out))
  {
  }

  lemma FailFds(m: Shared, t: Tid, p: Pc, out: Outcome)
    requires InFds(p)
    ensures FailLocal(m, p, ExecFds(m, t, p, out))
  {
  }

  lemma FailMark(c: Config, m: Shared, t: Tid, p: Pc)
    requires InMark(p)
    ensures FailLocal(m, p, ExecMark(c, m, t, p))
  {
  }

  lemma FailEnter(c: Config, m: Shared, t: Tid, p: Pc, out: Outcome)
    requires InEnter(p)
    ensures FailLocal(m, p, ExecEnter(c, m, t, p, out))
  {
  }

  lemma FailExit(c: Config, m: Shared, t: Tid, p: Pc, out: Outcome)
    requires InExit(p)
    ensures FailLocal(m, p, ExecExit(c, m, t, p, out))
  {
    if p.ExTest? && m.fallback {
      assert |ExecExit(c, m, t, p, out).m.h.flips| > |m.h.flips|;
    }
  }

  lemma FailStart(m: Shared, p: Pc, out: Outcome)
    requires InStart(p)
    ensures FailLocal(m, p, ExecStart(m, p, out))
  {
  }

  lemma FailStop(m: Shared, t: Tid, p: Pc)
    requires InStop(p)
    ensures FailLocal(m, p, ExecStop(m, t, p))
  {
  }

  lemma LocalFail(c: Config, m: Shared, t: Tid, p: Pc, out: Outcome, r: Local)
    requires p != Idle && p != Dead && r == Exec(c, m, t, p, out)
    ensures FailLocal(m, p, r)
  {
    if InInput(p) {
      FailInput(m, t, p, out);
    } else if InFds(p) {
      FailFds(m, t, p, out);
    } else if InMark(p) {
      FailMark(c, m, t, p);
    } else if InEnter(p) {
      FailEnter(c, m, t, p, out);
      EnterIs(c, m, t, p, out);
    } else if InExit(p) {
      FailExit(c, m, t, p, out);
      ExitIs(c, m, t, p, out);
    } else if InStart(p) {
      FailStart(m, p, out);
    } else {
      FailStop(m, t, p);
      StopIs(c, m, t, p, out);
    }
  }

  /** A failure in a session has a thread that will flip, until some thread has. */
  ghost predicate FailInv(s: State, failed: bool) {
    !s.m.fallback && failed ==> SomeoneOnTheWay(s)
  }

  lemma FailGo(s: State, t: Tid, failed: bool, r: Local)
    requires FailInv(s, failed) && At(s, t) != Dead && FailLocal(s.m, At(s, t), r)
    requires s.m.ev.created == r.m.ev.created || Ev(s.m.ev.created) !in s.pc
    requires SameSpell(s, After(s, t, r))
    ensures FailInv(After(s, t, r), failed || Fails(s, After(s, t, r)))
  {
    var v := After(s, t, r);
    if !r.m.fallback && failed && !s.m.fallback {
      var u :| OnTheWay(At(s, u));
      assert OnTheWay(At(v, u));
    } else if !r.m.fallback && Fails(s, v) {
      assert OnTheWay(At(v, t));
    }
  }

  lemma FailOther(c: Config, s: State, a: Act, failed: bool)
    requires FailInv(s, failed) && Enabled(c, s, a) && !a.Go?
    ensures FailInv(Apply(c, s, a), failed) && !Fails(s, Apply(c, s, a))
  {
    if !s.m.fallback && failed {
      var u :| OnTheWay(At(s, u));
      assert OnTheWay(At(Apply(c, s, a), u));
    }
  }

  lemma FailEvent(c: Config, s: State, e: Event, failed: bool)
    requires LifeInv(s) && FailInv(s, failed) && Possible(c, s, e) && SameSpell(s, Becomes(c, s, e))
    ensures FailInv(Becomes(c, s, e), failed || Fails(s, Becomes(c, s, e)))
  {
    match e
    case Step(a) =>
      if a.Go? {
        var r := Exec(c, s.m, a.t, At(s, a.t), a.out);
        LocalLocks(c, s.m, a.t, At(s, a.t), a.out);
        LocalFail(c, s.m, a.t, At(s, a.t), a.out, r);
        FailGo(s, a.t, failed, r);
      } else {
        FailOther(c, s, a, failed);
      }
    case Connect =>
    case NativeStart => StartFails(c, s, failed);
  }

  lemma StartFails(c: Config, s: State, failed: bool)
    requires FailInv(s, failed) && Possible(c, s, NativeStart)
    ensures FailInv(Becomes(c, s, NativeStart), failed) && !Fails(s, Becomes(c, s, NativeStart))
  {
    if !s.m.fallback && failed {
      var u :| OnTheWay(At(s, u));
      assert OnTheWay(At(Becomes(c, s, NativeStart), u));
    }
  }

  lemma {:induction false} FailRun(c: Config, ext: set<Tid>, es: seq<Event>, i: nat)
    requires SourceRoles(c) && Natives(ext) && i < |Life(c, Created(c, ext), es)|
    ensures var ss := Life(c, Created(c, ext), es); FailInv(ss[i], FailedSince(ss, i))
  {
    var s := Created(c, ext);
    if i > 0 {
      var ss := Life(c, s, es);
      FailRun(c, ext, es, i - 1);
      LifeHolds(c, ext, es, i - 1);
      var e := LifeNext(c, s, es, i - 1);
      if SameSpell(ss[i - 1], ss[i]) {
        FailEvent(c, ss[i - 1], e, FailedSince(ss, i - 1));
      }
    }
  }

  /**
   A session in which a send on its socket has failed does not last: some thread is on its way into enter_fallback, and
   stays there until the flip; once no call is under way the session is over.
   */
  lemma FailedSendEnds(c: Config, ext: set<Tid>, es: seq<Event>, i: nat)
    requires SourceRoles(c) && Natives(ext) && i < |Life(c, Created(c, ext), es)|
    ensures var ss := Life(c, Created(c, ext), es);
            FailedSince(ss, i) ==> ss[i].m.fallback || exists u :: OnTheWay(At(ss[i], u))
    ensures var ss := Life(c, Created(c, ext), es);
            FailedSince(ss, i) && (forall u :: Outside(At(ss[i], u))) ==> ss[i].m.fallback
  {
    FailRun(c, ext, es, i);
  }

  // ---------- closed sockets ----------

  /** The socket in place is not one of those closed. */
  predicate Above(m: Shared) {
    m.fd.Gen? ==> m.fd.g >= |m.h.torn|
  }

  /** A step keeps that, and adds nothing to a closed socket's stream. */
  ghost predicate FrozenStep(m: Shared, r: Local) {
    Above(m) ==> Above(r.m) && forall g: nat | g < |m.h.torn| :: Stream(r.m.net, g) == Stream(m.net, g)
  }

  lemma FrozenInput(m: Shared, t: Tid, p: Pc, out: Outcome)
    requires InInput(p)
    ensures FrozenStep(m, ExecInput(m, t, p, out))
  {
  }

  lemma FrozenFds(m: Shared, t: Tid, p: Pc, out: Outcome)
    requires InFds(p)
    ensures FrozenStep(m, ExecFds(m, t, p, out))
  {
  }

  lemma FrozenMark(c: Config, m: Shared, t: Tid, p: Pc)
    requires InMark(p)
    ensures FrozenStep(m, ExecMark(c, m, t, p))
  {
  }

  lemma FrozenEnter(c: Config, m: Shared, t: Tid, p: Pc, out: Outcome)
    requires InEnter(p) && (p.EnOpen? ==> Counts(m, p))
    ensures FrozenStep(m, ExecEnter(c, m, t, p, out))
  {
  }

  lemma FrozenExit(c: Config, m: Shared, t: Tid, p: Pc, out: Outcome)
    requires InExit(p)
    ensures FrozenStep(m, ExecExit(c, m, t, p, out))
  {
  }

  lemma FrozenStart(m: Shared, p: Pc, out: Outcome)
    requires InStart(p)
    ensures FrozenStep(m, ExecStart(m, p, out))
  {
  }

  lemma FrozenStop(m: Shared, t: Tid, p: Pc)
    requires InStop(p)
    ensures FrozenStep(m, ExecStop(m, t, p))
  {
  }

  lemma LocalFrozen(c: Config, m: Shared, t: Tid, p: Pc, out: Outcome, r: Local)
    requires p != Idle && p != Dead && (p.EnOpen? ==> Counts(m, p)) && r == Exec(c, m, t, p, out)
    ensures FrozenStep(m, r)
  {
    if InInput(p) {
      FrozenInput(m, t, p, out);
    } else if InFds(p) {
      FrozenFds(m, t, p, out);
    } else if InMark(p) {
      FrozenMark(c, m, t, p);
    } else if InEnter(p) {
      FrozenEnter(c, m, t, p, out);
      EnterIs(c, m, t, p, out);
    } else if InExit(p) {
      FrozenExit(c, m, t, p, out);
      ExitIs(c, m, t, p, out);
    } else if InStart(p) {
      FrozenStart(m, p, out);
      StartIs(c, m, t, p, out);
    } else {
      FrozenStop(m, t, p);
      StopIs(c, m, t, p, out);
    }
  }

  lemma FrozenAct(c: Config, s: State, a: Act, g: nat)
    requires TransitionInv(s) && Above(s.m) && Enabled(c, s, a)
    ensures Above(Apply(c, s, a).m)
    ensures g < |s.m.h.torn| ==> Stream(Apply(c, s, a).m.net, g) == Stream(s.m.net, g)
  {
    if a.Go? {
      assert At(s, a.t).EnOpen? ==> HolderPc(s) == At(s, a.t);
      LocalFrozen(c, s.m, a.t, At(s, a.t), a.out, Exec(c, s.m, a.t, At(s, a.t), a.out));
    }
  }

  lemma {:induction false} FrozenRun(c: Config, s: State, acts: seq<Act>)
    requires TransitionInv(s) && Above(s.m)
    ensures forall v | v in Run(c, s, acts) :: TransitionInv(v) && Above(v.m)
    decreases |acts|
  {
    if acts != [] && Enabled(c, s, acts[0]) {
      TransitionStep(c, s, acts[0]);
      FrozenAct(c, s, acts[0], 0);
      FrozenRun(c, Apply(c, s, acts[0]), acts[1..]);
    }
  }

  /** Once the endpoints of a generation have been closed no thread adds anything to its stream. */
  lemma ClosedIsFrozen(c: Config, start: State, acts: seq<Act>, s: State, a: Act, g: nat)
    requires Starting(c, start) && s in Run(c, start, acts) && Enabled(c, s, a)
    requires g in s.m.h.torn
    ensures Stream(Apply(c, s, a).m.net, g) == Stream(s.m.net, g)
  {
    TransitionStart(c, start);
    FrozenRun(c, start, acts);
    FrozenAct(c, s, a, g);
  }
}
