/**
 What each step keeps of the event-thread handle, with the render thread as the only one that leaves fallback
 and one lifecycle thread (nativeStop, nativeStart or nativeDestroy).
 */
module Lifecycle {
  import opened Sessions
  import opened Teardown

  /** The roles of the source: only the render thread drives select_dmabuf. */
  predicate SourceRoles(c: Config) {
    c.exiters == {RENDER}
  }

  /** Inside try_exit_fallback or a call nested in it. */
  predicate Leaving(p: Pc) {
    || InExit(p) || InStart(p)
    || (InInput(p) && p.starting)
    || (InEnter(p) && (p.ret.RCall? || p.ret.RStart?))
  }

  predicate Disconnecting(p: Pc) {
    p.DcCheck? || p.DcStop? || p.DcJoin? || p.DcDisconnect?
  }

  predicate Joins(p: Pc) {
    p.StJoin? || p.DcJoin?
  }

  predicate RoleOk(t: Tid, p: Pc) {
    && (Leaving(p) || p.DcConnect? ==> t == RENDER)
    && (p.NsFlag? || p.NsJoin? ==> t == CONTROLLER)
    && (Disconnecting(p) ==> t == RENDER || t == CONTROLLER)
  }

  /** What a program counter means for the event-thread handle. */
  datatype Stage =
    Away | Reaping | Making | Checking | Stopping | StopJoining | Releasing | Connecting | Awaiting | Gone

  function StageOf(p: Pc): Stage {
    if p.StJoin? then Reaping
    else if p.StSet? || p.StCreate? then Making
    else if p.DcCheck? then Checking
    else if p.DcStop? then Stopping
    else if p.DcJoin? then StopJoining
    else if p.DcDisconnect? then Releasing
    else if p.DcConnect? then Connecting
    else if p.NsJoin? then Awaiting
    else if p.Dead? then Gone
    else Away
  }

  /** On the way to disconnect, with a context. */
  predicate Parting(g: Stage) {
    g.Stopping? || g.StopJoining? || g.Releasing?
  }

  predicate Ends(g: Stage) {
    g.Checking? || Parting(g)
  }

  /** The handle and flags, with the render thread at stage `rs` and the lifecycle thread at `cs`. */
  predicate HandleOk(ev: EventThread, running: bool, connected: bool, rs: Stage, cs: Stage) {
    && !rs.Awaiting? && !cs.Reaping? && !cs.Making? && !cs.Connecting?
    && ev.created == ev.joined + (if ev.joinable then 1 else 0)
    && (rs.Making? || rs.Releasing? || cs.Releasing? ==> !ev.joinable)
    && (rs.Reaping? || rs.StopJoining? || rs.Releasing? || cs.StopJoining? || cs.Releasing? ==> !ev.running)
    && (Ends(cs) ==> rs.Gone?)
    && (!running <==> cs.Awaiting? || rs.Gone?)
    && (!running && connected ==> cs.Awaiting? || Ends(cs))
    && (rs.Reaping? || rs.Making? || Parting(rs) || Parting(cs) ==> connected)
    && (rs.Connecting? ==> !connected)
    && (!connected ==> !ev.joinable && !ev.running)
  }

  /** An event thread that is not finished is the one behind the handle. */
  predicate LiveOk(m: Shared, k: nat, p: Pc) {
    p != Dead ==> m.ev.joinable && k + 1 == m.ev.created
  }

  ghost predicate LifeInv(s: State) {
    && Locks(s) && Numbered(s)
    && HandleOk(s.m.ev, s.m.running, s.m.connected, StageOf(At(s, RENDER)), StageOf(At(s, CONTROLLER)))
    && (forall u :: RoleOk(u, At(s, u)))
    && (forall k: nat :: LiveOk(s.m, k, At(s, Ev(k))))
    && (!s.m.connected ==> Outside(At(s, RENDER)))
  }

  predicate InCall(s: State, t: Tid) {
    At(s, t) != Idle && At(s, t) != Dead
  }

  // ---------- one step ----------

  /** Outside start and stop a step keeps its role, and changes the handle only by stop_event_thread. */
  predicate Elsewhere(m: Shared, t: Tid, r: Local) {
    && RoleOk(t, r.p) && StageOf(r.p) == Away && !InStop(r.p)
    && r.m.running == m.running && r.m.connected == m.connected
    && (r.m.ev == m.ev || r.m.ev == m.ev.(running := false))
  }

  lemma HandleInput(m: Shared, t: Tid, p: Pc, out: Outcome)
    requires InInput(p) && RoleOk(t, p)
    ensures Elsewhere(m, t, ExecInput(m, t, p, out))
  {
  }

  lemma HandleFds(m: Shared, t: Tid, p: Pc, out: Outcome)
    requires InFds(p) && RoleOk(t, p)
    ensures Elsewhere(m, t, ExecFds(m, t, p, out))
  {
  }

  lemma HandleMark(c: Config, m: Shared, t: Tid, p: Pc)
    requires InMark(p) && RoleOk(t, p)
    ensures Elsewhere(m, t, ExecMark(c, m, t, p))
  {
  }

  lemma HandleReturn(c: Config, m: Shared, t: Tid, p: Pc, out: Outcome)
    requires (p.EnLost? || p.EnCall?) && RoleOk(t, p)
    ensures Elsewhere(m, t, ExecEnter(c, m, t, p, out))
  {
  }

  lemma HandleTaking(c: Config, m: Shared, t: Tid, p: Pc, out: Outcome)
    requires (p.EnLock? || p.EnTest? || p.EnFree? || p.EnData?) && RoleOk(t, p)
    ensures Elsewhere(m, t, ExecEnter(c, m, t, p, out))
  {
  }

  lemma HandleSwapping(c: Config, m: Shared, t: Tid, p: Pc, out: Outcome)
    requires (p.EnClose? || p.EnOpen? || p.EnUnData? || p.EnUnState?) && RoleOk(t, p)
    ensures Elsewhere(m, t, ExecEnter(c, m, t, p, out))
  {
  }

  lemma HandleEnter(c: Config, m: Shared, t: Tid, p: Pc, out: Outcome)
    requires InEnter(p) && RoleOk(t, p)
    ensures Elsewhere(m, t, ExecEnter(c, m, t, p, out))
  {
    if p.EnLost? || p.EnCall? {
      HandleReturn(c, m, t, p, out);
    } else if p.EnLock? || p.EnTest? || p.EnFree? || p.EnData? {
      HandleTaking(c, m, t, p, out);
    } else {
      HandleSwapping(c, m, t, p, out);
    }
  }

  lemma HandleExit(c: Config, m: Shared, t: Tid, p: Pc, out: Outcome)
    requires InExit(p) && RoleOk(t, p)
    ensures Elsewhere(m, t, ExecExit(c, m, t, p, out))
  {
  }

  /** A step as the handle sees it. */
  predicate LifeLocal(m: Shared, t: Tid, p: Pc, out: Outcome, r: Local) {
    if InStart(p) then r == ExecStart(m, p, out)
    else if InStop(p) then r == ExecStop(m, t, p)
    else Elsewhere(m, t, r)
  }

  lemma LocalElsewhere(c: Config, m: Shared, t: Tid, p: Pc, out: Outcome)
    requires p != Idle && p != Dead && RoleOk(t, p) && !InStart(p) && !InStop(p)
    ensures Elsewhere(m, t, Exec(c, m, t, p, out))
  {
    if InInput(p) { HandleInput(m, t, p, out); }
    else if InFds(p) { HandleFds(m, t, p, out); }
    else if InMark(p) { HandleMark(c, m, t, p); }
    else if InEnter(p) { HandleEnter(c, m, t, p, out); }
    else { HandleExit(c, m, t, p, out); }
  }

  lemma StartIs(c: Config, m: Shared, t: Tid, p: Pc, out: Outcome)
    requires InStart(p)
    ensures Exec(c, m, t, p, out) == ExecStart(m, p, out)
  {
  }

  lemma StopIs(c: Config, m: Shared, t: Tid, p: Pc, out: Outcome)
    requires InStop(p)
    ensures Exec(c, m, t, p, out) == ExecStop(m, t, p)
  {
  }

  lemma LocalLife(c: Config, m: Shared, t: Tid, p: Pc, out: Outcome, r: Local)
    requires p != Idle && p != Dead && RoleOk(t, p) && r == Exec(c, m, t, p, out)
    ensures LifeLocal(m, t, p, out, r)
  {
    if InStart(p) {
      StartIs(c, m, t, p, out);
    } else if InStop(p) {
      StopIs(c, m, t, p, out);
    } else {
      LocalElsewhere(c, m, t, p, out);
    }
  }

  /** The same facts for one step of the thread at `mine`, the other of the two being at `rs` or `cs`. */
  lemma HandleElsewhere(m: Shared, t: Tid, p: Pc, rs: Stage, cs: Stage, r: Local)
    requires HandleOk(m.ev, m.running, m.connected, rs, cs) && m.connected && Elsewhere(m, t, r)
    requires (t == RENDER ==> rs == Away) && (t == CONTROLLER ==> cs == Away)
    ensures HandleOk(r.m.ev, r.m.running, r.m.connected, rs, cs)
  {
  }

  lemma HandleStart(m: Shared, p: Pc, cs: Stage, out: Outcome)
    requires HandleOk(m.ev, m.running, m.connected, StageOf(p), cs) && InStart(p) && m.connected
    ensures var r := ExecStart(m, p, out); HandleOk(r.m.ev, r.m.running, r.m.connected, StageOf(r.p), cs)
    ensures var r := ExecStart(m, p, out); RoleOk(RENDER, r.p)
  {
  }

  lemma RenderStops(m: Shared, p: Pc, cs: Stage)
    requires HandleOk(m.ev, m.running, m.connected, StageOf(p), cs) && (Disconnecting(p) || p.DcConnect?)
    ensures var r := ExecStop(m, RENDER, p); HandleOk(r.m.ev, r.m.running, r.m.connected, StageOf(r.p), cs)
    ensures var r := ExecStop(m, RENDER, p); RoleOk(RENDER, r.p)
  {
  }

  lemma ControllerStops(m: Shared, p: Pc, rs: Stage)
    requires HandleOk(m.ev, m.running, m.connected, rs, StageOf(p)) && InStop(p)
    requires p.NsJoin? ==> rs.Gone?
    ensures var r := ExecStop(m, CONTROLLER, p); HandleOk(r.m.ev, r.m.running, r.m.connected, rs, StageOf(r.p))
    ensures var r := ExecStop(m, CONTROLLER, p); RoleOk(CONTROLLER, r.p)
  {
  }

  // ---------- the threads behind the handle ----------

  /** A step creates a thread only when none is live, and forgets the handle only when its thread is finished. */
  predicate HandleKept(m: Shared, p: Pc, r: Local) {
    || (r.m.ev.joinable == m.ev.joinable && r.m.ev.created == m.ev.created)
    || (Joins(p) && !r.m.ev.joinable && r.m.ev.created == m.ev.created)
    || (p.StCreate? && r.m.ev.joinable && r.m.ev.created == m.ev.created + 1)
  }

  lemma KeptStart(m: Shared, p: Pc, out: Outcome)
    requires InStart(p)
    ensures HandleKept(m, p, ExecStart(m, p, out)) && ExecStart(m, p, out).p != Dead
  {
  }

  lemma KeptStop(m: Shared, t: Tid, p: Pc)
    requires InStop(p)
    ensures HandleKept(m, p, ExecStop(m, t, p)) && ExecStop(m, t, p).p != Dead
  {
  }

  lemma KeptLocal(m: Shared, t: Tid, p: Pc, out: Outcome, r: Local)
    requires LifeLocal(m, t, p, out, r)
    ensures HandleKept(m, p, r) && r.p != Dead
  {
    if InStart(p) { KeptStart(m, p, out); }
    else if InStop(p) { KeptStop(m, t, p); }
  }

  lemma LiftRoles(s: State, t: Tid, r: Local)
    requires (forall u :: RoleOk(u, At(s, u))) && RoleOk(t, r.p)
    ensures forall u :: RoleOk(u, At(After(s, t, r), u))
  {
    forall u
      ensures RoleOk(u, At(After(s, t, r), u))
    {
      assert RoleOk(u, At(s, u));
    }
  }

  lemma LiftLive(s: State, t: Tid, r: Local)
    requires LifeInv(s) && t in s.pc && At(s, t) != Dead && !Waits(s, t)
    requires s.m.ev.created <= r.m.ev.created && HandleKept(s.m, At(s, t), r)
    ensures forall k: nat :: LiveOk(r.m, k, At(After(s, t, r), Ev(k)))
  {
    var v := After(s, t, r);
    assert RoleOk(t, At(s, t));
    forall k: nat
      ensures LiveOk(r.m, k, At(v, Ev(k)))
    {
      assert LiveOk(s.m, k, At(s, Ev(k)));
    }
  }

  lemma HandleGo(m: Shared, t: Tid, p: Pc, out: Outcome, rs: Stage, cs: Stage, r: Local)
    requires HandleOk(m.ev, m.running, m.connected, rs, cs) && (m.connected || InStop(p)) && RoleOk(t, p)
    requires (t == RENDER ==> rs == StageOf(p)) && (t == CONTROLLER ==> cs == StageOf(p))
    requires LifeLocal(m, t, p, out, r) && p != Dead && (p.NsJoin? ==> rs.Gone?)
    ensures HandleOk(r.m.ev, r.m.running, r.m.connected,
                     if t == RENDER then StageOf(r.p) else rs, if t == CONTROLLER then StageOf(r.p) else cs)
    ensures RoleOk(t, r.p)
  {
    if InStart(p) {
      HandleStart(m, p, cs, out);
    } else if InStop(p) {
      if t == RENDER {
        RenderStops(m, p, cs);
      } else {
        ControllerStops(m, p, rs);
      }
    } else {
      HandleElsewhere(m, t, p, rs, cs, r);
    }
  }

  lemma LiftHandle(s: State, t: Tid, r: Local)
    requires Numbered(s) && t in s.pc && s.m.ev.created <= r.m.ev.created
    requires HandleOk(r.m.ev, r.m.running, r.m.connected,
                      if t == RENDER then StageOf(r.p) else StageOf(At(s, RENDER)),
                      if t == CONTROLLER then StageOf(r.p) else StageOf(At(s, CONTROLLER)))
    ensures var v := After(s, t, r);
            HandleOk(v.m.ev, v.m.running, v.m.connected, StageOf(At(v, RENDER)), StageOf(At(v, CONTROLLER)))
  {
  }

  lemma GoHandle(c: Config, s: State, t: Tid, out: Outcome, r: Local)
    requires LifeInv(s) && Enabled(c, s, Go(t, out)) && r == Exec(c, s.m, t, At(s, t), out)
    requires LifeLocal(s.m, t, At(s, t), out, r) && s.m.ev.created <= r.m.ev.created
    ensures var v := After(s, t, r);
            HandleOk(v.m.ev, v.m.running, v.m.connected, StageOf(At(v, RENDER)), StageOf(At(v, CONTROLLER)))
    ensures RoleOk(t, r.p)
  {
    assert RoleOk(t, At(s, t));
    HandleGo(s.m, t, At(s, t), out, StageOf(At(s, RENDER)), StageOf(At(s, CONTROLLER)), r);
    LiftHandle(s, t, r);
  }

  /** Without a context only lifecycle steps are made, and they stay there or end. */
  lemma StopOutside(m: Shared, t: Tid, p: Pc)
    requires InStop(p)
    ensures var r := ExecStop(m, t, p);
            && Outside(r.p) && (r.m.connected ==> m.connected)
            && (m.connected && !r.m.connected ==> p.DcDisconnect? && (t == RENDER ==> InStop(r.p)))
  {
  }

  lemma GoOutside(c: Config, s: State, t: Tid, out: Outcome, r: Local)
    requires LifeInv(s) && Enabled(c, s, Go(t, out)) && LifeLocal(s.m, t, At(s, t), out, r)
    requires s.m.ev.created <= r.m.ev.created
    ensures !r.m.connected ==> Outside(At(After(s, t, r), RENDER))
  {
    var p := At(s, t);
    assert RoleOk(t, p);
    if InStop(p) {
      StopOutside(s.m, t, p);
      LiftOutside(s, t, r);
    }
  }

  lemma LifeGo(c: Config, s: State, t: Tid, out: Outcome, r: Local)
    requires LifeInv(s) && Enabled(c, s, Go(t, out)) && r == Exec(c, s.m, t, At(s, t), out)
    ensures LifeInv(After(s, t, r))
  {
    var p := At(s, t);
    assert RoleOk(t, p);
    LocalLocks(c, s.m, t, p, out);
    LiftLocks(s, t, r);
    LocalLife(c, s.m, t, p, out, r);
    KeptLocal(s.m, t, p, out, r);
    GoHandle(c, s, t, out, r);
    LiftRoles(s, t, r);
    LiftLive(s, t, r);
    GoOutside(c, s, t, out, r);
  }

  lemma LiftOutside(s: State, t: Tid, r: Local)
    requires (!s.m.connected ==> Outside(At(s, RENDER))) && At(s, t) != Dead && Outside(r.p)
    requires s.m.connected && !r.m.connected ==> t == RENDER || At(s, RENDER) == Dead
    requires r.m.connected ==> s.m.connected
    ensures !r.m.connected ==> Outside(At(After(s, t, r), RENDER))
  {
  }

  lemma BeginRole(c: Config, s: State, t: Tid, call: Call)
    requires SourceRoles(c) && Enabled(c, s, Begin(t, call))
    ensures RoleOk(t, Entry(call)) && Entry(call) != Dead && At(s, t) == Idle
    ensures StageOf(Entry(call)) == Away || (t == RENDER && StageOf(Entry(call)) == Checking)
  {
  }

  /** A thread starting a call, or leaving its loop when told to. */
  lemma OtherRole(c: Config, s: State, a: Act, v: State, u: Tid)
    requires SourceRoles(c) && Enabled(c, s, a) && !a.Go? && v == Apply(c, s, a)
    requires RoleOk(u, At(s, u))
    ensures RoleOk(u, At(v, u))
    ensures u.Ev? && At(s, u) == Dead ==> At(v, u) == Dead
    ensures StageOf(At(v, u)) == StageOf(At(s, u))
            || (StageOf(At(s, u)) == Away
                && (StageOf(At(v, u)) == Gone || (u == RENDER && StageOf(At(v, u)) == Checking)))
    ensures u == RENDER && StageOf(At(v, u)) == Gone && At(s, u) != Dead ==> !s.m.running
    ensures u == CONTROLLER ==> StageOf(At(v, u)) == StageOf(At(s, u))
  {
    if a.Begin? {
      BeginRole(c, s, a.t, a.call);
      assert u != a.t ==> At(v, u) == At(s, u);
    }
  }

  lemma LifeOther(c: Config, s: State, a: Act, v: State)
    requires SourceRoles(c)
    requires LifeInv(s) && Enabled(c, s, a) && !a.Go? && v == Apply(c, s, a)
    ensures HandleOk(v.m.ev, v.m.running, v.m.connected, StageOf(At(v, RENDER)), StageOf(At(v, CONTROLLER)))
    ensures forall u :: RoleOk(u, At(v, u))
    ensures forall k: nat :: LiveOk(v.m, k, At(v, Ev(k)))
    ensures !v.m.connected ==> Outside(At(v, RENDER))
  {
    assert v.m.ev == s.m.ev && v.m.running == s.m.running && v.m.connected == s.m.connected;
    forall u
      ensures RoleOk(u, At(v, u))
    {
      assert RoleOk(u, At(s, u));
      OtherRole(c, s, a, v, u);
    }
    forall k: nat
      ensures LiveOk(v.m, k, At(v, Ev(k)))
    {
      assert LiveOk(s.m, k, At(s, Ev(k))) && RoleOk(Ev(k), At(s, Ev(k)));
      OtherRole(c, s, a, v, Ev(k));
    }
    assert RoleOk(RENDER, At(s, RENDER)) && RoleOk(CONTROLLER, At(s, CONTROLLER));
    OtherRole(c, s, a, v, RENDER);
    OtherRole(c, s, a, v, CONTROLLER);
    assert !v.m.connected ==> Outside(At(v, RENDER));
  }

  lemma LifeStep(c: Config, s: State, a: Act)
    requires SourceRoles(c) && LifeInv(s) && Enabled(c, s, a)
    ensures LifeInv(Apply(c, s, a))
  {
    if a.Go? {
      LifeGo(c, s, a.t, a.out, Exec(c, s.m, a.t, At(s, a.t), a.out));
    } else {
      LocksStep(c, s, a);
      LifeOther(c, s, a, Apply(c, s, a));
    }
  }
}
