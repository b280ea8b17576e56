/**
 A fallback stops the event thread: once its callback has been made, event_running is set only if the render thread
 sets it again, in an exit callback that the fallback has overtaken.
 */
module EventStop {
  import opened Sessions
  import opened Teardown
  import opened Transitions
  import opened Lifecycle
  import opened Instances
  import Progress

  /** No flip, and no connection begun or ended, between the two. */
  predicate SameSpell(s: State, v: State) {
    v.m.h.flips == s.m.h.flips && v.m.connected == s.m.connected
  }

  /** The render thread's start_event_thread has just set event_running. */
  predicate Sets(s: State, v: State) {
    At(s, RENDER).StSet? && !At(v, RENDER).StSet?
  }

  /** Since the last flip start_event_thread has set event_running. */
  function SetSince(ss: seq<State>, i: nat): bool
    requires i < |ss|
  {
    i > 0 && SameSpell(ss[i - 1], ss[i]) && (SetSince(ss, i - 1) || Sets(ss[i - 1], ss[i]))
  }

  /** Some thread has won the flip into fallback and not made its callback yet. */
  ghost predicate CallbackOwed(s: State) {
    exists u :: OwesFallbackCall(At(s, u))
  }

  ghost predicate StopInv(s: State, again: bool) {
    LifeInv(s) && (s.m.connected && s.m.fallback && s.m.ev.running ==> again || CallbackOwed(s))
  }

  // ---------- one step ----------

  /** Of one step: who sets event_running, who clears it, and who flips. */
  predicate StopLocal(m: Shared, p: Pc, r: Local) {
    && (r.m.ev.running && !m.ev.running ==> p.StSet?)
    && (p.StSet? ==> !r.p.StSet?)
    && (OwesFallbackCall(p) && !OwesFallbackCall(r.p) ==> !r.m.ev.running)
    && (r.m.fallback && !m.fallback ==> OwesFallbackCall(r.p))
    && (r.m.fallback && m.fallback ==> r.m.h.flips == m.h.flips)
    && (m.fallback && !r.m.fallback ==> p.ExTest? && r.m.h.flips != m.h.flips)
    && (r.m.connected == m.connected || (p.DcDisconnect? && !r.m.connected))
  }

  lemma StopInput(m: Shared, t: Tid, p: Pc, out: Outcome)
    requires InInput(p)
    ensures StopLocal(m, p, ExecInput(m, t, p, out))
  {
  }

  lemma StopFds(m: Shared, t: Tid, p: Pc, out: Outcome)
    requires InFds(p)
    ensures StopLocal(m, p, ExecFds(m, t, p, out))
  {
  }

  lemma StopMark(c: Config, m: Shared, t: Tid, p: Pc)
    requires InMark(p)
    ensures StopLocal(m, p, ExecMark(c, m, t, p))
  {
  }

  lemma StopTaking(c: Config, m: Shared, t: Tid, p: Pc, out: Outcome)
    requires p.EnLock? || p.EnTest? || p.EnLost? || p.EnFree? || p.EnData?
    ensures StopLocal(m, p, ExecEnter(c, m, t, p, out))
  {
  }

  lemma StopSwapping(c: Config, m: Shared, t: Tid, p: Pc, out: Outcome)
    requires p.EnClose? || p.EnOpen? || p.EnUnData? || p.EnUnState? || p.EnCall?
    ensures StopLocal(m, p, ExecEnter(c, m, t, p, out))
  {
  }

  lemma StopExit(c: Config, m: Shared, t: Tid, p: Pc, out: Outcome)
    requires InExit(p)
    ensures StopLocal(m, p, ExecExit(c, m, t, p, out))
  {
    if p.ExTest? && m.fallback {
      assert |ExecExit(c, m, t, p, out).m.h.flips| > |m.h.flips|;
    }
  }

  lemma StopStart(m: Shared, p: Pc, out: Outcome)
    requires InStart(p)
    ensures StopLocal(m, p, ExecStart(m, p, out))
  {
  }

  lemma StopStops(m: Shared, t: Tid, p: Pc)
    requires InStop(p)
    ensures StopLocal(m, p, ExecStop(m, t, p))
  {
  }

  lemma StopEnter(c: Config, m: Shared, t: Tid, p: Pc, out: Outcome)
    requires InEnter(p)
    ensures StopLocal(m, p, ExecEnter(c, m, t, p, out))
  {
    if p.EnLock? || p.EnTest? || p.EnLost? || p.EnFree? || p.EnData? {
      StopTaking(c, m, t, p, out);
    } else {
      StopSwapping(c, m, t, p, out);
    }
  }

  lemma LocalStop(c: Config, m: Shared, t: Tid, p: Pc, out: Outcome, r: Local)
    requires p != Idle && p != Dead && r == Exec(c, m, t, p, out)
    ensures StopLocal(m, p, r)
  {
    if InInput(p) {
      StopInput(m, t, p, out);
    } else if InFds(p) {
      StopFds(m, t, p, out);
    } else if InMark(p) {
      StopMark(c, m, t, p);
    } else if InEnter(p) {
      StopEnter(c, m, t, p, out);
      EnterIs(c, m, t, p, out);
    } else if InExit(p) {
      StopExit(c, m, t, p, out);
      ExitIs(c, m, t, p, out);
    } else if InStart(p) {
      StopStart(m, p, out);
      StartIs(c, m, t, p, out);
    } else {
      StopStops(m, t, p);
      StopIs(c, m, t, p, out);
    }
  }

  lemma OwedLifts(s: State, t: Tid, r: Local)
    requires Numbered(s) && s.m.ev.created <= r.m.ev.created && t in s.pc && StopLocal(s.m, At(s, t), r)
    requires CallbackOwed(s) && r.m.ev.running
    ensures CallbackOwed(After(s, t, r))
  {
    var u :| OwesFallbackCall(At(s, u));
    assert OwesFallbackCall(At(After(s, t, r), u));
  }

  lemma StopGo(c: Config, s: State, t: Tid, out: Outcome, again: bool, r: Local)
    requires StopInv(s, again) && Enabled(c, s, Go(t, out)) && r == Exec(c, s.m, t, At(s, t), out)
    ensures var v := After(s, t, r);
            v.m.connected && v.m.fallback && v.m.ev.running ==>
              (SameSpell(s, v) && (again || Sets(s, v))) || CallbackOwed(v)
  {
    var v, p := After(s, t, r), At(s, t);
    LocalStop(c, s.m, t, p, out, r);
    LocalLocks(c, s.m, t, p, out);
    if v.m.connected && v.m.fallback && v.m.ev.running {
      if !s.m.fallback {
        assert OwesFallbackCall(At(v, t));
      } else if !s.m.ev.running {
        assert RoleOk(t, p);
      } else if CallbackOwed(s) {
        OwedLifts(s, t, r);
      }
    }
  }

  lemma OwedStays(c: Config, s: State, a: Act)
    requires Enabled(c, s, a) && !a.Go? && CallbackOwed(s)
    ensures CallbackOwed(Apply(c, s, a))
  {
    var u :| OwesFallbackCall(At(s, u));
    assert At(Apply(c, s, a), u) == At(s, u);
  }

  lemma StopEvent(c: Config, s: State, e: Event, again: bool)
    requires SourceRoles(c) && StopInv(s, again) && Possible(c, s, e)
    ensures var v := Becomes(c, s, e); StopInv(v, SameSpell(s, v) && (again || Sets(s, v)))
  {
    EventLife(c, s, e);
    match e
    case Step(a) =>
      if a.Go? {
        StopGo(c, s, a.t, a.out, again, Exec(c, s.m, a.t, At(s, a.t), a.out));
      } else if CallbackOwed(s) {
        OwedStays(c, s, a);
      }
    case Connect =>
    case NativeStart =>
  }

  // ---------- whole lives ----------

  /** Each state but the first comes from the one before it. */
  lemma {:induction false} LifeNext(c: Config, s: State, es: seq<Event>, i: nat) returns (e: Event)
    requires i + 1 < |Life(c, s, es)|
    ensures Possible(c, Life(c, s, es)[i], e) && Life(c, s, es)[i + 1] == Becomes(c, Life(c, s, es)[i], e)
    decreases |es|
  {
    if i == 0 {
      e := es[0];
    } else {
      e := LifeNext(c, Becomes(c, s, es[0]), es[1..], i - 1);
    }
  }

  lemma LifeFirst(c: Config, s: State, es: seq<Event>)
    ensures Life(c, s, es) != [] && Life(c, s, es)[0] == s
  {
  }

  lemma LifeHolds(c: Config, ext: set<Tid>, es: seq<Event>, i: nat)
    requires SourceRoles(c) && Natives(ext) && i < |Life(c, Created(c, ext), es)|
    ensures LifeInv(Life(c, Created(c, ext), es)[i])
  {
    CreatedLife(c, ext);
    LifeKept(c, Created(c, ext), es);
  }

  lemma {:induction false} StopRun(c: Config, ext: set<Tid>, es: seq<Event>, i: nat)
    requires SourceRoles(c) && Natives(ext) && i < |Life(c, Created(c, ext), es)|
    ensures var ss := Life(c, Created(c, ext), es); StopInv(ss[i], SetSince(ss, i))
  {
    var s := Created(c, ext);
    if i == 0 {
      LifeFirst(c, s, es);
      CreatedLife(c, ext);
    } else {
      var ss := Life(c, s, es);
      StopRun(c, ext, es, i - 1);
      var e := LifeNext(c, s, es, i - 1);
      StopEvent(c, ss[i - 1], e, SetSince(ss, i - 1));
    }
  }

  /**
   In fallback, once every fallback callback has been made, event_running is clear unless the render thread has set it
   again since this fallback began.
   */
  lemma FallbackStopsEvents(c: Config, ext: set<Tid>, es: seq<Event>, i: nat)
    requires SourceRoles(c) && Natives(ext) && i < |Life(c, Created(c, ext), es)|
    ensures var ss := Life(c, Created(c, ext), es);
            ss[i].m.connected && ss[i].m.fallback && !CallbackOwed(ss[i]) && !SetSince(ss, i) ==> !ss[i].m.ev.running
  {
    StopRun(c, ext, es, i);
  }

  // ---------- who can set it again ----------

  /** Past the flip out of fallback, in the same call, and event_running not set yet. */
  predicate MaySet(p: Pc) {
    || (p.ExUnlock? && p.won) || p.ExBufs? || p.ExInfos? || p.ExCall?
    || (InInput(p) && p.starting)
    || (InEnter(p) && (p.ret.RCall? || p.ret.RStart?))
    || p.StCheck? || p.StJoin? || p.StSet?
  }

  predicate Stopped(s: State) {
    s.m.connected && s.m.fallback && !s.m.ev.running
  }

  /** In fallback no step but the next flip brings a thread there. */
  predicate NoWayBack(m: Shared, p: Pc, r: Local) {
    m.fallback && !MaySet(p) && r.m.h.flips == m.h.flips ==> !MaySet(r.p)
  }

  lemma BackInput(m: Shared, t: Tid, p: Pc, out: Outcome)
    requires InInput(p)
    ensures NoWayBack(m, p, ExecInput(m, t, p, out))
  {
  }

  lemma BackFds(m: Shared, t: Tid, p: Pc, out: Outcome)
    requires InFds(p)
    ensures NoWayBack(m, p, ExecFds(m, t, p, out))
  {
  }

  lemma BackMark(c: Config, m: Shared, t: Tid, p: Pc)
    requires InMark(p)
    ensures NoWayBack(m, p, ExecMark(c, m, t, p))
  {
  }

  lemma BackEnter(c: Config, m: Shared, t: Tid, p: Pc, out: Outcome)
    requires InEnter(p)
    ensures NoWayBack(m, p, ExecEnter(c, m, t, p, out))
  {
  }

  lemma BackExit(c: Config, m: Shared, t: Tid, p: Pc, out: Outcome)
    requires InExit(p)
    ensures NoWayBack(m, p, ExecExit(c, m, t, p, out))
  {
    if p.ExTest? && m.fallback {
      assert |ExecExit(c, m, t, p, out).m.h.flips| > |m.h.flips|;
    }
  }

  lemma BackStart(m: Shared, p: Pc, out: Outcome)
    requires InStart(p)
    ensures NoWayBack(m, p, ExecStart(m, p, out))
  {
  }

  lemma BackStop(m: Shared, t: Tid, p: Pc)
    requires InStop(p)
    ensures NoWayBack(m, p, ExecStop(m, t, p))
  {
  }

  lemma LocalBack(c: Config, m: Shared, t: Tid, p: Pc, out: Outcome)
    requires p != Idle && p != Dead
    ensures NoWayBack(m, p, Exec(c, m, t, p, out))
  {
    if InInput(p) { BackInput(m, t, p, out); }
    else if InFds(p) { BackFds(m, t, p, out); }
    else if InMark(p) { BackMark(c, m, t, p); }
    else if InEnter(p) { BackEnter(c, m, t, p, out); }
    else if InExit(p) { BackExit(c, m, t, p, out); }
    else if InStart(p) { BackStart(m, p, out); }
    else { BackStop(m, t, p); }
  }

  lemma StoppedGo(c: Config, s: State, t: Tid, out: Outcome, r: Local)
    requires LifeInv(s) && Stopped(s) && !MaySet(At(s, RENDER))
    requires Enabled(c, s, Go(t, out)) && r == Exec(c, s.m, t, At(s, t), out)
    requires SameSpell(s, After(s, t, r))
    ensures Stopped(After(s, t, r)) && !MaySet(At(After(s, t, r), RENDER))
  {
    assert RoleOk(t, At(s, t));
    LocalStop(c, s.m, t, At(s, t), out, r);
    LocalBack(c, s.m, t, At(s, t), out);
    LocalLocks(c, s.m, t, At(s, t), out);
  }

  lemma StoppedOther(c: Config, s: State, a: Act)
    requires Stopped(s) && !MaySet(At(s, RENDER)) && Enabled(c, s, a) && !a.Go?
    ensures Stopped(Apply(c, s, a)) && !MaySet(At(Apply(c, s, a), RENDER))
  {
  }

  lemma StoppedEvent(c: Config, s: State, e: Event)
    requires SourceRoles(c) && LifeInv(s) && Stopped(s) && !MaySet(At(s, RENDER)) && Possible(c, s, e)
    requires SameSpell(s, Becomes(c, s, e))
    ensures Stopped(Becomes(c, s, e)) && !MaySet(At(Becomes(c, s, e), RENDER))
  {
    match e
    case Step(a) =>
      if a.Go? {
        StoppedGo(c, s, a.t, a.out, Exec(c, s.m, a.t, At(s, a.t), a.out));
      } else {
        StoppedOther(c, s, a);
      }
    case Connect =>
    case NativeStart =>
  }

  /** The events lead from `s` to `v` without a flip, and without a connection beginning or ending. */
  ghost predicate LeadsWithin(c: Config, s: State, es: seq<Event>, v: State)
    decreases |es|
  {
    if es == [] then v == s
    else
      Possible(c, s, es[0]) && SameSpell(s, Becomes(c, s, es[0]))
      && LeadsWithin(c, Becomes(c, s, es[0]), es[1..], v)
  }

  /** Within this fallback event_running can be set again. */
  ghost predicate SetAgain(c: Config, s: State) {
    exists es, v :: LeadsWithin(c, s, es, v) && v.m.ev.running
  }

  lemma {:induction false} StaysStopped(c: Config, s: State, es: seq<Event>, v: State)
    requires SourceRoles(c) && LifeInv(s) && Stopped(s) && !MaySet(At(s, RENDER)) && LeadsWithin(c, s, es, v)
    ensures Stopped(v)
    decreases |es|
  {
    if es != [] {
      EventLife(c, s, es[0]);
      StoppedEvent(c, s, es[0]);
      StaysStopped(c, Becomes(c, s, es[0]), es[1..], v);
    }
  }

  /** The render thread's own step, every syscall succeeding: one closer to setting it. */
  predicate OwnStep(m: Shared, r: Local) {
    && r.m.fallback && r.m.h.flips == m.h.flips && r.m.connected == m.connected
    && r.m.ev.created == m.ev.created && (r.m.ev.running || MaySet(r.p))
  }

  lemma OwnInput(m: Shared, p: Pc)
    requires InInput(p) && MaySet(p) && m.fallback && !m.ev.running
    ensures OwnStep(m, ExecInput(m, RENDER, p, Ok))
  {
  }

  lemma OwnEnter(c: Config, m: Shared, p: Pc)
    requires InEnter(p) && MaySet(p) && m.fallback && !m.ev.running
    ensures OwnStep(m, ExecEnter(c, m, RENDER, p, Ok))
  {
  }

  lemma OwnExit(c: Config, m: Shared, p: Pc)
    requires InExit(p) && MaySet(p) && m.fallback && !m.ev.running
    ensures OwnStep(m, ExecExit(c, m, RENDER, p, Ok))
  {
  }

  lemma OwnStart(m: Shared, p: Pc)
    requires InStart(p) && MaySet(p) && m.fallback && !m.ev.running
    ensures OwnStep(m, ExecStart(m, p, Ok))
  {
  }

  lemma LocalOwn(c: Config, m: Shared, p: Pc, r: Local)
    requires MaySet(p) && m.fallback && !m.ev.running && r == Exec(c, m, RENDER, p, Ok)
    ensures OwnStep(m, r)
  {
    if InInput(p) {
      OwnInput(m, p);
    } else if InEnter(p) {
      OwnEnter(c, m, p);
      EnterIs(c, m, RENDER, p, Ok);
    } else if InExit(p) {
      OwnExit(c, m, p);
      ExitIs(c, m, RENDER, p, Ok);
    } else {
      OwnStart(m, p);
      StartIs(c, m, RENDER, p, Ok);
    }
  }

  lemma AdvancesRender(c: Config, s: State)
    requires LifeInv(s) && Stopped(s) && MaySet(At(s, RENDER)) && !Waits(s, RENDER)
    ensures Enabled(c, s, Go(RENDER, Ok)) && var v := Apply(c, s, Go(RENDER, Ok));
            SameSpell(s, v) && v.m.fallback && (v.m.ev.running || MaySet(At(v, RENDER)))
  {
    LocalOwn(c, s.m, At(s, RENDER), Exec(c, s.m, RENDER, At(s, RENDER), Ok));
  }

  lemma AdvancesGo(c: Config, s: State, t: Tid, out: Outcome, r: Local)
    requires LifeInv(s) && Stopped(s) && MaySet(At(s, RENDER)) && t != RENDER
    requires Enabled(c, s, Go(t, out)) && r == Exec(c, s.m, t, At(s, t), out)
    ensures var v := After(s, t, r); SameSpell(s, v) && Stopped(v) && At(v, RENDER) == At(s, RENDER)
  {
    assert RoleOk(t, At(s, t)) && RoleOk(RENDER, At(s, RENDER));
    LocalStop(c, s.m, t, At(s, t), out, r);
    LocalLocks(c, s.m, t, At(s, t), out);
  }

  /** Any step of another thread leaves the render thread, the fallback and the connection as they are. */
  lemma AdvancesOther(c: Config, s: State, a: Act)
    requires LifeInv(s) && Stopped(s) && MaySet(At(s, RENDER))
    requires Progress.Inner(a) && a.t != RENDER && Enabled(c, s, a)
    ensures var v := Apply(c, s, a); SameSpell(s, v) && Stopped(v) && At(v, RENDER) == At(s, RENDER)
  {
    if a.Go? {
      AdvancesGo(c, s, a.t, a.out, Exec(c, s.m, a.t, At(s, a.t), a.out));
    }
  }

  lemma SomeStep(c: Config, s: State) returns (a: Act)
    requires SourceRoles(c) && LifeInv(s) && Stopped(s) && MaySet(At(s, RENDER))
    ensures Progress.Inner(a) && Enabled(c, s, a) && var v := Apply(c, s, a);
            SameSpell(s, v) && v.m.fallback && (v.m.ev.running || MaySet(At(v, RENDER)))
  {
    if !Waits(s, RENDER) {
      AdvancesRender(c, s);
      a := Go(RENDER, Ok);
    } else {
      BusyMoves(c, s, RENDER);
      if t :| Enabled(c, s, Go(t, Ok)) {
        a := Go(t, Ok);
      } else {
        var t :| Enabled(c, s, Finish(t));
        a := Finish(t);
      }
      AdvancesOther(c, s, a);
    }
  }

  lemma {:induction false} SetsAgain(c: Config, s: State) returns (es: seq<Event>, v: State)
    requires SourceRoles(c) && LifeInv(s) && Stopped(s) && MaySet(At(s, RENDER))
    ensures LeadsWithin(c, s, es, v) && v.m.ev.running
    decreases Progress.Work(s.pc)
  {
    var a := SomeStep(c, s);
    var u := Apply(c, s, a);
    LifeStep(c, s, a);
    Progress.LessWork(c, s, a);
    if u.m.ev.running {
      es, v := [Step(a)], u;
      assert LeadsWithin(c, u, [], u);
    } else {
      var rest;
      rest, v := SetsAgain(c, u);
      es := [Step(a)] + rest;
    }
  }

  /**
   In any reachable state in fallback with event_running clear, it can be set again before the next flip if and only if
   the render thread is still in its exit callback, or on the way to it, and has not set it yet.
   */
  lemma SetAgainIff(c: Config, ext: set<Tid>, es: seq<Event>, s: State)
    requires SourceRoles(c) && Natives(ext) && s in Life(c, Created(c, ext), es) && Stopped(s)
    ensures SetAgain(c, s) <==> MaySet(At(s, RENDER))
  {
    CreatedLife(c, ext);
    LifeKept(c, Created(c, ext), es);
    if MaySet(At(s, RENDER)) {
      var more, v := SetsAgain(c, s);
    } else {
      forall more, v | LeadsWithin(c, s, more, v)
        ensures !v.m.ev.running
      {
        StaysStopped(c, s, more, v);
      }
    }
  }
}
