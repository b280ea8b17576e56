/** A session has its event thread, unless the exit callback could not start it or a late fallback callback stops it. */
module SessionEvents {
  import opened Sessions
  import opened Teardown
  import opened Transitions
  import opened Lifecycle
  import opened Instances
  import opened EventStop

  /** Past the flip out of fallback, in the same call. */
  predicate InCallback(p: Pc) {
    MaySet(p) || p.StCreate?
  }

  /** Told to stop, on the way to disconnect. */
  predicate Ending(s: State) {
    Parting(StageOf(At(s, RENDER))) || Parting(StageOf(At(s, CONTROLLER)))
  }

  /** A callback of a fallback is made. */
  ghost predicate CallsBack(s: State, v: State) {
    exists u :: OwesFallbackCall(At(s, u)) && !OwesFallbackCall(At(v, u))
  }

  /** The exit callback ends without an event thread: it could not attach to the VM, or make the thread. */
  predicate GivesUp(s: State, v: State) {
    (At(s, RENDER).StCheck? || At(s, RENDER).StCreate?) && At(v, RENDER).Idle? && !v.m.ev.running
  }

  /** One or the other since the last flip. */
  ghost function Spoiled(ss: seq<State>, i: nat): bool
    requires i < |ss|
  {
    i > 0 && SameSpell(ss[i - 1], ss[i])
    && (Spoiled(ss, i - 1) || CallsBack(ss[i - 1], ss[i]) || GivesUp(ss[i - 1], ss[i]))
  }

  ghost predicate Served(s: State, spoiled: bool) {
    s.m.connected && !s.m.fallback && !InCallback(At(s, RENDER)) && !Ending(s) ==> s.m.ev.running || spoiled
  }

  // ---------- one step ----------

  /** Of one step: who clears event_running, how the exit callback ends, and who flips. */
  predicate ServeLocal(m: Shared, p: Pc, r: Local) {
    && (m.ev.running && !r.m.ev.running ==>
          (OwesFallbackCall(p) && !OwesFallbackCall(r.p)) || (p.StCreate? && r.p.Idle?) || p.DcStop?)
    && (InCallback(p) && !InCallback(r.p) ==> (p.StCheck? || p.StCreate?) && r.p.Idle?)
    && (m.fallback && !r.m.fallback ==> p.ExTest? && InCallback(r.p))
    && (m.fallback == r.m.fallback ==> r.m.h.flips == m.h.flips)
    && (Parting(StageOf(p)) ==> Parting(StageOf(r.p)) || !r.m.connected)
    && (p.DcStop? ==> Parting(StageOf(r.p)))
    && (r.m.connected ==> m.connected)
  }

  lemma ServeInput(m: Shared, t: Tid, p: Pc, out: Outcome)
    requires InInput(p)
    ensures ServeLocal(m, p, ExecInput(m, t, p, out))
  {
  }

  lemma ServeFds(m: Shared, t: Tid, p: Pc, out: Outcome)
    requires InFds(p)
    ensures ServeLocal(m, p, ExecFds(m, t, p, out))
  {
  }

  lemma ServeMark(c: Config, m: Shared, t: Tid, p: Pc)
    requires InMark(p)
    ensures ServeLocal(m, p, ExecMark(c, m, t, p))
  {
  }

  lemma ServeTaking(c: Config, m: Shared, t: Tid, p: Pc, out: Outcome)
    requires p.EnLock? || p.EnTest? || p.EnLost? || p.EnFree? || p.EnData?
    ensures ServeLocal(m, p, ExecEnter(c, m, t, p, out))
  {
  }

  lemma ServeSwapping(c: Config, m: Shared, t: Tid, p: Pc, out: Outcome)
    requires p.EnClose? || p.EnOpen? || p.EnUnData? || p.EnUnState? || p.EnCall?
    ensures ServeLocal(m, p, ExecEnter(c, m, t, p, out))
  {
  }

  lemma ServeFlip(c: Config, m: Shared, t: Tid, p: Pc, out: Outcome)
    requires p.ExCheck? || p.ExRecv? || p.ExLock? || p.ExTest?
    ensures ServeLocal(m, p, ExecExit(c, m, t, p, out))
  {
  }

  lemma ServePush(c: Config, m: Shared, t: Tid, p: Pc, out: Outcome)
    requires p.ExUnlock? || p.ExBufs? || p.ExInfos? || p.ExCall?
    ensures ServeLocal(m, p, ExecExit(c, m, t, p, out))
  {
  }

  lemma ServeExit(c: Config, m: Shared, t: Tid, p: Pc, out: Outcome)
    requires InExit(p)
    ensures ServeLocal(m, p, ExecExit(c, m, t, p, out))
  {
    if p.ExCheck? || p.ExRecv? || p.ExLock? || p.ExTest? {
      ServeFlip(c, m, t, p, out);
    } else {
      ServePush(c, m, t, p, out);
    }
  }

  lemma ServeStart(m: Shared, p: Pc, out: Outcome)
    requires InStart(p)
    ensures ServeLocal(m, p, ExecStart(m, p, out))
  {
  }

  lemma ServeStop(m: Shared, t: Tid, p: Pc)
    requires InStop(p)
    ensures ServeLocal(m, p, ExecStop(m, t, p))
  {
  }

  lemma ServeEnter(c: Config, m: Shared, t: Tid, p: Pc, out: Outcome)
    requires InEnter(p)
    ensures ServeLocal(m, p, ExecEnter(c, m, t, p, out))
  {
    if p.EnLock? || p.EnTest? || p.EnLost? || p.EnFree? || p.EnData? {
      ServeTaking(c, m, t, p, out);
    } else {
      ServeSwapping(c, m, t, p, out);
    }
  }

  lemma LocalServe(c: Config, m: Shared, t: Tid, p: Pc, out: Outcome, r: Local)
    requires p != Idle && p != Dead && r == Exec(c, m, t, p, out)
    ensures ServeLocal(m, p, r)
  {
    if InInput(p) {
      ServeInput(m, t, p, out);
    } else if InFds(p) {
      ServeFds(m, t, p, out);
    } else if InMark(p) {
      ServeMark(c, m, t, p);
    } else if InEnter(p) {
      ServeEnter(c, m, t, p, out);
      EnterIs(c, m, t, p, out);
    } else if InExit(p) {
      ServeExit(c, m, t, p, out);
      ExitIs(c, m, t, p, out);
    } else if InStart(p) {
      ServeStart(m, p, out);
      StartIs(c, m, t, p, out);
    } else {
      ServeStop(m, t, p);
      StopIs(c, m, t, p, out);
    }
  }

  lemma ServeGo(s: State, t: Tid, p: Pc, spoiled: bool, r: Local)
    requires Served(s, spoiled) && Numbered(s) && t in s.pc && p == At(s, t) && RoleOk(t, p)
    requires ServeLocal(s.m, p, r) && s.m.ev.created <= r.m.ev.created
    ensures var v := After(s, t, r);
            Served(v, SameSpell(s, v) && (spoiled || CallsBack(s, v) || GivesUp(s, v)))
  {
    var v := After(s, t, r);
    assert At(v, t) == r.p && (t != RENDER ==> At(v, RENDER) == At(s, RENDER))
           && (t != CONTROLLER ==> At(v, CONTROLLER) == At(s, CONTROLLER));
    if s.m.ev.running && !r.m.ev.running && OwesFallbackCall(p) && !OwesFallbackCall(r.p) {
      assert CallsBack(s, v);
    }
  }

  lemma ServeOther(c: Config, s: State, a: Act, spoiled: bool)
    requires Served(s, spoiled) && Enabled(c, s, a) && !a.Go?
    ensures var v := Apply(c, s, a); SameSpell(s, v) && Served(v, spoiled)
  {
  }

  lemma ServeEvent(c: Config, s: State, e: Event, spoiled: bool)
    requires LifeInv(s) && Served(s, spoiled) && Possible(c, s, e)
    ensures var v := Becomes(c, s, e);
            Served(v, SameSpell(s, v) && (spoiled || CallsBack(s, v) || GivesUp(s, v)))
  {
    match e
    case Step(a) =>
      if a.Go? {
        var p := At(s, a.t);
        assert RoleOk(a.t, p);
        LocalServe(c, s.m, a.t, p, a.out, Exec(c, s.m, a.t, p, a.out));
        LocalLocks(c, s.m, a.t, p, a.out);
        ServeGo(s, a.t, p, spoiled, Exec(c, s.m, a.t, p, a.out));
      } else {
        ServeOther(c, s, a, spoiled);
      }
    case Connect =>
    case NativeStart =>
  }

  lemma {:induction false} ServedRun(c: Config, ext: set<Tid>, es: seq<Event>, i: nat)
    requires SourceRoles(c) && Natives(ext) && i < |Life(c, Created(c, ext), es)|
    ensures var ss := Life(c, Created(c, ext), es); Served(ss[i], Spoiled(ss, i))
  {
    var s := Created(c, ext);
    if i == 0 {
      LifeFirst(c, s, es);
    } else {
      var ss := Life(c, s, es);
      ServedRun(c, ext, es, i - 1);
      LifeHolds(c, ext, es, i - 1);
      var e := LifeNext(c, s, es, i - 1);
      ServeEvent(c, ss[i - 1], e, Spoiled(ss, i - 1));
    }
  }

  // ---------- running means live ----------

  /** There is an event thread behind the handle, and it has not left its loop. */
  predicate Alive(s: State) {
    s.m.ev.joinable && s.m.ev.created > 0 && At(s, Ev(s.m.ev.created - 1)) != Dead
  }

  /** event_running is set for a live event thread, or one the render thread is about to make. */
  predicate RunningOk(s: State) {
    s.m.ev.running ==> At(s, RENDER).StCreate? || Alive(s)
  }

  predicate RunLocal(m: Shared, p: Pc, r: Local) {
    && (r.m.ev.running ==> (m.ev.running && (p.StCreate? ==> r.m.ev.created > m.ev.created)) || r.p.StCreate?)
    && (r.m.ev.created > m.ev.created ==> r.m.ev.joinable && r.m.ev.created == m.ev.created + 1)
    && (m.ev.joinable && !r.m.ev.joinable ==> Joins(p))
    && r.p != Dead
  }

  lemma RunStart(m: Shared, p: Pc, out: Outcome)
    requires InStart(p)
    ensures RunLocal(m, p, ExecStart(m, p, out))
  {
  }

  lemma RunStop(m: Shared, t: Tid, p: Pc)
    requires InStop(p)
    ensures RunLocal(m, p, ExecStop(m, t, p))
  {
  }

  lemma LocalRun(c: Config, m: Shared, t: Tid, p: Pc, out: Outcome, r: Local)
    requires p != Idle && p != Dead && RoleOk(t, p) && r == Exec(c, m, t, p, out)
    ensures RunLocal(m, p, r)
  {
    LocalLife(c, m, t, p, out, r);
    if InStart(p) {
      RunStart(m, p, out);
    } else if InStop(p) {
      RunStop(m, t, p);
    }
  }

  lemma RunGo(s: State, t: Tid, r: Local)
    requires LifeInv(s) && RunningOk(s) && t in s.pc && At(s, t) != Dead && RunLocal(s.m, At(s, t), r)
    requires s.m.ev.created <= r.m.ev.created && (At(s, t).StCreate? ==> t == RENDER) && (r.p.StCreate? ==> t == RENDER)
    requires Joins(At(s, t)) ==> !s.m.ev.running
    ensures RunningOk(After(s, t, r))
  {
    assert Ev(s.m.ev.created) !in s.pc;
  }

  lemma RunOther(c: Config, s: State, a: Act)
    requires RunningOk(s) && Enabled(c, s, a) && !a.Go?
    ensures RunningOk(Apply(c, s, a))
  {
  }

  lemma RunEvent(c: Config, s: State, e: Event)
    requires SourceRoles(c) && LifeInv(s) && RunningOk(s) && Possible(c, s, e)
    ensures RunningOk(Becomes(c, s, e))
  {
    match e
    case Step(a) =>
      if a.Go? {
        var p, r := At(s, a.t), Exec(c, s.m, a.t, At(s, a.t), a.out);
        LifeStep(c, s, a);
        assert RoleOk(a.t, p) && RoleOk(a.t, At(Becomes(c, s, e), a.t));
        LocalLocks(c, s.m, a.t, p, a.out);
        LocalRun(c, s.m, a.t, p, a.out, r);
        RunGo(s, a.t, r);
      } else {
        RunOther(c, s, a);
      }
    case Connect =>
    case NativeStart =>
  }

  lemma {:induction false} RunningRun(c: Config, s: State, es: seq<Event>)
    requires SourceRoles(c) && LifeInv(s) && RunningOk(s)
    ensures forall v | v in Life(c, s, es) :: RunningOk(v)
    decreases |es|
  {
    if es != [] && Possible(c, s, es[0]) {
      EventLife(c, s, es[0]);
      RunEvent(c, s, es[0]);
      RunningRun(c, Becomes(c, s, es[0]), es[1..]);
    }
  }

  /** Over any number of connections, event_running stands for a live event thread. */
  lemma RunningIsLive(c: Config, ext: set<Tid>, es: seq<Event>, s: State)
    requires SourceRoles(c) && Natives(ext) && s in Life(c, Created(c, ext), es)
    requires s.m.ev.running && !At(s, RENDER).StCreate?
    ensures s.m.ev.joinable && s.m.ev.created > 0 && At(s, Ev(s.m.ev.created - 1)) != Dead
  {
    CreatedLife(c, ext);
    RunningRun(c, Created(c, ext), es);
  }

  /**
   In a session past its exit callback there is a live event thread, unless since the session began a fallback callback
   has been made, which is then that of an earlier session, or the exit callback has given up; or the context is being
   left.
   */
  lemma SessionHasEvents(c: Config, ext: set<Tid>, es: seq<Event>, i: nat)
    requires SourceRoles(c) && Natives(ext) && i < |Life(c, Created(c, ext), es)|
    requires var s := Life(c, Created(c, ext), es)[i];
             s.m.connected && !s.m.fallback && !InCallback(At(s, RENDER)) && !Ending(s)
    requires !Spoiled(Life(c, Created(c, ext), es), i)
    ensures Life(c, Created(c, ext), es)[i].m.ev.running && Alive(Life(c, Created(c, ext), es)[i])
  {
    ServedRun(c, ext, es, i);
    RunningIsLive(c, ext, es, Life(c, Created(c, ext), es)[i]);
  }
}
