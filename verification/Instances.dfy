/**
 Whole instances: from nativeCreate on, render threads started and joined and contexts connected and disconnected,
 any number of times, over one event-thread handle.
 */
module Instances {
  import opened Sessions
  import opened Teardown
  import opened Lifecycle

  // ---------- runs over several connections ----------

  /** A step of some thread; do_connect's new context; or nativeStart, which makes the render thread. */
  datatype Event = Step(a: Act) | Connect | NativeStart

  /** After nativeCreate: no context and no render thread. */
  function Created(c: Config, ext: set<Tid>): State {
    State(map t | t in ext :: Idle, NewContext(c, EventThread(false, false, 0, 0), false).(connected := false))
  }

  predicate Natives(ext: set<Tid>) {
    RENDER !in ext && CONTROLLER in ext && forall t | t in ext :: t.Ext?
  }

  /**
   A context is connected when no thread is in a call on an earlier one (Hushed says when that is sure), and
   nativeStart is called only on an instance that has been stopped, or has never been started.
   */
  ghost predicate Possible(c: Config, s: State, e: Event) {
    match e
    case Step(a) => Enabled(c, s, a)
    case Connect => !s.m.connected && At(s, RENDER).DcConnect? && forall u :: Outside(At(s, u))
    case NativeStart => !s.m.connected && !s.m.running && At(s, CONTROLLER) == Idle && At(s, RENDER) == Dead
  }

  function Becomes(c: Config, s: State, e: Event): State {
    match e
    case Step(a) => Apply(c, s, a)
    case Connect => State(s.pc[RENDER := Idle], NewContext(c, s.m.ev, s.m.running))
    case NativeStart => State(s.pc[RENDER := Idle], s.m.(running := true))
  }

  /** The states visited, up to the first event that cannot happen. */
  ghost function Life(c: Config, s: State, es: seq<Event>): seq<State>
    decreases |es|
  {
    if es == [] || !Possible(c, s, es[0]) then [s] else [s] + Life(c, Becomes(c, s, es[0]), es[1..])
  }

  // ---------- what every event keeps ----------

  /** Each connection begins as the theorems about one context suppose. */
  lemma ConnectStarts(c: Config, s: State)
    requires Possible(c, s, Connect) && Numbered(s)
    ensures Starting(c, Becomes(c, s, Connect))
  {
    var v := Becomes(c, s, Connect);
    forall u
      ensures Outside(At(v, u))
    {
      assert Outside(At(s, u));
    }
  }

  lemma ConnectLife(c: Config, s: State)
    requires LifeInv(s) && Possible(c, s, Connect)
    ensures LifeInv(Becomes(c, s, Connect))
  {
    var v := Becomes(c, s, Connect);
    ConnectStarts(c, s);
    LocksStart(c, v);
    assert v.m.ev == s.m.ev && v.m.running == s.m.running;
    forall u
      ensures RoleOk(u, At(v, u))
    {
      assert RoleOk(u, At(s, u));
    }
    forall k: nat
      ensures LiveOk(v.m, k, At(v, Ev(k)))
    {
      assert LiveOk(s.m, k, At(s, Ev(k)));
    }
  }

  lemma StartLife(c: Config, s: State)
    requires LifeInv(s) && Possible(c, s, NativeStart)
    ensures LifeInv(Becomes(c, s, NativeStart))
  {
    var v := Becomes(c, s, NativeStart);
    forall u
      ensures RoleOk(u, At(v, u))
    {
      assert RoleOk(u, At(s, u));
    }
    forall k: nat
      ensures LiveOk(v.m, k, At(v, Ev(k)))
    {
      assert LiveOk(s.m, k, At(s, Ev(k)));
    }
    assert forall u :: HoldsState(At(v, u)) == HoldsState(At(s, u)) && HoldsData(At(v, u)) == HoldsData(At(s, u));
  }

  lemma EventLife(c: Config, s: State, e: Event)
    requires SourceRoles(c) && LifeInv(s) && Possible(c, s, e)
    ensures LifeInv(Becomes(c, s, e))
  {
    match e
    case Step(a) => LifeStep(c, s, a);
    case Connect => ConnectLife(c, s);
    case NativeStart => StartLife(c, s);
  }

  lemma CreatedLife(c: Config, ext: set<Tid>)
    requires Natives(ext)
    ensures LifeInv(Created(c, ext))
  {
    var s := Created(c, ext);
    forall u
      ensures (At(s, u) == Idle && u.Ext?) || At(s, u) == Dead
    {
    }
    CreatedLocks(c, ext);
  }

  lemma CreatedLocks(c: Config, ext: set<Tid>)
    requires Natives(ext)
    ensures Locks(Created(c, ext)) && Numbered(Created(c, ext))
  {
    assert forall u :: At(Created(c, ext), u) == Idle || At(Created(c, ext), u) == Dead;
  }

  lemma {:induction false} LifeKept(c: Config, s: State, es: seq<Event>)
    requires SourceRoles(c) && LifeInv(s)
    ensures forall v | v in Life(c, s, es) :: LifeInv(v)
    decreases |es|
  {
    if es != [] && Possible(c, s, es[0]) {
      EventLife(c, s, es[0]);
      LifeKept(c, Becomes(c, s, es[0]), es[1..]);
    }
  }

  // ---------- the event thread ----------

  predicate Live(s: State, k: nat) {
    At(s, Ev(k)) != Dead
  }

  /**
   Over any number of connections: threads created minus threads joined is 1 or 0 as the handle is joinable or
   not; at most one event thread is live, and it is the one behind the handle; no event thread ever joins; and
   disconnect is reached, and there is no context, only when no event thread is live.
   */
  lemma OneEventThread(c: Config, ext: set<Tid>, es: seq<Event>, s: State)
    requires SourceRoles(c) && Natives(ext) && s in Life(c, Created(c, ext), es)
    ensures s.m.ev.created - s.m.ev.joined == if s.m.ev.joinable then 1 else 0
    ensures forall k: nat | Live(s, k) :: s.m.ev.joinable && k == s.m.ev.created - 1
    ensures forall t | Joins(At(s, t)) :: t == RENDER || t == CONTROLLER
    ensures forall t, k: nat | At(s, t).DcDisconnect? || !s.m.connected :: !Live(s, k)
  {
    CreatedLife(c, ext);
    LifeKept(c, Created(c, ext), es);
    assert forall u :: RoleOk(u, At(s, u));
    assert forall k: nat :: LiveOk(s.m, k, At(s, Ev(k)));
  }

  // ---------- deadlock ----------

  /** Some thread can go on with its call, or a thread told to stop can leave its loop. */
  ghost predicate SomeoneMoves(c: Config, s: State) {
    || (exists t :: Enabled(c, s, Go(t, Ok)))
    || (exists t :: Enabled(c, s, Finish(t)))
  }

  /** The holder of a lock, if any, is never the one that waits: data_lock first, then state_lock. */
  lemma HolderMoves(c: Config, s: State)
    requires Locks(s) && s.m.connected
    requires s.m.dataLock.Held? || s.m.stateLock.Held?
    ensures Enabled(c, s, Go(if s.m.dataLock.Held? then s.m.dataLock.owner else s.m.stateLock.owner, Ok))
  {
    var u := if s.m.dataLock.Held? then s.m.dataLock.owner else s.m.stateLock.owner;
    assert HoldsState(At(s, u)) || HoldsData(At(s, u));
  }

  /**
   The event thread that a join waits for goes on with its call, or leaves its loop; it waits for a lock at
   most, never for a thread.
   */
  lemma JoinedMoves(c: Config, s: State)
    requires LifeInv(s) && s.m.connected && JoinWaits(s) && !s.m.ev.running
    ensures var e := Ev(s.m.ev.created - 1);
            || Enabled(c, s, Finish(e)) || Enabled(c, s, Go(e, Ok))
            || (WantsState(At(s, e)) && s.m.stateLock != Free) || (WantsData(At(s, e)) && s.m.dataLock != Free)
  {
    var e := Ev(s.m.ev.created - 1);
    assert RoleOk(e, At(s, e));
  }

  /** The render thread that nativeStop waits for goes on, or waits itself for a lock or the event thread. */
  lemma RenderMoves(c: Config, s: State)
    requires LifeInv(s) && At(s, CONTROLLER).NsJoin? && At(s, RENDER) != Dead
    ensures || Enabled(c, s, Finish(RENDER)) || Enabled(c, s, Go(RENDER, Ok))
            || (s.m.connected && (s.m.stateLock != Free || s.m.dataLock != Free))
            || (s.m.connected && Joins(At(s, RENDER)) && JoinWaits(s) && !s.m.ev.running)
  {
    assert RoleOk(RENDER, At(s, RENDER));
  }

  /** The thread is in a lifecycle call, or in a call on the context there is. */
  predicate Busy(s: State, t: Tid) {
    InCall(s, t) && (s.m.connected || InStop(At(s, t)))
  }

  lemma BusyMoves(c: Config, s: State, t: Tid)
    requires LifeInv(s) && Busy(s, t)
    ensures SomeoneMoves(c, s)
  {
    assert RoleOk(t, At(s, t));
    if s.m.connected && (s.m.stateLock.Held? || s.m.dataLock.Held?) {
      HolderMoves(c, s);
    } else if s.m.connected && JoinWaits(s) && !s.m.ev.running {
      JoinedMoves(c, s);
    } else if At(s, t).NsJoin? && At(s, RENDER) != Dead {
      RenderMoves(c, s);
    } else {
      assert Enabled(c, s, Go(t, Ok));
    }
  }

  /** Whenever some thread is in a call, on whichever connection, some thread can move without a new call. */
  lemma NoDeadlock(c: Config, ext: set<Tid>, es: seq<Event>, s: State, t: Tid)
    requires SourceRoles(c) && Natives(ext) && s in Life(c, Created(c, ext), es)
    requires Busy(s, t)
    ensures SomeoneMoves(c, s)
  {
    CreatedLife(c, ext);
    LifeKept(c, Created(c, ext), es);
    BusyMoves(c, s, t);
  }
}
