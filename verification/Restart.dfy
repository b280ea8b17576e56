/** A stopped instance can be started and connected again, over the same event-thread handle. */
module Restart {
  import opened Sessions
  import opened Lifecycle
  import opened Instances

  /** The events can all happen, and lead from `s` to `v`. */
  ghost predicate Leads(c: Config, s: State, es: seq<Event>, v: State)
    decreases |es|
  {
    if es == [] then v == s else Possible(c, s, es[0]) && Leads(c, Becomes(c, s, es[0]), es[1..], v)
  }

  lemma {:induction false} LeadsOn(c: Config, s: State, es: seq<Event>, u: State, e: Event)
    requires Leads(c, s, es, u) && Possible(c, u, e)
    ensures Leads(c, s, es + [e], Becomes(c, u, e))
    decreases |es|
  {
    if es == [] {
      assert [e][1..] == [] && [] + [e] == [e];
    } else {
      LeadsOn(c, Becomes(c, s, es[0]), es[1..], u, e);
      assert (es + [e])[1..] == es[1..] + [e];
    }
  }

  lemma {:induction false} LeadsVisits(c: Config, s: State, es: seq<Event>, v: State)
    requires Leads(c, s, es, v)
    ensures v in Life(c, s, es)
    decreases |es|
  {
    if es != [] {
      LeadsVisits(c, Becomes(c, s, es[0]), es[1..], v);
    }
  }

  ghost predicate Comes(c: Config, s: State, v: State) {
    exists es :: Leads(c, s, es, v)
  }

  lemma Happens(c: Config, s: State, u: State, e: Event) returns (v: State)
    requires Comes(c, s, u) && Possible(c, u, e)
    ensures v == Becomes(c, u, e) && Comes(c, s, v)
  {
    var es :| Leads(c, s, es, u);
    v := Becomes(c, u, e);
    LeadsOn(c, s, es, u, e);
  }

  /** Of the two states, only `t` may be somewhere else. */
  ghost predicate Only(u: State, v: State, t: Tid) {
    forall x | x != t :: At(v, x) == At(u, x)
  }

  lemma StopStep(c: Config, u: State, t: Tid, out: Outcome)
    requires InStop(At(u, t))
    ensures Exec(c, u.m, t, At(u, t), out) == ExecStop(u.m, t, At(u, t))
  {
    StopIs(c, u.m, t, At(u, t), out);
  }

  /** A step of a lifecycle call. */
  lemma Goes(c: Config, s: State, u: State, t: Tid, r: Local) returns (v: State)
    requires Comes(c, s, u) && InStop(At(u, t)) && !Waits(u, t)
    requires r == ExecStop(u.m, t, At(u, t)) && r.m.ev.created == u.m.ev.created
    ensures Comes(c, s, v) && v.m == r.m && At(v, t) == r.p && Only(u, v, t)
  {
    StopStep(c, u, t, Ok);
    v := Happens(c, s, u, Step(Go(t, Ok)));
  }

  lemma Begins(c: Config, s: State, u: State, t: Tid, call: Call) returns (v: State)
    requires Comes(c, s, u) && At(u, t) == Idle && MayBegin(c, t, call) && (call.CallStop? || call.CallReconnect?)
    ensures Comes(c, s, v) && v.m == u.m && At(v, t) == Entry(call) && Only(u, v, t)
  {
    v := Happens(c, s, u, Step(Begin(t, call)));
  }

  lemma Leaves(c: Config, s: State, u: State) returns (v: State)
    requires Comes(c, s, u) && At(u, RENDER) == Idle && !u.m.running
    ensures Comes(c, s, v) && v.m == u.m && At(v, RENDER) == Dead && Only(u, v, RENDER)
  {
    v := Happens(c, s, u, Step(Finish(RENDER)));
  }

  lemma Starts(c: Config, s: State, u: State) returns (v: State)
    requires Comes(c, s, u) && At(u, CONTROLLER) == Idle && At(u, RENDER) == Dead && !u.m.connected && !u.m.running
    ensures Comes(c, s, v) && v.m == u.m.(running := true) && At(v, RENDER) == Idle && Only(u, v, RENDER)
  {
    v := Happens(c, s, u, NativeStart);
  }

  lemma Joins(c: Config, s: State, u: State) returns (v: State)
    requires Comes(c, s, u) && !u.m.connected && At(u, RENDER) == DcConnect && forall x :: Outside(At(u, x))
    ensures Comes(c, s, v) && v.m == NewContext(c, u.m.ev, u.m.running) && At(v, RENDER) == Idle && Only(u, v, RENDER)
  {
    v := Happens(c, s, u, Connect);
  }

  /** The other threads are in no call. */
  ghost predicate Calm(s: State) {
    forall u | u != RENDER && u != CONTROLLER :: Outside(At(s, u))
  }

  lemma CalmStays(u: State, v: State, t: Tid)
    requires Calm(u) && Only(u, v, t) && (t == RENDER || t == CONTROLLER)
    ensures Calm(v)
  {
    forall x | x != RENDER && x != CONTROLLER
      ensures Outside(At(v, x))
    {
      assert At(v, x) == At(u, x);
    }
  }

  lemma StopsRender(c: Config, s: State, u: State) returns (v: State)
    requires Comes(c, s, u) && Calm(u) && At(u, CONTROLLER) == Idle && At(u, RENDER) == Idle && u.m.running
    ensures Comes(c, s, v) && Calm(v) && At(v, CONTROLLER) == NsJoin && At(v, RENDER) == Dead
    ensures v.m == u.m.(running := false)
  {
    var a := Begins(c, s, u, CONTROLLER, CallStop);
    CalmStays(u, a, CONTROLLER);
    var b := Goes(c, s, a, CONTROLLER, Local(NsJoin, u.m.(running := false)));
    CalmStays(a, b, CONTROLLER);
    v := Leaves(c, s, b);
    CalmStays(b, v, RENDER);
  }

  lemma StopsEvents(c: Config, s: State, u: State) returns (v: State)
    requires Comes(c, s, u) && Calm(u) && At(u, CONTROLLER) == NsJoin && At(u, RENDER) == Dead
    requires u.m.connected && !u.m.ev.joinable
    ensures Comes(c, s, v) && Calm(v) && At(v, CONTROLLER) == DcJoin && At(v, RENDER) == Dead
    ensures v.m == u.m.(ev := u.m.ev.(running := false))
  {
    var a := Goes(c, s, u, CONTROLLER, Local(DcCheck, u.m));
    var b := Goes(c, s, a, CONTROLLER, Local(DcStop, u.m));
    v := Goes(c, s, b, CONTROLLER, Local(DcJoin, u.m.(ev := u.m.ev.(running := false))));
    CalmStays(u, v, CONTROLLER);
  }

  lemma Disconnects(c: Config, s: State, u: State) returns (v: State)
    requires Comes(c, s, u) && Calm(u) && At(u, CONTROLLER) == DcJoin && At(u, RENDER) == Dead && !u.m.ev.joinable
    ensures Comes(c, s, v) && Calm(v) && At(v, CONTROLLER) == Idle && At(v, RENDER) == Dead
    ensures v.m == u.m.(connected := false)
  {
    var a := Goes(c, s, u, CONTROLLER, Local(DcDisconnect, u.m));
    v := Goes(c, s, a, CONTROLLER, Local(Idle, u.m.(connected := false)));
    CalmStays(u, v, CONTROLLER);
  }

  lemma Asks(c: Config, s: State, u: State) returns (v: State)
    requires Comes(c, s, u) && At(u, CONTROLLER) == Idle && At(u, RENDER) == Dead && !u.m.connected && !u.m.running
    ensures Comes(c, s, v) && v.m == u.m.(running := true) && At(v, RENDER) == DcConnect && Only(u, v, RENDER)
  {
    var a := Starts(c, s, u);
    var b := Begins(c, s, a, RENDER, CallReconnect);
    v := Goes(c, s, b, RENDER, Local(DcConnect, b.m));
  }

  lemma Connects(c: Config, s: State, u: State) returns (v: State)
    requires Comes(c, s, u) && Calm(u) && At(u, CONTROLLER) == Idle && At(u, RENDER) == Dead
    requires !u.m.connected && !u.m.running
    ensures Comes(c, s, v) && Calm(v) && At(v, CONTROLLER) == Idle && At(v, RENDER) == Idle
    ensures v.m == NewContext(c, u.m.ev, true)
  {
    var a := Asks(c, s, u);
    CalmStays(u, a, RENDER);
    assert forall x :: Outside(At(a, x));
    v := Joins(c, s, a);
    CalmStays(a, v, RENDER);
  }

  /** nativeStart, and a first connection. */
  lemma FirstConnection(c: Config, ext: set<Tid>) returns (v: State)
    requires Natives(ext)
    ensures Comes(c, Created(c, ext), v) && Calm(v) && At(v, CONTROLLER) == Idle && At(v, RENDER) == Idle
    ensures v.m == NewContext(c, EventThread(false, false, 0, 0), true)
  {
    var s := Created(c, ext);
    assert Leads(c, s, [], s);
    forall u
      ensures Outside(At(s, u))
    {
      assert At(s, u) == Idle || At(s, u) == Dead;
    }
    v := Connects(c, s, s);
  }

  /** nativeStop and nativeStart, and another: a state from which the first connection's theorems hold again. */
  lemma AnotherConnection(c: Config, s: State, u: State) returns (v: State)
    requires Comes(c, s, u) && Calm(u) && At(u, CONTROLLER) == Idle && At(u, RENDER) == Idle
    requires u.m.connected && u.m.running && !u.m.ev.joinable
    ensures Comes(c, s, v) && Calm(v) && At(v, CONTROLLER) == Idle && At(v, RENDER) == Idle
    ensures v.m == NewContext(c, u.m.ev.(running := false), true)
  {
    v := StopsRender(c, s, u);
    v := StopsEvents(c, s, v);
    v := Disconnects(c, s, v);
    v := Connects(c, s, v);
  }

  /** All of these are states of a life of the instance. */
  lemma ComesVisits(c: Config, s: State, v: State)
    requires Comes(c, s, v)
    ensures exists es :: v in Life(c, s, es)
  {
    var es :| Leads(c, s, es, v);
    LeadsVisits(c, s, es, v);
  }
}
