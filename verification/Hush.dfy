/**
 disconnect frees the context whoever is using it. What keeps it unused: no JNI input call is under way when a
 lifecycle call begins, and none begins before it is over.
 */
module Hush {
  import opened Sessions
  import opened Teardown
  import opened Lifecycle
  import opened Instances

  /** In a call on the context, and not one that ends it. */
  predicate Using(s: State, t: Tid) {
    InCall(s, t) && !InStop(At(s, t))
  }

  predicate IsNative(t: Tid) {
    t.Ext? && t != RENDER
  }

  ghost predicate Hushed(s: State, e: Event) {
    e.Step? && e.a.Begin? ==>
      && (IsNative(e.a.t) && !e.a.call.CallStop? ==> forall u :: !InStop(At(s, u)))
      && (e.a.call.CallStop? || e.a.call.CallReconnect? ==> forall u | IsNative(u) :: !Using(s, u))
  }

  ghost predicate HushedLife(c: Config, s: State, es: seq<Event>)
    decreases |es|
  {
    es != [] && Possible(c, s, es[0]) ==> Hushed(s, es[0]) && HushedLife(c, Becomes(c, s, es[0]), es[1..])
  }

  /** While a native thread uses the context, there is one, and nobody is ending it. */
  ghost predicate HushInv(s: State) {
    forall u | IsNative(u) && Using(s, u) :: s.m.connected && forall w :: !InStop(At(s, w))
  }

  lemma GoStays(c: Config, m: Shared, t: Tid, p: Pc, out: Outcome)
    requires p != Idle && p != Dead && RoleOk(t, p) && !InStop(p)
    ensures var r := Exec(c, m, t, p, out); !InStop(r.p) && r.m.connected == m.connected
  {
    if InStart(p) {
      StartIs(c, m, t, p, out);
    } else {
      LocalElsewhere(c, m, t, p, out);
    }
  }

  /** Thread `t` has moved, perhaps made a thread, and nobody has begun to end the context. */
  lemma HushMoved(s: State, v: State, t: Tid)
    requires HushInv(s) && (forall u | u != t && u.Ext? :: At(v, u) == At(s, u)) && v.m.connected == s.m.connected
    requires (forall u :: InStop(At(v, u)) ==> InStop(At(s, u))) && (IsNative(t) && Using(v, t) ==> Using(s, t))
    ensures HushInv(v)
  {
    forall u | IsNative(u) && Using(v, u)
      ensures v.m.connected && forall w :: !InStop(At(v, w))
    {
      assert Using(s, u);
    }
  }

  /** While a lifecycle call is under way no native thread is using the context, nor will this step make one. */
  lemma HushStopping(s: State, v: State, t: Tid)
    requires HushInv(s) && InStop(At(s, t)) && Outside(At(v, t)) && forall u | u != t && u.Ext? :: At(v, u) == At(s, u)
    ensures HushInv(v)
  {
    assert forall u | IsNative(u) :: !Using(s, u);
    assert forall u | IsNative(u) :: !Using(v, u);
  }

  lemma GoMoves(c: Config, s: State, t: Tid, out: Outcome)
    requires Numbered(s) && Enabled(c, s, Go(t, out))
    ensures var v := Apply(c, s, Go(t, out));
            (forall u | u != t && u.Ext? :: At(v, u) == At(s, u)) && At(v, t) == Exec(c, s.m, t, At(s, t), out).p
    ensures forall u | u != t :: At(Apply(c, s, Go(t, out)), u) == At(s, u) || At(Apply(c, s, Go(t, out)), u) == Idle
  {
  }

  lemma HushGo(c: Config, s: State, t: Tid, out: Outcome)
    requires Numbered(s) && RoleOk(t, At(s, t)) && HushInv(s) && Enabled(c, s, Go(t, out))
    ensures HushInv(Apply(c, s, Go(t, out)))
  {
    var v, p := Apply(c, s, Go(t, out)), At(s, t);
    GoMoves(c, s, t, out);
    if InStop(p) {
      StopIs(c, s.m, t, p, out);
      HushStopping(s, v, t);
    } else {
      GoStays(c, s.m, t, p, out);
      HushMoved(s, v, t);
    }
  }

  lemma HushBegin(c: Config, s: State, t: Tid, call: Call)
    requires HushInv(s) && Enabled(c, s, Begin(t, call)) && Hushed(s, Step(Begin(t, call)))
    ensures HushInv(Apply(c, s, Begin(t, call)))
  {
    var v := Apply(c, s, Begin(t, call));
    forall u | IsNative(u) && Using(v, u)
      ensures v.m.connected && forall w :: !InStop(At(v, w))
    {
      assert u != t ==> Using(s, u);
      forall w
        ensures !InStop(At(v, w))
      {
        assert w != t ==> At(v, w) == At(s, w) && !InStop(At(s, w));
      }
    }
  }

  /** Connecting, nativeStart, and a thread leaving its loop put nobody in a call. */
  lemma HushIdle(s: State, v: State)
    requires HushInv(s) && (s.m.connected ==> v.m.connected)
    requires forall u :: At(v, u) == At(s, u) || At(v, u) == Idle || At(v, u) == Dead
    ensures HushInv(v)
  {
    forall u | IsNative(u) && Using(v, u)
      ensures v.m.connected && forall w :: !InStop(At(v, w))
    {
      assert Using(s, u);
      forall w
        ensures !InStop(At(v, w))
      {
        assert !InStop(At(s, w));
      }
    }
  }

  lemma HushStep(c: Config, s: State, e: Event)
    requires LifeInv(s) && HushInv(s) && Possible(c, s, e) && Hushed(s, e)
    ensures HushInv(Becomes(c, s, e))
  {
    if e.Step? && e.a.Go? {
      assert RoleOk(e.a.t, At(s, e.a.t));
      HushGo(c, s, e.a.t, e.a.out);
    } else if e.Step? && e.a.Begin? {
      HushBegin(c, s, e.a.t, e.a.call);
    } else {
      HushIdle(s, Becomes(c, s, e));
    }
  }

  lemma {:induction false} HushKept(c: Config, s: State, es: seq<Event>)
    requires SourceRoles(c) && LifeInv(s) && HushInv(s) && HushedLife(c, s, es)
    ensures forall v | v in Life(c, s, es) :: LifeInv(v) && HushInv(v)
    decreases |es|
  {
    if es != [] && Possible(c, s, es[0]) {
      HushStep(c, s, es[0]);
      EventLife(c, s, es[0]);
      HushKept(c, Becomes(c, s, es[0]), es[1..]);
    }
  }

  /** Whoever disconnects, and whenever there is no context, no other thread is in a call on it. */
  lemma DisconnectAlone(c: Config, ext: set<Tid>, es: seq<Event>, s: State, t: Tid)
    requires SourceRoles(c) && Natives(ext) && HushedLife(c, Created(c, ext), es) && s in Life(c, Created(c, ext), es)
    requires At(s, t).DcDisconnect? || !s.m.connected
    ensures forall u | u != t :: Outside(At(s, u))
  {
    CreatedLife(c, ext);
    HushKept(c, Created(c, ext), es);
    assert RoleOk(t, At(s, t));
    forall u | u != t
      ensures Outside(At(s, u))
    {
      assert IsNative(u) ==> !Using(s, u);
      assert u.Ev? ==> LiveOk(s.m, u.k, At(s, Ev(u.k)));
    }
  }
}
