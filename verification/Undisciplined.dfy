/**
 Runs that the source allows and in which the two halves of a reply are parted: one for each rule of the
 discipline, breaking that rule alone.
 */
module Undisciplined {
  import opened Sessions
  import opened Adjacency

  const ONE := Config(1, {RENDER})
  const INPUT := Ext(2)
  const EVENT := Ev(0)
  const THREADS := {RENDER, CONTROLLER, INPUT}
  const START := Init(ONE, THREADS)

  // ---------- runs that keep every rule but one ----------

  ghost predicate Keeps(but: Rule, s: State, a: Act) {
    forall rule: Rule | rule != but :: Obeys(rule, s, a)
  }

  /** The schedule `acts` can be taken to its end, which is `s`, without breaking another rule than `but`. */
  ghost predicate Leads(but: Rule, acts: seq<Act>, from: State, s: State)
    decreases |acts|
  {
    if acts == [] then s == from
    else Enabled(ONE, from, acts[0]) && Keeps(but, from, acts[0]) && Leads(but, acts[1..], Apply(ONE, from, acts[0]), s)
  }

  lemma {:induction false} LeadsOn(but: Rule, acts: seq<Act>, from: State, s: State, a: Act)
    requires Leads(but, acts, from, s) && Enabled(ONE, s, a) && Keeps(but, s, a)
    ensures Leads(but, acts + [a], from, Apply(ONE, s, a))
    decreases |acts|
  {
    if acts == [] {
      assert [a][1..] == [] && [] + [a] == [a];
    } else {
      LeadsOn(but, acts[1..], Apply(ONE, from, acts[0]), s, a);
      assert (acts + [a])[1..] == acts[1..] + [a];
    }
  }

  lemma {:induction false} LeadsVisited(but: Rule, acts: seq<Act>, from: State, s: State)
    requires Leads(but, acts, from, s)
    ensures s in Run(ONE, from, acts)
    decreases |acts|
  {
    if acts != [] {
      LeadsVisited(but, acts[1..], Apply(ONE, from, acts[0]), s);
    }
  }

  ghost predicate Reached(but: Rule, s: State) {
    exists acts :: Leads(but, acts, START, s)
  }

  lemma Take(but: Rule, s: State, a: Act) returns (v: State)
    requires Reached(but, s) && Enabled(ONE, s, a) && Keeps(but, s, a)
    ensures v == Apply(ONE, s, a) && Reached(but, v)
  {
    var acts :| Leads(but, acts, START, s);
    v := Apply(ONE, s, a);
    LeadsOn(but, acts, START, s, a);
  }

  /** The threads of the run, and what they share. */
  ghost predicate Looks(but: Rule, s: State, m: Shared, render: Pc, event: Pc, input: Pc) {
    Reached(but, s) && s.m == m && At(s, RENDER) == render && At(s, EVENT) == event && At(s, INPUT) == input
    && At(s, CONTROLLER) == Idle && Others(s)
  }

  /** The other threads are in no call. */
  ghost predicate Others(s: State) {
    forall u | u != RENDER && u != EVENT && u != INPUT :: At(s, u).Idle? || At(s, u).Dead?
  }

  /** Of the two states, only `t` may be somewhere else. */
  ghost predicate Only(s: State, v: State, t: Tid) {
    forall u | u != t :: At(v, u) == At(s, u)
  }

  /** A step no rule is about. */
  predicate Plain(p: Pc) {
    !p.ExTest? && !(p.InSend? && !p.locked)
  }

  lemma PlainKeeps(but: Rule, s: State, t: Tid, out: Outcome)
    requires Plain(At(s, t))
    ensures Keeps(but, s, Go(t, out))
  {
  }

  lemma Steps(s: State, t: Tid, out: Outcome, r: Local)
    requires r == Exec(ONE, s.m, t, At(s, t), out) && r.m.ev.created == s.m.ev.created
    ensures var v := Apply(ONE, s, Go(t, out)); v.m == r.m && At(v, t) == r.p && Only(s, v, t)
  {
  }

  /** One step inside a call; it creates no thread. */
  lemma Advance(but: Rule, s: State, t: Tid, out: Outcome, r: Local) returns (v: State)
    requires Reached(but, s) && (s.m.connected || InStop(At(s, t))) && At(s, t) != Idle && At(s, t) != Dead
             && !Waits(s, t)
    requires r == Exec(ONE, s.m, t, At(s, t), out) && r.m.ev.created == s.m.ev.created
    requires Plain(At(s, t)) || Keeps(but, s, Go(t, out))
    ensures Reached(but, v) && v.m == r.m && At(v, t) == r.p && Only(s, v, t)
  {
    if Plain(At(s, t)) {
      PlainKeeps(but, s, t, out);
    }
    Steps(s, t, out, r);
    v := Take(but, s, Go(t, out));
  }

  lemma Start(but: Rule, s: State, t: Tid, call: Call) returns (v: State)
    requires Reached(but, s) && s.m.connected && At(s, t) == Idle && MayBegin(ONE, t, call) && !call.CallRequest?
    ensures Reached(but, v) && v.m == s.m && At(v, t) == Entry(call) && Only(s, v, t)
  {
    v := Take(but, s, Begin(t, call));
  }

  /** A request, for the one service and one descriptor. */
  lemma Ask(but: Rule, s: State) returns (v: State)
    requires Reached(but, s) && s.m.connected && At(s, EVENT) == Idle && Others(s)
    requires !InPush(At(s, RENDER)) && !InPush(At(s, INPUT)) && (but == RequestedOnce || 0 !in s.m.h.requested)
    ensures Reached(but, v) && v.m == s.m.(h := s.m.h.(requested := s.m.h.requested + {0}))
    ensures At(v, EVENT) == FdCheck(0, 1) && Only(s, v, EVENT)
  {
    assert forall u :: !InPush(At(s, u));
    v := Take(but, s, Begin(EVENT, CallRequest(0, 1)));
  }

  /** What the socket of generation g has carried, no send on it having failed. */
  predicate Carried(m: Shared, g: nat, items: seq<Item>) {
    g !in m.net.broken && Stream(m.net, g) == items
  }

  /** The session of generation g, with both locks free. */
  predicate Open(m: Shared, g: nat) {
    m.connected && !m.fallback && m.stateLock == Free && m.dataLock == Free && m.fd == Gen(g) && m.gen == g
  }

  // ---------- leaving fallback ----------

  function Answered(m: Shared, g: nat): Shared {
    m.(ctrl := Control(m.ctrl.inbox + [Ready(g)], m.ctrl.hellos, m.ctrl.answered + {g}))
  }

  lemma Reply(but: Rule, s: State, g: nat) returns (v: State)
    requires Reached(but, s)
    ensures Reached(but, v) && v.m == Answered(s.m, g) && forall u :: At(v, u) == At(s, u)
  {
    v := Take(but, s, Producer(Ready(g)));
  }

  /** The render thread has read the FDS_READY and has the lock. */
  predicate Flipping(m: Shared, g: nat) {
    m.connected && m.fallback && m.dataLock == Free && m.stateLock == Held(RENDER) && m.fd == Gen(g) && m.gen == g
  }

  predicate Quiet(m: Shared, g: nat) {
    m.connected && m.fallback && m.stateLock == Free && m.dataLock == Free && m.fd == Gen(g) && m.gen == g
    && m.ctrl.inbox == []
  }

  lemma ToRecv(but: Rule, s: State, g: nat) returns (v: State)
    requires Reached(but, s) && At(s, RENDER) == Idle && Quiet(s.m, g)
    ensures Reached(but, v) && At(v, RENDER) == ExRecv && Only(s, v, RENDER) && v.m == Answered(s.m, g)
  {
    v := Reply(but, s, g);
    v := Start(but, v, RENDER, CallExit);
    v := Advance(but, v, RENDER, Ok, Local(ExRecv, v.m));
  }

  lemma Receive(but: Rule, s: State, g: nat) returns (v: State)
    requires Reached(but, s) && At(s, RENDER) == ExRecv && s.m.connected && s.m.ctrl.inbox == [Ready(g)]
    ensures Reached(but, v) && At(v, RENDER) == ExLock(g) && Only(s, v, RENDER)
    ensures v.m == s.m.(ctrl := s.m.ctrl.(inbox := []))
  {
    v := Advance(but, s, RENDER, Ok, Local(ExLock(g), s.m.(ctrl := s.m.ctrl.(inbox := []))));
  }

  lemma ToFlip(but: Rule, s: State, g: nat) returns (v: State)
    requires Reached(but, s) && At(s, RENDER) == Idle && Quiet(s.m, g)
    ensures Reached(but, v) && At(v, RENDER) == ExTest(g) && Only(s, v, RENDER)
    ensures v.m == Answered(s.m, g).(stateLock := Held(RENDER), ctrl := v.m.ctrl) && v.m.ctrl.inbox == []
  {
    v := ToRecv(but, s, g);
    assert v.m.ctrl.inbox == [Ready(g)];
    v := Receive(but, v, g);
    v := Advance(but, v, RENDER, Ok, Local(ExTest(g), v.m.(stateLock := Held(RENDER))));
  }

  /** The flip: the gate is closed and no request has been made in the new session. */
  function Flipped(m: Shared): Shared {
    m.(fallback := false, gate := true, mask := {},
       h := m.h.(flips := m.h.flips + [Exit(RENDER)], requested := {}, arms := m.h.arms + 1))
  }

  lemma Flip(but: Rule, s: State, g: nat) returns (v: State)
    requires Reached(but, s) && At(s, RENDER) == ExTest(g) && s.m.connected && s.m.fallback
    requires but == NoneAtFlip || (Others(s) && !InRequest(At(s, EVENT)) && !InRequest(At(s, INPUT)))
    ensures Reached(but, v) && At(v, RENDER) == ExUnlock(true) && Only(s, v, RENDER) && v.m == Flipped(s.m)
  {
    if but != NoneAtFlip {
      assert forall u :: !InRequest(At(s, u));
    }
    v := Advance(but, s, RENDER, Ok, Local(ExUnlock(true), Flipped(s.m)));
  }

  /** With no table stored, the callback is next; the event thread is not started. */
  lemma Unlock(but: Rule, s: State, table: bool) returns (v: State)
    requires Reached(but, s) && At(s, RENDER) == ExUnlock(true) && s.m.connected
    ensures Reached(but, v) && At(v, RENDER) == (if table then ExBufs else ExCall) && Only(s, v, RENDER)
    ensures v.m == s.m.(stateLock := Free)
  {
    v := Advance(but, s, RENDER, if table then Ok else Failed,
                 Local(if table then ExBufs else ExCall, s.m.(stateLock := Free)));
  }

  /** The exit callback, up to the join; no event thread is running. */
  lemma Callback(but: Rule, s: State) returns (v: State)
    requires Reached(but, s) && At(s, RENDER) == ExCall && s.m.connected && !s.m.ev.running
    ensures Reached(but, v) && At(v, RENDER) == StJoin && Only(s, v, RENDER)
    ensures v.m == s.m.(h := s.m.h.(called := s.m.h.called + multiset{Exit(RENDER)}))
  {
    v := Advance(but, s, RENDER, Failed,
                 Local(StCheck, s.m.(h := s.m.h.(called := s.m.h.called + multiset{Exit(RENDER)}))));
    v := Advance(but, v, RENDER, Ok, Local(StJoin, v.m));
  }

  lemma ToReap(but: Rule, s: State) returns (v: State)
    requires Reached(but, s) && At(s, RENDER) == StJoin && s.m.connected && !JoinWaits(s)
    ensures Reached(but, v) && At(v, RENDER) == StSet && Only(s, v, RENDER) && v.m == s.m.(ev := Joined(s.m.ev))
  {
    v := Advance(but, s, RENDER, Ok, Local(StSet, s.m.(ev := Joined(s.m.ev))));
  }

  lemma ToCreate(but: Rule, s: State) returns (v: State)
    requires Reached(but, s) && At(s, RENDER) == StSet && s.m.connected
    ensures Reached(but, v) && At(v, RENDER) == StCreate && Only(s, v, RENDER)
    ensures v.m == s.m.(ev := s.m.ev.(running := true))
  {
    v := Advance(but, s, RENDER, Ok, Local(StCreate, s.m.(ev := s.m.ev.(running := true))));
  }

  lemma Create(but: Rule, s: State) returns (v: State)
    requires Reached(but, s) && At(s, RENDER) == StCreate && s.m.connected
    ensures Reached(but, v) && At(v, RENDER) == Idle && At(v, Ev(s.m.ev.created)) == Idle
    ensures forall u | u != RENDER && u != Ev(s.m.ev.created) :: At(v, u) == At(s, u)
    ensures v.m == s.m.(ev := s.m.ev.(joinable := true, created := s.m.ev.created + 1))
  {
    v := Take(but, s, Go(RENDER, Ok));
  }

  /** A session just begun: the gate is armed and nothing has been asked for. */
  predicate Begun(m: Shared) {
    Open(m, 0) && m.gate && m.mask == {} && m.h.requested == {} && m.h.arms == 1 && m.running
    && m.ev == EventThread(true, true, 1, 0) && m.ctrl.inbox == [] && m.net == Net(map[], {})
    && m.h.flips == [Exit(RENDER)]
  }

  lemma StartLooks(but: Rule)
    ensures Looks(but, START, START.m, Idle, Dead, Idle)
  {
    assert Leads(but, [], START, START);
  }

  /** What the call leaves of the flip and its unlocking: a session with the gate armed and nothing asked for. */
  predicate Entered(m: Shared, n: Shared, g: nat) {
    && Open(n, g) && n.gate && n.mask == {} && n.ctrl.inbox == []
    && n.net == m.net && n.ev == m.ev && n.running == m.running
    && n.h.flips == m.h.flips + [Exit(RENDER)] && n.h.requested == {} && n.h.arms == m.h.arms + 1
  }

  /** The answer to the latest hello comes, and the render thread makes the flip. */
  lemma Enters(but: Rule, s: State, g: nat, table: bool) returns (v: State)
    requires Reached(but, s) && At(s, RENDER) == Idle && Quiet(s.m, g)
    requires but == NoneAtFlip || (Others(s) && !InRequest(At(s, EVENT)) && !InRequest(At(s, INPUT)))
    ensures Reached(but, v) && At(v, RENDER) == (if table then ExBufs else ExCall) && Only(s, v, RENDER)
    ensures Entered(s.m, v.m, g)
  {
    v := ToFlip(but, s, g);
    v := Flip(but, v, g);
    v := Unlock(but, v, table);
  }

  lemma FirstFlip(but: Rule) returns (s: State)
    ensures Looks(but, s, s.m, ExCall, Dead, Idle)
    ensures Begun(s.m.(ev := EventThread(true, true, 1, 0))) && s.m.ev == EventThread(false, false, 0, 0)
  {
    StartLooks(but);
    s := Enters(but, START, 0, false);
  }

  /** The first session, with an event thread and nothing sent. */
  lemma FirstSession(but: Rule) returns (s: State)
    ensures Looks(but, s, s.m, Idle, Idle, Idle) && Begun(s.m)
  {
    s := FirstFlip(but);
    s := Callback(but, s);
    s := ToReap(but, s);
    s := ToCreate(but, s);
    s := Create(but, s);
  }

  // ---------- replying ----------

  /** The first half of a reply is out on generation g's socket. */
  function HalfSent(m: Shared, g: nat): Shared {
    m.(dataLock := Held(EVENT), net := Carry(m, Gen(g), Ok, ResourceItem(0)))
  }

  lemma ToLock(but: Rule, s: State) returns (v: State)
    requires Reached(but, s) && At(s, EVENT) == FdCheck(0, 1) && s.m.connected && !s.m.fallback
    ensures Reached(but, v) && At(v, EVENT) == FdLock(0, 1) && Only(s, v, EVENT) && v.m == s.m
  {
    v := Advance(but, s, EVENT, Ok, Local(FdLock(0, 1), s.m));
  }

  lemma ToEvent(but: Rule, s: State, g: nat) returns (v: State)
    requires Reached(but, s) && At(s, EVENT) == FdLock(0, 1) && s.m.connected && s.m.dataLock == Free
             && s.m.fd == Gen(g)
    ensures Reached(but, v) && At(v, EVENT) == FdEvent(0, 1, Gen(g)) && Only(s, v, EVENT)
    ensures v.m == s.m.(dataLock := Held(EVENT))
  {
    v := Advance(but, s, EVENT, Ok, Local(FdRead(0, 1), s.m.(dataLock := Held(EVENT))));
    v := Advance(but, v, EVENT, Ok, Local(FdEvent(0, 1, Gen(g)), v.m));
  }

  lemma ToHalf(but: Rule, s: State, g: nat) returns (v: State)
    requires Reached(but, s) && At(s, EVENT) == FdLock(0, 1) && s.m.connected && s.m.dataLock == Free
             && s.m.fd == Gen(g)
    ensures Reached(but, v) && At(v, EVENT) == FdFds(0, g) && Only(s, v, EVENT) && v.m == HalfSent(s.m, g)
  {
    v := ToEvent(but, s, g);
    v := Advance(but, v, EVENT, Ok, Local(FdFds(0, g), v.m.(net := Carry(v.m, Gen(g), Ok, ResourceItem(0)))));
  }

  lemma FdsLock(but: Rule, s: State, g: nat, items: seq<Item>) returns (v: State)
    requires Reached(but, s) && At(s, EVENT) == FdLock(0, 1) && s.m.connected && s.m.dataLock == Free
             && s.m.fd == Gen(g)
    requires Carried(s.m, g, items)
    ensures Reached(but, v) && At(v, EVENT) == FdFds(0, g) && Only(s, v, EVENT) && v.m == HalfSent(s.m, g)
    ensures Carried(v.m, g, items + [ResourceItem(0)])
  {
    CarryMore(s.m.(dataLock := Held(EVENT)), g, items, ResourceItem(0));
    v := ToHalf(but, s, g);
  }

  /** A request, up to the point where the first half of its reply is out. */
  lemma FirstHalf(but: Rule, s: State, g: nat, items: seq<Item>) returns (v: State)
    requires Reached(but, s) && s.m.connected && !s.m.fallback && At(s, EVENT) == Idle && Others(s)
    requires !InPush(At(s, RENDER)) && !InPush(At(s, INPUT)) && (but == RequestedOnce || 0 !in s.m.h.requested)
    requires s.m.dataLock == Free && s.m.fd == Gen(g) && Carried(s.m, g, items)
    ensures Reached(but, v) && At(v, EVENT) == FdFds(0, g) && Only(s, v, EVENT)
            && Carried(v.m, g, items + [ResourceItem(0)])
    ensures v.m == HalfSent(s.m.(h := s.m.h.(requested := s.m.h.requested + {0})), g)
  {
    v := Ask(but, s);
    v := ToLock(but, v);
    v := FdsLock(but, v, g, items);
  }

  /** The rest of the reply, and its record: the gate opens. */
  lemma ToMark(but: Rule, s: State, g: nat) returns (v: State)
    requires Reached(but, s) && At(s, EVENT) == FdFds(0, g) && s.m.connected && !s.m.fallback
    requires s.m.dataLock == Held(EVENT) && s.m.fd == Gen(g)
    ensures Reached(but, v) && At(v, EVENT) == MkCheck(0) && Only(s, v, EVENT)
    ensures v.m == s.m.(dataLock := Free, net := Carry(s.m, Gen(g), Ok, FdsItem(0)))
  {
    v := Advance(but, s, EVENT, Ok, Local(FdUnlock(0, true), s.m.(net := Carry(s.m, Gen(g), Ok, FdsItem(0)))));
    v := Advance(but, v, EVENT, Ok, Local(MkCheck(0), v.m.(dataLock := Free)));
  }

  lemma Mark(but: Rule, s: State) returns (v: State)
    requires Reached(but, s) && At(s, EVENT) == MkCheck(0) && s.m.connected && !s.m.fallback && s.m.dataLock == Free
    ensures Reached(but, v) && At(v, EVENT) == MkSet(0) && Only(s, v, EVENT) && v.m == s.m.(dataLock := Held(EVENT))
  {
    v := Advance(but, s, EVENT, Ok, Local(MkLock(0), s.m));
    v := Advance(but, v, EVENT, Ok, Local(MkSet(0), v.m.(dataLock := Held(EVENT))));
  }

  lemma Marked(but: Rule, s: State) returns (v: State)
    requires Reached(but, s) && At(s, EVENT) == MkSet(0) && s.m.connected && s.m.mask == {}
             && s.m.dataLock == Held(EVENT)
    ensures Reached(but, v) && At(v, EVENT) == Idle && Only(s, v, EVENT)
    ensures v.m == s.m.(dataLock := Free, gate := false, mask := v.m.mask)
  {
    var mask := s.m.mask + {0};
    assert AllSent(1, mask);
    v := Advance(but, s, EVENT, Ok, Local(MkUnlock, s.m.(mask := mask, gate := false)));
    v := Advance(but, v, EVENT, Ok, Local(Idle, v.m.(dataLock := Free)));
  }

  // ---------- the input thread ----------

  /** With the gate open, the input thread goes on without data_lock. */
  lemma ToRead(but: Rule, s: State) returns (v: State)
    requires Reached(but, s) && At(s, INPUT) == Idle && s.m.connected && !s.m.fallback && !s.m.gate
    ensures Reached(but, v) && At(v, INPUT) == InRead(false, false, s.m.h.arms) && Only(s, v, INPUT) && v.m == s.m
  {
    v := Start(but, s, INPUT, CallInput);
    v := Advance(but, v, INPUT, Ok, Local(InGate(false), v.m));
    v := Advance(but, v, INPUT, Ok, Local(InRead(false, false, s.m.h.arms), v.m));
  }

  lemma ReadAndSend(but: Rule, s: State, g: nat, arm: nat) returns (v: State)
    requires Reached(but, s) && At(s, INPUT) == InRead(false, false, arm) && s.m.connected && s.m.fd == Gen(g)
    requires but == FreshSample || arm == s.m.h.arms
    ensures Reached(but, v) && Only(s, v, INPUT) && v.m == s.m.(net := Carry(s.m, Gen(g), Ok, InputItem))
  {
    v := Advance(but, s, INPUT, Ok, Local(InSend(false, false, arm, Gen(g)), s.m));
    v := Advance(but, v, INPUT, Ok, Local(Idle, v.m.(net := Carry(v.m, Gen(g), Ok, InputItem))));
  }

  // ---------- the end of a session ----------

  function Testing(m: Shared, t: Tid): Shared {
    m.(stateLock := Held(t), fallback := true, h := m.h.(flips := m.h.flips + [Enter(t)]))
  }

  lemma TearLock(but: Rule, s: State, t: Tid) returns (v: State)
    requires Reached(but, s) && t.Ext? && At(s, t) == Idle && s.m.connected && s.m.stateLock == Free
    ensures Reached(but, v) && At(v, t) == EnTest(RIdle) && Only(s, v, t) && v.m == s.m.(stateLock := Held(t))
  {
    v := Start(but, s, t, CallEnter);
    v := Advance(but, v, t, Ok, Local(EnTest(RIdle), v.m.(stateLock := Held(t))));
  }

  lemma TearTest(but: Rule, s: State, t: Tid) returns (v: State)
    requires Reached(but, s) && t.Ext? && At(s, t) == Idle && s.m.connected && !s.m.fallback && s.m.stateLock == Free
    ensures Reached(but, v) && At(v, t) == EnFree(RIdle) && Only(s, v, t) && v.m == Testing(s.m, t)
  {
    v := TearLock(but, s, t);
    v := Advance(but, v, t, Ok, Local(EnFree(RIdle), Testing(s.m, t)));
  }

  function Freeing(m: Shared, t: Tid): Shared {
    m.(dataLock := Held(t), h := m.h.(freed := m.h.freed + 1))
  }

  lemma TearFree(but: Rule, s: State, t: Tid) returns (v: State)
    requires Reached(but, s) && At(s, t) == EnFree(RIdle) && s.m.connected
    ensures Reached(but, v) && At(v, t) == EnData(RIdle) && Only(s, v, t)
    ensures v.m == s.m.(h := s.m.h.(freed := s.m.h.freed + 1))
  {
    v := Advance(but, s, t, Ok, Local(EnData(RIdle), s.m.(h := s.m.h.(freed := s.m.h.freed + 1))));
  }

  lemma TearTake(but: Rule, s: State, t: Tid) returns (v: State)
    requires Reached(but, s) && At(s, t) == EnData(RIdle) && s.m.connected && s.m.dataLock == Free
    ensures Reached(but, v) && At(v, t) == EnClose(RIdle) && Only(s, v, t) && v.m == s.m.(dataLock := Held(t))
  {
    v := Advance(but, s, t, Ok, Local(EnClose(RIdle), s.m.(dataLock := Held(t))));
  }

  function Closing(m: Shared): Shared {
    m.(fd := NoSocket, h := m.h.(torn := m.h.torn + [m.gen]))
  }

  function Opening(m: Shared): Shared {
    m.(gate := true, mask := {}, gen := m.gen + 1, fd := Gen(m.gen + 1),
       ctrl := m.ctrl.(hellos := m.ctrl.hellos + {m.gen + 1}), h := m.h.(arms := m.h.arms + 1))
  }

  lemma TearClose(but: Rule, s: State, t: Tid) returns (v: State)
    requires Reached(but, s) && At(s, t) == EnClose(RIdle) && s.m.connected
    ensures Reached(but, v) && At(v, t) == EnOpen(RIdle) && Only(s, v, t) && v.m == Closing(s.m)
  {
    v := Advance(but, s, t, Ok, Local(EnOpen(RIdle), Closing(s.m)));
  }

  lemma TearOpen(but: Rule, s: State, t: Tid) returns (v: State)
    requires Reached(but, s) && At(s, t) == EnOpen(RIdle) && s.m.connected
    ensures Reached(but, v) && At(v, t) == EnUnData(RIdle) && Only(s, v, t) && v.m == Opening(s.m)
  {
    v := Advance(but, s, t, Ok, Local(EnUnData(RIdle), Opening(s.m)));
  }

  function Calling(m: Shared, t: Tid): Shared {
    m.(ev := m.ev.(running := false), h := m.h.(called := m.h.called + multiset{Enter(t)}))
  }

  lemma TearUnlock(but: Rule, s: State, t: Tid) returns (v: State)
    requires Reached(but, s) && At(s, t) == EnUnData(RIdle) && s.m.connected
    ensures Reached(but, v) && At(v, t) == EnCall(RIdle) && Only(s, v, t)
            && v.m == s.m.(dataLock := Free, stateLock := Free)
  {
    v := Advance(but, s, t, Ok, Local(EnUnState(RIdle), s.m.(dataLock := Free)));
    v := Advance(but, v, t, Ok, Local(EnCall(RIdle), v.m.(stateLock := Free)));
  }

  lemma TearCall(but: Rule, s: State, t: Tid) returns (v: State)
    requires Reached(but, s) && At(s, t) == EnCall(RIdle) && s.m.connected
    ensures Reached(but, v) && At(v, t) == Idle && Only(s, v, t) && v.m == Calling(s.m, t)
  {
    v := Advance(but, s, t, Ok, Local(Idle, Calling(s.m, t)));
  }

  /** What enter_fallback by `t` leaves, the hello delivered and the callback made. */
  function Torn(m: Shared, t: Tid): Shared {
    Calling(Opening(Closing(Freeing(Testing(m, t), t))).(dataLock := Free, stateLock := Free), t)
  }

  lemma TearDown(but: Rule, s: State, t: Tid) returns (v: State)
    requires Reached(but, s) && t.Ext? && At(s, t) == Idle
    requires s.m.connected && !s.m.fallback && s.m.stateLock == Free && s.m.dataLock == Free
    ensures Reached(but, v) && At(v, t) == EnClose(RIdle) && Only(s, v, t) && v.m == Freeing(Testing(s.m, t), t)
  {
    v := TearTest(but, s, t);
    v := TearFree(but, v, t);
    v := TearTake(but, v, t);
  }

  lemma TearUp(but: Rule, s: State, t: Tid) returns (v: State)
    requires Reached(but, s) && At(s, t) == EnClose(RIdle) && s.m.connected
    ensures Reached(but, v) && At(v, t) == EnCall(RIdle) && Only(s, v, t)
    ensures v.m == Opening(Closing(s.m)).(dataLock := Free, stateLock := Free)
  {
    v := TearClose(but, s, t);
    v := TearOpen(but, v, t);
    v := TearUnlock(but, v, t);
  }

  lemma Tear(but: Rule, s: State, t: Tid) returns (v: State)
    requires Reached(but, s) && t.Ext? && At(s, t) == Idle
    requires s.m.connected && !s.m.fallback && s.m.stateLock == Free && s.m.dataLock == Free
    ensures Reached(but, v) && At(v, t) == Idle && Only(s, v, t) && v.m == Torn(s.m, t)
  {
    v := TearDown(but, s, t);
    v := TearUp(but, v, t);
    v := TearCall(but, v, t);
  }

  // ---------- parted streams ----------

  lemma CarryMore(m: Shared, g: nat, items: seq<Item>, item: Item)
    requires m.fd == Gen(g) && Carried(m, g, items)
    ensures Carried(m.(net := Carry(m, Gen(g), Ok, item)), g, items + [item])
  {
  }

  /** The last thing sent parts a reply. */
  lemma PartedRun(but: Rule, s: State, g: nat, items: seq<Item>, item: Item)
    requires Reached(but, s) && Carried(s.m, g, items + [ResourceItem(0)] + [item]) && !item.FdsItem?
    ensures exists acts, v :: Leads(but, acts, START, v) && v in Run(ONE, START, acts) && !AllPaired(v)
  {
    var acts :| Leads(but, acts, START, s);
    LeadsVisited(but, acts, START, s);
    PartedAt(Stream(s.m.net, g), |items|, g in s.m.net.broken || SendingHalves(s, g));
    assert !AllPaired(s);
  }

  const REPLY := [ResourceItem(0)] + [FdsItem(0)]

  lemma ReachReply(but: Rule) returns (s: State)
    ensures Looks(but, s, s.m, Idle, MkCheck(0), Idle) && Open(s.m, 0) && s.m.mask == {} && s.m.h.requested == {0}
    ensures s.m.ev == EventThread(true, true, 1, 0) && s.m.ctrl.inbox == [] && s.m.net.streams.Keys == {0}
    ensures Carried(s.m, 0, REPLY) && s.m.net.broken == {} && s.m.running
  {
    s := FirstSession(but);
    s := FirstHalf(but, s, 0, []);
    assert [] + [ResourceItem(0)] == [ResourceItem(0)];
    CarryMore(s.m, 0, [ResourceItem(0)], FdsItem(0));
    s := ToMark(but, s, 0);
  }

  /** The service asked for once, answered and recorded: the gate is open. */
  lemma ReachOpen(but: Rule) returns (s: State)
    ensures Looks(but, s, s.m, Idle, Idle, Idle) && Open(s.m, 0) && !s.m.gate && s.m.h.requested == {0}
    ensures s.m.ev == EventThread(true, true, 1, 0) && s.m.ctrl.inbox == [] && s.m.net.streams.Keys == {0}
    ensures Carried(s.m, 0, REPLY) && s.m.net.broken == {} && s.m.running
  {
    s := ReachReply(but);
    s := Mark(but, s);
    s := Marked(but, s);
  }

  /** Asked for twice: an input event goes between the halves of the second reply. */
  lemma PartedByRepeat() returns (s: State)
    ensures Reached(RequestedOnce, s) && Carried(s.m, 0, REPLY + [ResourceItem(0)] + [InputItem])
  {
    s := ReachOpen(RequestedOnce);
    s := FirstHalf(RequestedOnce, s, 0, REPLY);
    s := ToRead(RequestedOnce, s);
    CarryMore(s.m, 0, REPLY + [ResourceItem(0)], InputItem);
    s := ReadAndSend(RequestedOnce, s, 0, s.m.h.arms);
  }

  lemma RequestOutlives(but: Rule) returns (s: State)
    ensures Looks(but, s, s.m, Idle, FdLock(0, 1), Idle) && Quiet(s.m, 1) && s.m.net == Net(map[], {})
  {
    s := FirstSession(but);
    s := Ask(but, s);
    s := ToLock(but, s);
    s := Tear(but, s, INPUT);
  }

  /**
   A request passes its check of fallback, the session ends, and the render thread is about to make the next flip:
   handle_resource_request races the re-arm. No rule has been broken up to here.
   */
  lemma RequestRacesTheFlip(but: Rule) returns (s: State)
    ensures Looks(but, s, s.m, ExTest(1), FdLock(0, 1), Idle)
    ensures s.m.fallback && s.m.connected && s.m.dataLock == Free && s.m.fd == Gen(1) && s.m.net == Net(map[], {})
  {
    s := RequestOutlives(but);
    s := ToFlip(but, s, 1);
  }

  lemma PushTable(but: Rule, s: State, g: nat) returns (v: State)
    requires Reached(but, s) && At(s, RENDER) == ExBufs && s.m.connected && s.m.fd == Gen(g)
    ensures Reached(but, v) && Only(s, v, RENDER) && v.m == s.m.(net := Carry(s.m, Gen(g), Ok, BufsItem))
  {
    v := Advance(but, s, RENDER, Ok, Local(ExInfos, s.m.(net := Carry(s.m, Gen(g), Ok, BufsItem))));
  }

  /** The flip made with the request under way: the table goes between the halves of the reply. */
  lemma PartedByFlip() returns (s: State)
    ensures Reached(NoneAtFlip, s) && Carried(s.m, 1, [] + [ResourceItem(0)] + [BufsItem])
  {
    s := RequestRacesTheFlip(NoneAtFlip);
    s := Flip(NoneAtFlip, s, 1);
    s := Unlock(NoneAtFlip, s, true);
    s := FdsLock(NoneAtFlip, s, 1, []);
    CarryMore(s.m, 1, [] + [ResourceItem(0)], BufsItem);
    s := PushTable(NoneAtFlip, s, 1);
  }

  /** A gate sampled in one session, and still to be used in the next. */
  lemma ReachStaleSample(but: Rule) returns (s: State, arm: nat)
    ensures Looks(but, s, s.m, ExTest(1), Idle, InRead(false, false, arm)) && s.m.connected && s.m.fallback
    ensures s.m.dataLock == Free && s.m.fd == Gen(1) && s.m.gen == 1 && Carried(s.m, 1, [])
  {
    s := ReachOpen(but);
    s := ToRead(but, s);
    arm := s.m.h.arms;
    s := Tear(but, s, RENDER);
    s := ToFlip(but, s, 1);
  }

  lemma PartedByStaleSample() returns (s: State)
    ensures Reached(FreshSample, s) && Carried(s.m, 1, [] + [ResourceItem(0)] + [InputItem])
  {
    var but, arm := FreshSample, 0;
    s, arm := ReachStaleSample(but);
    s := Flip(but, s, 1);
    s := Unlock(but, s, false);
    s := FirstHalf(but, s, 1, []);
    CarryMore(s.m, 1, [] + [ResourceItem(0)], InputItem);
    s := ReadAndSend(but, s, 1, arm);
  }

  /** No rule can be spared: for each, some run keeps the other two and parts the halves of a reply. */
  lemma EachRuleNeeded(but: Rule)
    ensures exists acts, v :: Leads(but, acts, START, v) && v in Run(ONE, START, acts) && !AllPaired(v)
  {
    match but
    case RequestedOnce =>
      var s := PartedByRepeat();
      PartedRun(but, s, 0, REPLY, InputItem);
    case NoneAtFlip =>
      var s := PartedByFlip();
      PartedRun(but, s, 1, [], BufsItem);
    case FreshSample =>
      var s := PartedByStaleSample();
      PartedRun(but, s, 1, [], InputItem);
  }

  // ---------- disconnect under an input thread ----------

  /** A thread that has been told to leaves its loop. */
  lemma Leave(but: Rule, s: State, t: Tid) returns (v: State)
    requires Reached(but, s) && At(s, t) == Idle && ((t.Ev? && !s.m.ev.running) || (t == RENDER && !s.m.running))
    ensures Reached(but, v) && At(v, t) == Dead && Only(s, v, t) && v.m == s.m
  {
    v := Take(but, s, Finish(t));
  }

  /** nativeStop, up to the join of the render thread. */
  lemma StopRender(but: Rule, s: State) returns (v: State)
    requires Reached(but, s) && At(s, CONTROLLER) == Idle && At(s, RENDER) == Idle && s.m.connected && s.m.running
    ensures Reached(but, v) && At(v, CONTROLLER) == NsJoin && At(v, RENDER) == Dead && v.m == s.m.(running := false)
    ensures forall u | u != RENDER && u != CONTROLLER :: At(v, u) == At(s, u)
  {
    v := Start(but, s, CONTROLLER, CallStop);
    v := Advance(but, v, CONTROLLER, Ok, Local(NsJoin, v.m.(running := false)));
    v := Leave(but, v, RENDER);
  }

  lemma StopChecks(but: Rule, s: State) returns (v: State)
    requires Reached(but, s) && At(s, CONTROLLER) == NsJoin && At(s, RENDER) == Dead
    ensures Reached(but, v) && At(v, CONTROLLER) == DcCheck && Only(s, v, CONTROLLER) && v.m == s.m
  {
    v := Advance(but, s, CONTROLLER, Ok, Local(DcCheck, s.m));
  }

  lemma StopAsked(but: Rule, s: State) returns (v: State)
    requires Reached(but, s) && At(s, CONTROLLER) == DcCheck && s.m.connected
    ensures Reached(but, v) && At(v, CONTROLLER) == DcStop && Only(s, v, CONTROLLER) && v.m == s.m
  {
    v := Advance(but, s, CONTROLLER, Ok, Local(DcStop, s.m));
  }

  lemma StopEvents(but: Rule, s: State) returns (v: State)
    requires Reached(but, s) && At(s, CONTROLLER) == DcStop && At(s, EVENT) == Idle && s.m.connected
    ensures Reached(but, v) && At(v, CONTROLLER) == DcJoin && At(v, EVENT) == Dead
    ensures v.m == s.m.(ev := s.m.ev.(running := false))
    ensures forall u | u != EVENT && u != CONTROLLER :: At(v, u) == At(s, u)
  {
    v := Advance(but, s, CONTROLLER, Ok, Local(DcJoin, s.m.(ev := s.m.ev.(running := false))));
    v := Leave(but, v, EVENT);
  }

  lemma StopJoined(but: Rule, s: State) returns (v: State)
    requires Reached(but, s) && At(s, CONTROLLER) == DcJoin && At(s, EVENT) == Dead && s.m.connected
    requires s.m.ev == EventThread(false, true, 1, 0)
    ensures Reached(but, v) && At(v, CONTROLLER) == DcDisconnect && Only(s, v, CONTROLLER)
  {
    v := Advance(but, s, CONTROLLER, Ok, Local(DcDisconnect, s.m.(ev := EventThread(false, false, 1, 1))));
  }

  lemma ToInSend(but: Rule, s: State, g: nat) returns (v: State)
    requires Reached(but, s) && At(s, INPUT) == Idle && Open(s.m, g) && !s.m.gate
    ensures Reached(but, v) && At(v, INPUT) == InSend(false, false, s.m.h.arms, Gen(g)) && Only(s, v, INPUT)
            && v.m == s.m
  {
    v := ToRead(but, s);
    v := Advance(but, v, INPUT, Ok, Local(InSend(false, false, s.m.h.arms, Gen(g)), v.m));
  }

  lemma ReachStop(but: Rule) returns (s: State)
    ensures Reached(but, s) && At(s, CONTROLLER) == NsJoin && At(s, RENDER) == Dead && At(s, EVENT) == Idle
    ensures At(s, INPUT).InSend? && s.m.connected && s.m.ev == EventThread(true, true, 1, 0)
  {
    s := ReachOpen(but);
    s := ToInSend(but, s, 0);
    s := StopRender(but, s);
  }

  lemma ReachAsked(but: Rule) returns (s: State)
    ensures Reached(but, s) && At(s, CONTROLLER) == DcStop && At(s, EVENT) == Idle && At(s, INPUT).InSend?
    ensures s.m.connected && s.m.ev == EventThread(true, true, 1, 0)
  {
    s := ReachStop(but);
    s := StopChecks(but, s);
    s := StopAsked(but, s);
  }

  lemma ReachDisconnect(but: Rule) returns (s: State)
    ensures Reached(but, s) && At(s, CONTROLLER) == DcDisconnect && At(s, INPUT).InSend?
  {
    s := ReachAsked(but);
    s := StopEvents(but, s);
    s := StopJoined(but, s);
  }

  /** nativeStop frees the context while an input thread is about to send on it. */
  lemma DisconnectUnderSend(but: Rule)
    ensures exists acts, v :: Leads(but, acts, START, v) && v in Run(ONE, START, acts)
                              && At(v, CONTROLLER) == DcDisconnect && At(v, INPUT).InSend?
  {
    var s := ReachDisconnect(but);
    var acts :| Leads(but, acts, START, s);
    LeadsVisited(but, acts, START, s);
  }
}
