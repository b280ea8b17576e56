/**
 The table of a session is two sends without data_lock. The second always follows the first as long as no send fails;
 but another thread's send can come between them, and the second can go to the next connection's socket.
 */
module Tables {
  import opened Sessions
  import opened Teardown
  import opened Lifecycle
  import opened Instances
  import opened Undisciplined
  import opened EventRuns

  // ---------- every table has its records ----------

  /** Headers of tables, and their records, among the items of a stream. */
  function Headers(st: seq<Item>): nat {
    if st == [] then 0 else Headers(st[..|st| - 1]) + if st[|st| - 1].BufsItem? then 1 else 0
  }

  function Records(st: seq<Item>): nat {
    if st == [] then 0 else Records(st[..|st| - 1]) + if st[|st| - 1].InfosItem? then 1 else 0
  }

  lemma OneMoreItem(st: seq<Item>, item: Item)
    ensures Headers(st + [item]) == Headers(st) + if item.BufsItem? then 1 else 0
    ensures Records(st + [item]) == Records(st) + if item.InfosItem? then 1 else 0
  {
    assert (st + [item])[..|st|] == st;
  }

  /** The socket in place is of a generation announced, and later ones have carried nothing. */
  ghost predicate Ahead(m: Shared) {
    (m.fd.Gen? ==> m.fd.g <= m.gen) && forall g: nat | g > m.gen :: g !in m.net.streams
  }

  /** On the socket in place, if no send on it has failed, at most `owed` tables are without their records. */
  predicate TablesOk(m: Shared, owed: nat) {
    m.fd.Gen? && m.fd.g !in m.net.broken ==> Headers(Stream(m.net, m.fd.g)) <= Records(Stream(m.net, m.fd.g)) + owed
  }

  function Owes(p: Pc): nat { if p.ExInfos? then 1 else 0 }

  /** A step keeps both, besides the `e` tables that other threads owe. */
  ghost predicate TableStep(m: Shared, p: Pc, e: nat, r: Local) {
    Ahead(m) && TablesOk(m, e + Owes(p)) ==> Ahead(r.m) && TablesOk(r.m, e + Owes(r.p))
  }

  /** One send, on the socket in place, on another or on none. */
  lemma CarryTables(m: Shared, fd: Socket, out: Outcome, item: Item, e: nat)
    requires Ahead(m) && TablesOk(m, e)
    ensures var n := m.(net := Carry(m, fd, out, item));
            && Ahead(n)
            && TablesOk(n, e + if item.BufsItem? && Sends(m, fd, out) then 1 else 0)
            && (item.InfosItem? && Sends(m, fd, out) && e > 0 ==> TablesOk(n, e - 1))
            && (fd == m.fd && !Sends(m, fd, out) ==> TablesOk(n, 0))
  {
    if fd.Gen? {
      OneMoreItem(Stream(m.net, fd.g), item);
    }
  }

  lemma TablesInput(m: Shared, t: Tid, p: Pc, out: Outcome, e: nat)
    requires InInput(p)
    ensures TableStep(m, p, e, ExecInput(m, t, p, out))
  {
    if p.InSend? && Ahead(m) && TablesOk(m, e) {
      CarryTables(m, p.fd, out, InputItem, e);
    }
  }

  lemma TablesFds(m: Shared, t: Tid, p: Pc, out: Outcome, e: nat)
    requires InFds(p)
    ensures TableStep(m, p, e, ExecFds(m, t, p, out))
  {
    if Ahead(m) && TablesOk(m, e) {
      if p.FdEvent? {
        CarryTables(m, p.fd, out, if p.fds > 0 then ResourceItem(p.svc) else InputItem, e);
      } else if p.FdFds? {
        CarryTables(m, Gen(p.gen), out, FdsItem(p.svc), e);
      }
    }
  }

  lemma TablesMark(c: Config, m: Shared, t: Tid, p: Pc, e: nat)
    requires InMark(p)
    ensures TableStep(m, p, e, ExecMark(c, m, t, p))
  {
  }

  lemma TablesEnter(c: Config, m: Shared, t: Tid, p: Pc, out: Outcome, e: nat)
    requires InEnter(p)
    ensures TableStep(m, p, e, ExecEnter(c, m, t, p, out))
  {
    if p.EnOpen? && Ahead(m) {
      assert Stream(m.net, m.gen + 1) == [];
    }
  }

  lemma TablesExit(c: Config, m: Shared, t: Tid, p: Pc, out: Outcome, e: nat)
    requires InExit(p)
    ensures TableStep(m, p, e, ExecExit(c, m, t, p, out))
  {
    if Ahead(m) && TablesOk(m, e + Owes(p)) {
      if p.ExBufs? {
        CarryTables(m, m.fd, out, BufsItem, e);
      } else if p.ExInfos? {
        CarryTables(m, m.fd, out, InfosItem, e + 1);
      }
    }
  }

  lemma TablesStart(m: Shared, p: Pc, out: Outcome, e: nat)
    requires InStart(p)
    ensures TableStep(m, p, e, ExecStart(m, p, out))
  {
  }

  lemma TablesStop(m: Shared, t: Tid, p: Pc, e: nat)
    requires InStop(p)
    ensures TableStep(m, p, e, ExecStop(m, t, p))
  {
  }

  lemma LocalTables(c: Config, m: Shared, t: Tid, p: Pc, out: Outcome, e: nat, r: Local)
    requires p != Idle && p != Dead && r == Exec(c, m, t, p, out)
    ensures TableStep(m, p, e, r)
  {
    if InInput(p) {
      TablesInput(m, t, p, out, e);
    } else if InFds(p) {
      TablesFds(m, t, p, out, e);
    } else if InMark(p) {
      TablesMark(c, m, t, p, e);
    } else if InEnter(p) {
      TablesEnter(c, m, t, p, out, e);
      EnterIs(c, m, t, p, out);
    } else if InExit(p) {
      TablesExit(c, m, t, p, out, e);
      ExitIs(c, m, t, p, out);
    } else if InStart(p) {
      TablesStart(m, p, out, e);
      StartIs(c, m, t, p, out);
    } else {
      TablesStop(m, t, p, e);
      StopIs(c, m, t, p, out);
    }
  }

  ghost predicate TablesInv(s: State) {
    Ahead(s.m) && TablesOk(s.m, Owes(At(s, RENDER)))
  }

  /** What the others owe: only the render thread pushes tables. */
  function OwedElsewhere(s: State, t: Tid): nat { if t == RENDER then 0 else Owes(At(s, RENDER)) }

  lemma TablesGo(s: State, t: Tid, r: Local)
    requires TablesInv(s) && RoleOk(t, At(s, t)) && At(s, t) != Dead
    requires TableStep(s.m, At(s, t), OwedElsewhere(s, t), r)
    requires Numbered(s) && s.m.ev.created <= r.m.ev.created && t in s.pc && RoleOk(t, r.p)
    ensures TablesInv(After(s, t, r))
  {
    assert TablesOk(s.m, OwedElsewhere(s, t) + Owes(At(s, t)));
  }

  lemma TablesOther(c: Config, s: State, a: Act)
    requires TablesInv(s) && Enabled(c, s, a) && !a.Go?
    ensures TablesInv(Apply(c, s, a))
  {
  }

  lemma TablesEvent(c: Config, s: State, e: Event)
    requires SourceRoles(c) && LifeInv(s) && TablesInv(s) && Possible(c, s, e)
    ensures TablesInv(Becomes(c, s, e))
  {
    EventLife(c, s, e);
    match e
    case Step(a) =>
      if a.Go? {
        var r := Exec(c, s.m, a.t, At(s, a.t), a.out);
        assert RoleOk(a.t, At(s, a.t)) && RoleOk(a.t, At(Becomes(c, s, e), a.t));
        LocalLocks(c, s.m, a.t, At(s, a.t), a.out);
        LocalTables(c, s.m, a.t, At(s, a.t), a.out, OwedElsewhere(s, a.t), r);
        TablesGo(s, a.t, r);
      } else {
        TablesOther(c, s, a);
      }
    case Connect =>
    case NativeStart =>
  }

  lemma {:induction false} TablesRun(c: Config, s: State, es: seq<Event>)
    requires SourceRoles(c) && LifeInv(s) && TablesInv(s)
    ensures forall v | v in Life(c, s, es) :: TablesInv(v)
    decreases |es|
  {
    if es != [] && Possible(c, s, es[0]) {
      EventLife(c, s, es[0]);
      TablesEvent(c, s, es[0]);
      TablesRun(c, Becomes(c, s, es[0]), es[1..]);
    }
  }

  /** Whenever the render thread is not between the two, every table on the socket in place has had its records sent. */
  lemma TablesFollowed(c: Config, ext: set<Tid>, es: seq<Event>, s: State, g: nat)
    requires SourceRoles(c) && Natives(ext) && s in Life(c, Created(c, ext), es)
    requires s.m.fd == Gen(g) && g !in s.m.net.broken && !At(s, RENDER).ExInfos?
    ensures Headers(Stream(s.m.net, g)) <= Records(Stream(s.m.net, g))
  {
    CreatedLife(c, ext);
    TablesRun(c, Created(c, ext), es);
  }

  // ---------- parted tables ----------

  /** The session has begun, and the table is next. */
  lemma TableNext() returns (s: State)
    ensures Looks(ANY, s, s.m, ExBufs, Dead, Idle) && Open(s.m, 0) && s.m.gate
    ensures s.m.ev == EventThread(false, false, 0, 0)
    ensures s.m.net == Net(map[], {}) && s.m.h.flips == [Exit(RENDER)] && s.m.h.requested == {}
  {
    StartLooks(ANY);
    s := Enters(ANY, START, 0, true);
  }

  /** The session has begun, and the table's header is out. */
  lemma HeaderSent() returns (s: State)
    ensures Looks(ANY, s, s.m, ExInfos, Dead, Idle) && Open(s.m, 0) && s.m.gate
    ensures s.m.ev == EventThread(false, false, 0, 0)
    ensures Carried(s.m, 0, [BufsItem]) && s.m.net.broken == {} && 1 !in s.m.net.streams
    ensures s.m.h.flips == [Exit(RENDER)] && s.m.h.requested == {}
  {
    s := TableNext();
    CarryMore(s.m, 0, [], BufsItem);
    s := Advance(ANY, s, RENDER, Ok, Local(ExInfos, s.m.(net := Carry(s.m, Gen(0), Ok, BufsItem))));
  }

  /** An input event in a session with the gate closed. */
  lemma InputToLock(s: State, g: nat) returns (v: State)
    requires Reached(ANY, s) && At(s, INPUT) == Idle && Open(s.m, g) && s.m.gate
    ensures Reached(ANY, v) && At(v, INPUT) == InLock(false) && Only(s, v, INPUT) && v.m == s.m
  {
    v := Undisciplined.Start(ANY, s, INPUT, CallInput);
    v := Advance(ANY, v, INPUT, Ok, Local(InGate(false), v.m));
    v := Advance(ANY, v, INPUT, Ok, Local(InLock(false), v.m));
  }

  lemma InputReads(s: State, g: nat) returns (v: State)
    requires Reached(ANY, s) && At(s, INPUT) == InLock(false) && Open(s.m, g)
    ensures Reached(ANY, v) && At(v, INPUT) == InSend(false, true, s.m.h.arms, Gen(g)) && Only(s, v, INPUT)
    ensures v.m == s.m.(dataLock := Held(INPUT))
  {
    v := Advance(ANY, s, INPUT, Ok, Local(InRead(false, true, s.m.h.arms), s.m.(dataLock := Held(INPUT))));
    v := Advance(ANY, v, INPUT, Ok, Local(InSend(false, true, s.m.h.arms, Gen(g)), v.m));
  }

  lemma InputSends(s: State, g: nat) returns (v: State)
    requires Reached(ANY, s) && At(s, INPUT) == InLock(false) && Open(s.m, g)
    ensures Reached(ANY, v) && At(v, INPUT) == InUnlock(false, true) && Only(s, v, INPUT)
    ensures v.m == s.m.(dataLock := Held(INPUT), net := Carry(s.m, Gen(g), Ok, InputItem))
  {
    v := InputReads(s, g);
    v := Advance(ANY, v, INPUT, Ok, Local(InUnlock(false, true), v.m.(net := Carry(v.m, Gen(g), Ok, InputItem))));
  }

  lemma RecordsSent(s: State, g: nat) returns (v: State)
    requires Reached(ANY, s) && At(s, RENDER) == ExInfos && s.m.connected && s.m.fd == Gen(g)
    ensures Reached(ANY, v) && Only(s, v, RENDER) && v.m == s.m.(net := Carry(s.m, Gen(g), Ok, InfosItem))
  {
    v := Advance(ANY, s, RENDER, Ok, Local(ExCall, s.m.(net := Carry(s.m, Gen(g), Ok, InfosItem))));
  }

  /**
   No request has been made and every send succeeds, and still an input event sent right after the flip goes between
   the header of the table and its records.
   */
  lemma InputPartsTable() returns (s: State)
    ensures Happens(s) && s.m.h.requested == {} && s.m.net.broken == {}
    ensures Stream(s.m.net, 0) == [BufsItem] + [InputItem] + [InfosItem]
  {
    s := HeaderSent();
    s := InputToLock(s, 0);
    CarryMore(s.m.(dataLock := Held(INPUT)), 0, [BufsItem], InputItem);
    s := InputSends(s, 0);
    CarryMore(s.m, 0, [BufsItem] + [InputItem], InfosItem);
    s := RecordsSent(s, 0);
    ReachedHappens(s);
  }

  /** The session ends between the two sends: the records go out on the socket of the next connection. */
  lemma TableInTwoStreams() returns (s: State)
    ensures Happens(s) && s.m.fallback && s.m.h.flips == [Exit(RENDER), Enter(INPUT)] && s.m.net.broken == {}
    ensures Stream(s.m.net, 0) == [BufsItem] && Stream(s.m.net, 1) == [InfosItem]
  {
    s := HeaderSent();
    s := Tear(ANY, s, INPUT);
    assert Carried(s.m, 1, []);
    CarryMore(s.m, 1, [], InfosItem);
    s := RecordsSent(s, 1);
    ReachedHappens(s);
  }
}
