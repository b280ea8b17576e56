/**
 Every call ends: without new calls or messages a schedule is short, and when it can go no further no call is
 under way.
 */
module Progress {
  import opened Sessions
  import opened Teardown
  import opened Lifecycle
  import opened Instances

  /** How many steps a thread can still make before it is in its own loop and, if told to, out of it. */
  function Rank(p: Pc): nat {
    match p
    case Dead => 0
    case Idle => 1
    case InCheck(r) => 15 + After(r)
    case InGate(r) => 14 + After(r)
    case InLock(r) => 13 + After(r)
    case InRead(r, _, _) => 12 + After(r)
    case InSend(r, _, _, _) => 11 + After(r)
    case InUnlock(r, _) => 10 + After(r)
    case FdCheck(_, _) => 20
    case FdLock(_, _) => 19
    case FdRead(_, _) => 18
    case FdEvent(_, _, _) => 17
    case FdFds(_, _) => 16
    case FdUnlock(_, _) => 15
    case MkCheck(_) => 5
    case MkLock(_) => 4
    case MkSet(_) => 3
    case MkUnlock => 2
    case EnLock(r) => 9 + Resumed(r)
    case EnTest(r) => 8 + Resumed(r)
    case EnLost(r) => 1 + Resumed(r)
    case EnFree(r) => 7 + Resumed(r)
    case EnData(r) => 6 + Resumed(r)
    case EnClose(r) => 5 + Resumed(r)
    case EnOpen(r) => 4 + Resumed(r)
    case EnUnData(r) => 3 + Resumed(r)
    case EnUnState(r) => 2 + Resumed(r)
    case EnCall(r) => 1 + Resumed(r)
    case ExCheck => 38
    case ExRecv => 37
    case ExLock(_) => 36
    case ExTest(_) => 35
    case ExUnlock(_) => 34
    case ExBufs => 33
    case ExInfos => 32
    case ExCall => 22
    case StCheck => 6
    case StJoin => 5
    case StSet => 4
    case StCreate => 3
    case NsFlag => 8
    case NsJoin => 7
    case DcCheck => 6
    case DcStop => 5
    case DcJoin => 4
    case DcDisconnect => 3
    case DcConnect => 2
  }

  /** Where push_input_event and enter_fallback continue. */
  function After(starting: bool): nat { if starting then 6 else 1 }

  function Resumed(r: Ret): nat {
    match r
    case RIdle => 1
    case RMark(_) => 5
    case RCall => 22
    case RStart => 6
  }

  /** A step brings the thread closer to its end, by two when it makes another thread. */
  predicate Closer(m: Shared, p: Pc, r: Local) {
    Rank(r.p) + (if r.m.ev.created > m.ev.created then 1 else 0) < Rank(p)
  }

  lemma CloserInput(m: Shared, t: Tid, p: Pc, out: Outcome)
    requires InInput(p)
    ensures Closer(m, p, ExecInput(m, t, p, out))
  {
  }

  lemma CloserFds(m: Shared, t: Tid, p: Pc, out: Outcome)
    requires InFds(p)
    ensures Closer(m, p, ExecFds(m, t, p, out))
  {
  }

  lemma CloserMark(c: Config, m: Shared, t: Tid, p: Pc)
    requires InMark(p)
    ensures Closer(m, p, ExecMark(c, m, t, p))
  {
  }

  lemma CloserReturn(c: Config, m: Shared, t: Tid, p: Pc, out: Outcome)
    requires p.EnLost? || p.EnCall?
    ensures Closer(m, p, ExecEnter(c, m, t, p, out))
  {
  }

  lemma CloserTaking(c: Config, m: Shared, t: Tid, p: Pc, out: Outcome)
    requires p.EnLock? || p.EnTest? || p.EnFree? || p.EnData?
    ensures Closer(m, p, ExecEnter(c, m, t, p, out))
  {
  }

  lemma CloserSwapping(c: Config, m: Shared, t: Tid, p: Pc, out: Outcome)
    requires p.EnClose? || p.EnOpen? || p.EnUnData? || p.EnUnState?
    ensures Closer(m, p, ExecEnter(c, m, t, p, out))
  {
  }

  lemma CloserEnter(c: Config, m: Shared, t: Tid, p: Pc, out: Outcome)
    requires InEnter(p)
    ensures Closer(m, p, ExecEnter(c, m, t, p, out))
  {
    if p.EnLost? || p.EnCall? { CloserReturn(c, m, t, p, out); }
    else if p.EnLock? || p.EnTest? || p.EnFree? || p.EnData? { CloserTaking(c, m, t, p, out); }
    else { CloserSwapping(c, m, t, p, out); }
  }

  lemma CloserFlip(c: Config, m: Shared, t: Tid, p: Pc, out: Outcome)
    requires p.ExCheck? || p.ExRecv? || p.ExLock? || p.ExTest?
    ensures Closer(m, p, ExecExit(c, m, t, p, out))
  {
  }

  lemma CloserPush(c: Config, m: Shared, t: Tid, p: Pc, out: Outcome)
    requires p.ExUnlock? || p.ExBufs? || p.ExInfos? || p.ExCall?
    ensures Closer(m, p, ExecExit(c, m, t, p, out))
  {
  }

  lemma CloserExit(c: Config, m: Shared, t: Tid, p: Pc, out: Outcome)
    requires InExit(p)
    ensures Closer(m, p, ExecExit(c, m, t, p, out))
  {
    if p.ExCheck? || p.ExRecv? || p.ExLock? || p.ExTest? { CloserFlip(c, m, t, p, out); }
    else { CloserPush(c, m, t, p, out); }
  }

  lemma CloserStart(m: Shared, p: Pc, out: Outcome)
    requires InStart(p)
    ensures Closer(m, p, ExecStart(m, p, out))
  {
  }

  lemma CloserAsking(m: Shared, t: Tid, p: Pc)
    requires p.NsFlag? || p.NsJoin?
    ensures Closer(m, p, ExecStop(m, t, p))
  {
  }

  lemma CloserChecking(m: Shared, t: Tid, p: Pc)
    requires p.DcCheck? || p.DcDisconnect?
    ensures Closer(m, p, ExecStop(m, t, p))
  {
  }

  lemma CloserEnding(m: Shared, t: Tid, p: Pc)
    requires p.DcStop? || p.DcJoin? || p.DcConnect?
    ensures Closer(m, p, ExecStop(m, t, p))
  {
  }

  lemma CloserStop(m: Shared, t: Tid, p: Pc)
    requires InStop(p)
    ensures Closer(m, p, ExecStop(m, t, p))
  {
    if p.NsFlag? || p.NsJoin? { CloserAsking(m, t, p); }
    else if p.DcCheck? || p.DcDisconnect? { CloserChecking(m, t, p); }
    else { CloserEnding(m, t, p); }
  }

  lemma CloserStep(c: Config, m: Shared, t: Tid, p: Pc, out: Outcome)
    requires p != Idle && p != Dead
    ensures Closer(m, p, Exec(c, m, t, p, out))
  {
    if InInput(p) { CloserInput(m, t, p, out); }
    else if InFds(p) { CloserFds(m, t, p, out); }
    else if InMark(p) { CloserMark(c, m, t, p); }
    else if InEnter(p) { CloserEnter(c, m, t, p, out); }
    else if InExit(p) { CloserExit(c, m, t, p, out); }
    else if InStart(p) { CloserStart(m, p, out); }
    else { CloserStop(m, t, p); }
  }

  // ---------- all threads ----------

  ghost function Work(pc: map<Tid, Pc>): nat
    decreases |pc|
  {
    if pc == map[] then 0
    else
      var t :| t in pc;
      assert (pc - {t}).Keys == pc.Keys - {t};
      Rank(pc[t]) + Work(pc - {t})
  }

  lemma {:induction false} WorkOf(pc: map<Tid, Pc>, t: Tid)
    requires t in pc
    ensures Work(pc) == Rank(pc[t]) + Work(pc - {t})
    decreases |pc|
  {
    var u :| u in pc && Work(pc) == Rank(pc[u]) + Work(pc - {u});
    if u != t {
      assert (pc - {u}).Keys == pc.Keys - {u} && (pc - {t}).Keys == pc.Keys - {t};
      WorkOf(pc - {u}, t);
      WorkOf(pc - {t}, u);
      assert pc - {u} - {t} == pc - {t} - {u};
    }
  }

  lemma WorkPut(pc: map<Tid, Pc>, t: Tid, p: Pc)
    ensures Work(pc[t := p]) == Rank(p) + Work(pc - {t})
    ensures Work(pc) == (if t in pc then Rank(pc[t]) else 0) + Work(pc - {t})
  {
    WorkOf(pc[t := p], t);
    assert pc[t := p] - {t} == pc - {t};
    if t in pc {
      WorkOf(pc, t);
    } else {
      assert pc - {t} == pc;
    }
  }

  /** A step of a call, or the end of a loop. */
  predicate Inner(a: Act) { a.Go? || a.Finish? }

  lemma LessWork(c: Config, s: State, a: Act)
    requires Numbered(s) && Inner(a) && Enabled(c, s, a)
    ensures Work(Apply(c, s, a).pc) < Work(s.pc)
  {
    var p := At(s, a.t);
    if a.Finish? {
      WorkPut(s.pc, a.t, Dead);
    } else {
      var r := Exec(c, s.m, a.t, p, a.out);
      CloserStep(c, s.m, a.t, p, a.out);
      WorkPut(s.pc, a.t, r.p);
      if r.m.ev.created > s.m.ev.created {
        WorkPut(s.pc[a.t := r.p], Ev(s.m.ev.created), Idle);
        assert Ev(s.m.ev.created) !in s.pc;
      }
    }
  }

  /** The whole schedule can be taken, and ends in `v`. */
  ghost predicate Leads(c: Config, s: State, acts: seq<Act>, v: State)
    decreases |acts|
  {
    if acts == [] then v == s else Enabled(c, s, acts[0]) && Leads(c, Apply(c, s, acts[0]), acts[1..], v)
  }

  lemma {:induction false} SchedulesEnd(c: Config, s: State, acts: seq<Act>, v: State)
    requires SourceRoles(c) && LifeInv(s) && Leads(c, s, acts, v) && forall a | a in acts :: Inner(a)
    ensures LifeInv(v) && |acts| + Work(v.pc) <= Work(s.pc)
    decreases |acts|
  {
    if acts != [] {
      LessWork(c, s, acts[0]);
      LifeStep(c, s, acts[0]);
      SchedulesEnd(c, Apply(c, s, acts[0]), acts[1..], v);
    }
  }

  /**
   From any state of any instance, a schedule without new calls and messages has at most Work(s) steps, and one
   that cannot be continued leaves no lifecycle call and no call on the context unfinished.
   */
  lemma CallsEnd(c: Config, ext: set<Tid>, es: seq<Event>, s: State, acts: seq<Act>, v: State)
    requires SourceRoles(c) && Natives(ext) && s in Life(c, Created(c, ext), es)
    requires Leads(c, s, acts, v) && forall a | a in acts :: Inner(a)
    ensures |acts| <= Work(s.pc)
    ensures (forall a | Inner(a) :: !Enabled(c, v, a)) ==> forall t :: !Busy(v, t)
  {
    CreatedLife(c, ext);
    LifeKept(c, Created(c, ext), es);
    SchedulesEnd(c, s, acts, v);
    if forall a | Inner(a) :: !Enabled(c, v, a) {
      forall t
        ensures !Busy(v, t)
      {
        if Busy(v, t) {
          BusyMoves(c, v, t);
        }
      }
    }
  }
}
