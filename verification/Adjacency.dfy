/**
 Adjacency of two-part sends: on every data socket, up to its first failed send, a RESOURCE event that
 announces descriptors is followed at once by its EXTEND_FDS message.
 */
module Adjacency {
  import opened Sessions
  import opened Teardown

  // ---------- the discipline ----------

  /** The thread is inside handle_resource_request. */
  predicate InRequest(p: Pc) {
    InFds(p) || InMark(p) || (InEnter(p) && p.ret.RMark?)
  }

  /** Between the exit from fallback and the end of the BUFS_READY push. */
  predicate InPush(p: Pc) {
    (p.ExUnlock? && p.won) || p.ExBufs? || p.ExInfos?
  }

  /**
   What the source relies on and does not enforce: each service is requested at most once per session; no
   resource request is under way when fallback ends, and none begins while the table is pushed; a lock-free
   writer sends before the gate it sampled is armed again.
   */
  datatype Rule = RequestedOnce | NoneAtFlip | FreshSample

  ghost predicate Obeys(rule: Rule, s: State, a: Act) {
    match rule
    case RequestedOnce => a.Begin? && a.call.CallRequest? ==> a.call.svc !in s.m.h.requested
    case NoneAtFlip =>
      && (a.Begin? && a.call.CallRequest? ==> forall u :: !InPush(At(s, u)))
      && (a.Go? && At(s, a.t).ExTest? && s.m.fallback ==> forall u :: !InRequest(At(s, u)))
    case FreshSample => a.Go? && At(s, a.t).InSend? && !At(s, a.t).locked ==> At(s, a.t).arm == s.m.h.arms
  }

  ghost predicate Disciplined(s: State, a: Act) {
    Obeys(RequestedOnce, s, a) && Obeys(NoneAtFlip, s, a) && Obeys(FreshSample, s, a)
  }

  ghost predicate DisciplinedRun(c: Config, s: State, acts: seq<Act>)
    decreases |acts|
  {
    acts != [] && Enabled(c, s, acts[0]) ==>
      Disciplined(s, acts[0]) && DisciplinedRun(c, Apply(c, s, acts[0]), acts[1..])
  }

  // ---------- streams ----------

  /** Every RESOURCE item has its EXTEND_FDS item right after it, except perhaps a last one still `open`. */
  predicate Paired(st: seq<Item>, open: bool) {
    forall i | 0 <= i < |st| :: InPlace(st, i, open)
  }

  predicate InPlace(st: seq<Item>, i: nat, open: bool)
    requires i < |st|
  {
    && (st[i].ResourceItem? ==> if i + 1 < |st| then st[i + 1] == FdsItem(st[i].svc) else open)
    && (st[i].FdsItem? ==> i > 0 && st[i - 1] == ResourceItem(st[i].svc))
  }

  /** The holder of data_lock is between the two halves on the socket of generation g. */
  predicate Between(q: Pc, g: nat) {
    q.FdFds? && q.gen == g
  }

  predicate StreamOk(net: Net, q: Pc, g: nat) {
    Paired(Stream(net, g), g in net.broken || Between(q, g))
  }

  ghost predicate StreamsOk(net: Net, fd: Socket, q: Pc) {
    && (forall g: nat :: StreamOk(net, q, g))
    && (q.FdFds? ==> fd == Gen(q.gen))
    && (q.FdFds? && q.gen !in net.broken ==>
          var st := Stream(net, q.gen); st != [] && st[|st| - 1] == ResourceItem(q.svc))
  }

  lemma PairedLoose(st: seq<Item>, open: bool, looser: bool)
    requires Paired(st, open) && (open ==> looser)
    ensures Paired(st, looser)
  {
    forall i | 0 <= i < |st|
      ensures InPlace(st, i, looser)
    {
      assert InPlace(st, i, open);
    }
  }

  /** Something else right after a RESOURCE item. */
  lemma PartedAt(st: seq<Item>, i: nat, open: bool)
    requires i + 1 < |st| && st[i].ResourceItem? && !st[i + 1].FdsItem?
    ensures !Paired(st, open)
  {
    assert !InPlace(st, i, open);
  }

  lemma PairedMore(st: seq<Item>, item: Item, open: bool)
    requires Paired(st, false) && !item.FdsItem?
    requires item.ResourceItem? ==> open
    ensures Paired(st + [item], open)
  {
    forall i | 0 <= i < |st| + 1
      ensures InPlace(st + [item], i, open)
    {
      assert i < |st| ==> InPlace(st, i, false);
    }
  }

  lemma PairedFds(st: seq<Item>, svc: nat, open: bool)
    requires Paired(st, true) && st != [] && st[|st| - 1] == ResourceItem(svc)
    ensures Paired(st + [FdsItem(svc)], open)
  {
    forall i | 0 <= i < |st| + 1
      ensures InPlace(st + [FdsItem(svc)], i, open)
    {
      assert i < |st| ==> InPlace(st, i, true);
    }
  }

  /** A single-part send outside any open pair. */
  lemma CarryPlain(m: Shared, q: Pc, fd: Socket, out: Outcome, item: Item)
    requires StreamsOk(m.net, m.fd, q) && !q.FdFds? && !item.ResourceItem? && !item.FdsItem?
    ensures StreamsOk(Carry(m, fd, out, item), m.fd, q)
  {
    var net := Carry(m, fd, out, item);
    forall g: nat
      ensures StreamOk(net, q, g)
    {
      assert StreamOk(m.net, q, g);
      if fd.Gen? && fd.g == g && Sends(m, fd, out) && g !in m.net.broken {
        PairedMore(Stream(m.net, g), item, false);
      } else {
        PairedLoose(Stream(m.net, g), g in m.net.broken || Between(q, g), g in net.broken || Between(q, g));
      }
    }
  }

  /** A single-part send that records nothing. */
  lemma CarryNothing(m: Shared, q: Pc, fd: Socket, out: Outcome, item: Item)
    requires StreamsOk(m.net, m.fd, q) && !(Sends(m, fd, out) && fd.g !in m.net.broken)
    ensures StreamsOk(Carry(m, fd, out, item), m.fd, q)
  {
    var net := Carry(m, fd, out, item);
    forall g: nat
      ensures StreamOk(net, q, g)
    {
      assert StreamOk(m.net, q, g);
      PairedLoose(Stream(m.net, g), g in m.net.broken || Between(q, g), g in net.broken || Between(q, g));
    }
  }

  lemma CarryResourceAt(m: Shared, q: Pc, fd: Socket, out: Outcome, svc: nat, q': Pc, g: nat)
    requires StreamOk(m.net, q, g) && !q.FdFds?
    requires q' == if Sends(m, fd, out) then FdFds(svc, fd.g) else FdUnlock(svc, false)
    ensures StreamOk(Carry(m, fd, out, ResourceItem(svc)), q', g)
  {
    var net := Carry(m, fd, out, ResourceItem(svc));
    if fd.Gen? && fd.g == g && Sends(m, fd, out) && g !in m.net.broken {
      PairedMore(Stream(m.net, g), ResourceItem(svc), true);
    } else {
      PairedLoose(Stream(m.net, g), g in m.net.broken, g in net.broken || Between(q', g));
    }
  }

  lemma CarryResource(m: Shared, q: Pc, fd: Socket, out: Outcome, svc: nat, q': Pc)
    requires StreamsOk(m.net, m.fd, q) && !q.FdFds?
    requires q' == if Sends(m, fd, out) then FdFds(svc, fd.g) else FdUnlock(svc, false)
    ensures StreamsOk(Carry(m, fd, out, ResourceItem(svc)), m.fd, q')
  {
    forall g: nat
      ensures StreamOk(Carry(m, fd, out, ResourceItem(svc)), q', g)
    {
      CarryResourceAt(m, q, fd, out, svc, q', g);
    }
  }

  lemma CarryFds(m: Shared, svc: nat, g: nat, out: Outcome, ok: bool)
    requires StreamsOk(m.net, m.fd, FdFds(svc, g))
    ensures StreamsOk(Carry(m, Gen(g), out, FdsItem(svc)), m.fd, FdUnlock(svc, ok))
  {
    var net := Carry(m, Gen(g), out, FdsItem(svc));
    forall g': nat
      ensures StreamOk(net, FdUnlock(svc, ok), g')
    {
      assert StreamOk(m.net, FdFds(svc, g), g');
      if g' == g && Sends(m, Gen(g), out) && g !in m.net.broken {
        PairedFds(Stream(m.net, g), svc, false);
      }
    }
  }

  // ---------- the gate ----------

  /** The request under way still has its mask bit to set. */
  predicate Unmarked(p: Pc) {
    InFds(p) || p.MkCheck? || p.MkLock? || p.MkSet? || (InEnter(p) && p.ret.RMark?)
  }

  function ServiceOf(p: Pc): nat
    requires Unmarked(p)
  {
    if InEnter(p) then p.ret.svc else p.svc
  }

  /** A lock-free writer whose gate sample is still current. */
  predicate LockFree(p: Pc, arms: nat) {
    (p.InRead? || p.InSend?) && !p.locked && p.arm == arms
  }

  predicate Requesting(c: Config, m: Shared, p: Pc) {
    && (Unmarked(p) ==> var svc := ServiceOf(p); svc < c.services && svc in m.h.requested && svc !in m.mask)
    && ((p.InRead? || p.InSend?) ==> p.arm <= m.h.arms)
    && (LockFree(p, m.h.arms) ==> !m.gate)
  }

  predicate Apart(p: Pc, q: Pc) {
    && (Unmarked(p) && Unmarked(q) ==> ServiceOf(p) != ServiceOf(q))
    && !(InPush(p) && InRequest(q))
    && !(InPush(q) && InRequest(p))
  }

  predicate GateOk(c: Config, m: Shared) {
    && (m.gate || AllSent(c.services, m.mask))
    && m.mask <= m.h.requested
  }

  function DataHolderPc(s: State): Pc {
    if s.m.dataLock.Held? then At(s, s.m.dataLock.owner) else Idle
  }

  ghost predicate GateInv(c: Config, s: State) {
    && GateOk(c, s.m)
    && (forall u :: Requesting(c, s.m, At(s, u)))
    && (forall u, v | u != v :: Apart(At(s, u), At(s, v)))
  }

  ghost predicate StreamInv(s: State) {
    Locks(s) && Numbered(s) && StreamsOk(s.m.net, s.m.fd, DataHolderPc(s))
  }

  // ---------- one step ----------

  /** A step that leaves the gate alone keeps the thread's place in its request, push or lock-free write. */
  predicate Follows(m: Shared, p: Pc, r: Local) {
    && r.m.gate == m.gate && r.m.mask == m.mask && r.m.h.requested == m.h.requested && r.m.h.arms == m.h.arms
    && (Unmarked(r.p) ==> Unmarked(p) && ServiceOf(r.p) == ServiceOf(p))
    && (InRequest(r.p) ==> InRequest(p))
    && (InPush(r.p) ==> InPush(p))
    && ((r.p.InRead? || r.p.InSend?) ==> r.p.arm <= m.h.arms || ((p.InRead? || p.InSend?) && p.arm == r.p.arm))
    && (LockFree(r.p, m.h.arms) ==> LockFree(p, m.h.arms) || !m.gate)
  }

  lemma FollowsInput(m: Shared, t: Tid, p: Pc, out: Outcome)
    requires InInput(p)
    ensures Follows(m, p, ExecInput(m, t, p, out))
  {
  }

  lemma FollowsFds(m: Shared, t: Tid, p: Pc, out: Outcome)
    requires InFds(p)
    ensures Follows(m, p, ExecFds(m, t, p, out))
  {
  }

  lemma FollowsMark(c: Config, m: Shared, t: Tid, p: Pc)
    requires InMark(p) && !p.MkSet?
    ensures Follows(m, p, ExecMark(c, m, t, p))
  {
  }

  lemma FollowsEnter(c: Config, m: Shared, t: Tid, p: Pc, out: Outcome)
    requires InEnter(p) && !p.EnOpen?
    ensures Follows(m, p, ExecEnter(c, m, t, p, out))
  {
  }

  lemma FollowsFlip(c: Config, m: Shared, t: Tid, p: Pc, out: Outcome)
    requires p.ExCheck? || p.ExRecv? || p.ExLock? || (p.ExTest? && !m.fallback)
    ensures Follows(m, p, ExecExit(c, m, t, p, out))
  {
  }

  lemma FollowsPush(c: Config, m: Shared, t: Tid, p: Pc, out: Outcome)
    requires p.ExUnlock? || p.ExBufs? || p.ExInfos? || p.ExCall?
    ensures Follows(m, p, ExecExit(c, m, t, p, out))
  {
  }

  lemma FollowsExit(c: Config, m: Shared, t: Tid, p: Pc, out: Outcome)
    requires InExit(p) && !(p.ExTest? && m.fallback)
    ensures Follows(m, p, ExecExit(c, m, t, p, out))
  {
    if p.ExUnlock? || p.ExBufs? || p.ExInfos? || p.ExCall? {
      FollowsPush(c, m, t, p, out);
    } else {
      FollowsFlip(c, m, t, p, out);
    }
  }

  lemma FollowsStart(m: Shared, p: Pc, out: Outcome)
    requires InStart(p)
    ensures Follows(m, p, ExecStart(m, p, out))
  {
  }

  lemma FollowsStop(m: Shared, t: Tid, p: Pc)
    requires InStop(p)
    ensures Follows(m, p, ExecStop(m, t, p))
  {
  }

  /** The gate facts of a step of `t`, for `t` itself and for a thread at `q`. */
  ghost predicate GateStep(c: Config, q: Pc, r: Local) {
    GateOk(c, r.m) && Requesting(c, r.m, r.p) && Requesting(c, r.m, q) && Apart(r.p, q)
  }

  ghost predicate GatePre(c: Config, m: Shared, p: Pc, q: Pc) {
    && GateOk(c, m) && Requesting(c, m, p) && Requesting(c, m, q) && Apart(p, q)
    && (p.ExTest? && m.fallback ==> !InRequest(q))
  }

  lemma GateFollows(c: Config, m: Shared, p: Pc, q: Pc, r: Local)
    requires GatePre(c, m, p, q) && Follows(m, p, r)
    ensures GateStep(c, q, r)
  {
  }

  lemma GateSet(c: Config, m: Shared, t: Tid, p: Pc, q: Pc)
    requires GatePre(c, m, p, q) && p.MkSet?
    ensures GateStep(c, q, ExecMark(c, m, t, p))
  {
  }

  lemma GateOpen(c: Config, m: Shared, t: Tid, p: Pc, q: Pc, out: Outcome)
    requires GatePre(c, m, p, q) && p.EnOpen?
    ensures GateStep(c, q, ExecEnter(c, m, t, p, out))
  {
  }

  lemma GateFlipOut(c: Config, m: Shared, t: Tid, p: Pc, q: Pc, out: Outcome)
    requires GatePre(c, m, p, q) && p.ExTest? && m.fallback
    ensures GateStep(c, q, ExecExit(c, m, t, p, out))
  {
  }

  lemma LocalGate(c: Config, m: Shared, t: Tid, p: Pc, q: Pc, out: Outcome)
    requires GatePre(c, m, p, q) && p != Idle && p != Dead
    ensures GateStep(c, q, Exec(c, m, t, p, out))
  {
    var r := Exec(c, m, t, p, out);
    if p.MkSet? { GateSet(c, m, t, p, q); }
    else if p.EnOpen? { GateOpen(c, m, t, p, q, out); }
    else if p.ExTest? && m.fallback { GateFlipOut(c, m, t, p, q, out); }
    else {
      if InInput(p) { FollowsInput(m, t, p, out); }
      else if InFds(p) { FollowsFds(m, t, p, out); }
      else if InMark(p) { FollowsMark(c, m, t, p); }
      else if InEnter(p) { FollowsEnter(c, m, t, p, out); }
      else if InExit(p) { FollowsExit(c, m, t, p, out); }
      else if InStart(p) { FollowsStart(m, p, out); }
      else { FollowsStop(m, t, p); }
      GateFollows(c, m, p, q, r);
    }
  }

  // ---------- streams across a step ----------

  function OwnData(p: Pc): Pc { if HoldsData(p) then p else Idle }

  lemma StreamsSame(net: Net, fd: Socket, q: Pc, fd': Socket, q': Pc)
    requires StreamsOk(net, fd, q) && !q.FdFds? && !q'.FdFds?
    ensures StreamsOk(net, fd', q')
  {
    forall g: nat
      ensures StreamOk(net, q', g)
    {
      assert StreamOk(net, q, g);
    }
  }

  /** The transfers that may happen without data_lock. */
  predicate Unlocked(p: Pc) {
    (p.InSend? && !p.locked) || p.ExBufs? || p.ExInfos?
  }

  function SocketOf(m: Shared, p: Pc): Socket {
    if p.InSend? then p.fd else m.fd
  }

  /** The step records an item on a working socket whose two-part send is half done, without data_lock. */
  predicate Wedge(m: Shared, p: Pc, q: Pc, out: Outcome) {
    Unlocked(p) && q.FdFds? && Sends(m, SocketOf(m, p), out) && SocketOf(m, p).g !in m.net.broken
  }

  lemma StreamsInput(m: Shared, t: Tid, p: Pc, q: Pc, out: Outcome)
    requires InInput(p) && StreamsOk(m.net, m.fd, q) && !Wedge(m, p, q, out)
    requires HoldsData(p) ==> !q.FdFds?
    ensures var r := ExecInput(m, t, p, out); r.m.fd == m.fd && StreamsOk(r.m.net, m.fd, q)
  {
    if p.InSend? {
      if q.FdFds? {
        CarryNothing(m, q, p.fd, out, InputItem);
      } else {
        CarryPlain(m, q, p.fd, out, InputItem);
      }
    }
  }

  lemma StreamsPush(c: Config, m: Shared, t: Tid, p: Pc, q: Pc, out: Outcome)
    requires InExit(p) && StreamsOk(m.net, m.fd, q) && !Wedge(m, p, q, out)
    ensures var r := ExecExit(c, m, t, p, out); r.m.fd == m.fd && StreamsOk(r.m.net, m.fd, q)
  {
    if p.ExBufs? || p.ExInfos? {
      var item := if p.ExBufs? then BufsItem else InfosItem;
      if q.FdFds? {
        CarryNothing(m, q, m.fd, out, item);
      } else {
        CarryPlain(m, q, m.fd, out, item);
      }
    }
  }

  lemma StreamsEvent(m: Shared, t: Tid, p: Pc, out: Outcome)
    requires p.FdEvent? && StreamsOk(m.net, m.fd, p)
    ensures var r := ExecFds(m, t, p, out); StreamsOk(r.m.net, r.m.fd, r.p)
  {
    var r := ExecFds(m, t, p, out);
    if p.fds > 0 {
      CarryResource(m, p, p.fd, out, p.svc, r.p);
    } else {
      CarryPlain(m, p, p.fd, out, InputItem);
      StreamsSame(r.m.net, m.fd, p, r.m.fd, r.p);
    }
  }

  lemma StreamsFds(m: Shared, t: Tid, p: Pc, out: Outcome)
    requires InFds(p) && StreamsOk(m.net, m.fd, OwnData(p))
    ensures var r := ExecFds(m, t, p, out); StreamsOk(r.m.net, r.m.fd, OwnData(r.p))
  {
    var r := ExecFds(m, t, p, out);
    if p.FdEvent? {
      StreamsEvent(m, t, p, out);
    } else if p.FdFds? {
      CarryFds(m, p.svc, p.gen, out, Sends(m, Gen(p.gen), out));
    } else {
      StreamsSame(m.net, m.fd, OwnData(p), r.m.fd, OwnData(r.p));
    }
  }

  /** A step outside the sends: the streams stay, and only a holder of data_lock changes the socket. */
  predicate NoTraffic(m: Shared, p: Pc, r: Local) {
    && r.m.net == m.net
    && (r.m.fd == m.fd || HoldsData(p))
    && !p.FdFds? && !r.p.FdFds?
  }

  lemma SilentMark(c: Config, m: Shared, t: Tid, p: Pc)
    requires InMark(p)
    ensures NoTraffic(m, p, ExecMark(c, m, t, p))
  {
  }

  lemma SilentEnter(c: Config, m: Shared, t: Tid, p: Pc, out: Outcome)
    requires InEnter(p)
    ensures NoTraffic(m, p, ExecEnter(c, m, t, p, out))
  {
  }

  lemma SilentStart(m: Shared, p: Pc, out: Outcome)
    requires InStart(p)
    ensures NoTraffic(m, p, ExecStart(m, p, out))
  {
  }

  lemma SilentStop(m: Shared, t: Tid, p: Pc)
    requires InStop(p)
    ensures NoTraffic(m, p, ExecStop(m, t, p))
  {
  }

  /** `q` is where the holder of data_lock is: t itself, or another thread. */
  ghost predicate StreamStep(m: Shared, p: Pc, q: Pc, r: Local) {
    if HoldsData(p) || HoldsData(r.p) then
      StreamsOk(m.net, m.fd, OwnData(p)) ==> StreamsOk(r.m.net, r.m.fd, OwnData(r.p))
    else
      StreamsOk(m.net, m.fd, q) ==> StreamsOk(r.m.net, r.m.fd, q)
  }

  lemma StreamsSilent(m: Shared, p: Pc, q: Pc, r: Local)
    requires NoTraffic(m, p, r)
    ensures StreamStep(m, p, q, r)
  {
    if (HoldsData(p) || HoldsData(r.p)) && StreamsOk(m.net, m.fd, OwnData(p)) {
      StreamsSame(m.net, m.fd, OwnData(p), r.m.fd, OwnData(r.p));
    }
  }

  lemma StreamStepInput(m: Shared, t: Tid, p: Pc, q: Pc, out: Outcome)
    requires InInput(p) && !Wedge(m, p, q, out)
    ensures StreamStep(m, p, q, ExecInput(m, t, p, out))
  {
    var r := ExecInput(m, t, p, out);
    if HoldsData(p) || HoldsData(r.p) {
      if StreamsOk(m.net, m.fd, OwnData(p)) {
        StreamsInput(m, t, p, OwnData(p), out);
        StreamsSame(r.m.net, m.fd, OwnData(p), r.m.fd, OwnData(r.p));
      }
    } else if Unlocked(p) && StreamsOk(m.net, m.fd, q) {
      StreamsInput(m, t, p, q, out);
    }
  }

  lemma StreamStepFds(m: Shared, t: Tid, p: Pc, q: Pc, out: Outcome)
    requires InFds(p)
    ensures StreamStep(m, p, q, ExecFds(m, t, p, out))
  {
    if StreamsOk(m.net, m.fd, OwnData(p)) {
      StreamsFds(m, t, p, out);
    }
  }

  lemma NoLockInExit(c: Config, m: Shared, t: Tid, p: Pc, out: Outcome)
    requires InExit(p)
    ensures !HoldsData(p) && !HoldsData(ExecExit(c, m, t, p, out).p)
  {
  }

  lemma StreamStepExit(c: Config, m: Shared, t: Tid, p: Pc, q: Pc, out: Outcome)
    requires InExit(p) && !Wedge(m, p, q, out)
    ensures StreamStep(m, p, q, ExecExit(c, m, t, p, out))
  {
    var r := ExecExit(c, m, t, p, out);
    NoLockInExit(c, m, t, p, out);
    if StreamsOk(m.net, m.fd, q) {
      StreamsPush(c, m, t, p, q, out);
    }
  }

  lemma LocalStreams(c: Config, m: Shared, t: Tid, p: Pc, q: Pc, out: Outcome)
    requires p != Idle && p != Dead && !Wedge(m, p, q, out)
    ensures StreamStep(m, p, q, Exec(c, m, t, p, out))
  {
    var r := Exec(c, m, t, p, out);
    if InInput(p) { StreamStepInput(m, t, p, q, out); }
    else if InFds(p) { StreamStepFds(m, t, p, q, out); }
    else if InMark(p) { SilentMark(c, m, t, p); StreamsSilent(m, p, q, r); }
    else if InEnter(p) { SilentEnter(c, m, t, p, out); StreamsSilent(m, p, q, r); }
    else if InExit(p) { StreamStepExit(c, m, t, p, q, out); }
    else if InStart(p) { SilentStart(m, p, out); StreamsSilent(m, p, q, r); }
    else { SilentStop(m, t, p); StreamsSilent(m, p, q, r); }
  }

  // ---------- lifting to every thread ----------

  lemma LiftGate(c: Config, s: State, t: Tid, r: Local)
    requires Numbered(s) && t in s.pc && s.m.ev.created <= r.m.ev.created && GateInv(c, s)
    requires forall u | u != t :: GateStep(c, At(s, u), r)
    requires GateStep(c, Idle, r)
    ensures GateInv(c, After(s, t, r))
  {
    var v := After(s, t, r);
    forall u
      ensures Requesting(c, v.m, At(v, u))
    {
      if u != t { assert GateStep(c, At(s, u), r); }
    }
    forall u, w | u != w
      ensures Apart(At(v, u), At(v, w))
    {
      assert Apart(At(s, u), At(s, w));
      if u != t { assert GateStep(c, At(s, u), r); }
      if w != t { assert GateStep(c, At(s, w), r); }
    }
  }

  lemma GateGoOne(c: Config, s: State, t: Tid, out: Outcome, r: Local, u: Tid)
    requires Locks(s) && GateInv(c, s) && u != t
    requires Enabled(c, s, Go(t, out)) && Disciplined(s, Go(t, out))
    requires r == Exec(c, s.m, t, At(s, t), out)
    ensures GateStep(c, At(s, u), r)
  {
    var p := At(s, t);
    assert Requesting(c, s.m, p) && Requesting(c, s.m, At(s, u)) && Apart(p, At(s, u));
    LocalGate(c, s.m, t, p, At(s, u), out);
  }

  lemma GateGoIdle(c: Config, s: State, t: Tid, out: Outcome, r: Local)
    requires Locks(s) && GateInv(c, s)
    requires Enabled(c, s, Go(t, out)) && Disciplined(s, Go(t, out))
    requires r == Exec(c, s.m, t, At(s, t), out)
    ensures GateStep(c, Idle, r)
  {
    assert Requesting(c, s.m, At(s, t));
    LocalGate(c, s.m, t, At(s, t), Idle, out);
  }

  lemma GateGo(c: Config, s: State, t: Tid, out: Outcome, r: Local)
    requires Locks(s) && Numbered(s) && GateInv(c, s)
    requires Enabled(c, s, Go(t, out)) && Disciplined(s, Go(t, out))
    requires r == Exec(c, s.m, t, At(s, t), out)
    ensures GateInv(c, After(s, t, r))
  {
    LocalLocks(c, s.m, t, At(s, t), out);
    forall u | u != t
      ensures GateStep(c, At(s, u), r)
    {
      GateGoOne(c, s, t, out, r, u);
    }
    GateGoIdle(c, s, t, out, r);
    LiftGate(c, s, t, r);
  }

  lemma LiftStreams(s: State, t: Tid, r: Local)
    requires Locks(s) && Numbered(s) && t in s.pc && LockStep(s.m, t, r)
    requires StreamsOk(s.m.net, s.m.fd, DataHolderPc(s))
    requires StreamStep(s.m, At(s, t), DataHolderPc(s), r)
    ensures StreamsOk(r.m.net, r.m.fd, DataHolderPc(After(s, t, r)))
  {
    var q, q' := DataHolderPc(s), DataHolderPc(After(s, t, r));
    if HoldsData(At(s, t)) || HoldsData(r.p) {
      assert q == OwnData(At(s, t)) && q' == OwnData(r.p);
    } else {
      assert q' == q;
    }
  }

  /** The one step that can put something between the two halves. */
  predicate Wedges(s: State, a: Act) {
    a.Go? && Wedge(s.m, At(s, a.t), DataHolderPc(s), a.out)
  }

  lemma StreamsGo(c: Config, s: State, t: Tid, out: Outcome, r: Local)
    requires StreamInv(s) && Enabled(c, s, Go(t, out)) && !Wedges(s, Go(t, out))
    requires r == Exec(c, s.m, t, At(s, t), out)
    ensures StreamsOk(r.m.net, r.m.fd, DataHolderPc(After(s, t, r)))
  {
    LocalLocks(c, s.m, t, At(s, t), out);
    LocalStreams(c, s.m, t, At(s, t), DataHolderPc(s), out);
    LiftStreams(s, t, r);
  }

  /** The other actions start or end a thread's stay in its own loop; only a request touches the gate facts. */
  lemma OtherMoves(c: Config, s: State, a: Act, v: State)
    requires Enabled(c, s, a) && !a.Go? && v == Apply(c, s, a)
    ensures v.m.net == s.m.net && v.m.fd == s.m.fd && v.m.dataLock == s.m.dataLock
    ensures v.m.gate == s.m.gate && v.m.mask == s.m.mask && v.m.h.arms == s.m.h.arms
    ensures v.m.h.requested ==
            if a.Begin? && a.call.CallRequest? then s.m.h.requested + {a.call.svc} else s.m.h.requested
    ensures forall u :: At(v, u) == At(s, u)
                        || (At(s, u) == Idle
                            && (At(v, u) == Dead || (a.Begin? && u == a.t && At(v, u) == Entry(a.call))))
  {
  }

  lemma RequestingMore(c: Config, m: Shared, m': Shared, p: Pc)
    requires m'.gate == m.gate && m'.mask == m.mask && m'.h.arms == m.h.arms && m.h.requested <= m'.h.requested
    requires Requesting(c, m, p)
    ensures Requesting(c, m', p)
  {
  }

  lemma BegunRequesting(c: Config, m: Shared, m': Shared, call: Call)
    requires GateOk(c, m) && m'.gate == m.gate && m'.mask == m.mask && m'.h.arms == m.h.arms
    requires call.CallRequest? ==> call.svc < c.services && call.svc !in m.h.requested
    requires m'.h.requested == if call.CallRequest? then m.h.requested + {call.svc} else m.h.requested
    ensures Requesting(c, m', Entry(call))
  {
  }

  lemma RequestingOther(c: Config, s: State, a: Act, v: State, u: Tid)
    requires GateOk(c, s.m) && Requesting(c, s.m, At(s, u))
    requires Enabled(c, s, a) && Disciplined(s, a) && !a.Go? && v == Apply(c, s, a)
    ensures Requesting(c, v.m, At(v, u))
  {
    OtherMoves(c, s, a, v);
    if a.Begin? && u == a.t {
      BegunRequesting(c, s.m, v.m, a.call);
    } else {
      RequestingMore(c, s.m, v.m, At(s, u));
    }
  }

  /** A request that begins is for a service no thread is serving, and outside any push. */
  lemma BegunApart(c: Config, m: Shared, call: Call, q: Pc)
    requires Requesting(c, m, q)
    requires call.CallRequest? ==> call.svc !in m.h.requested && !InPush(q)
    ensures Apart(Entry(call), q) && Apart(q, Entry(call))
  {
  }

  lemma ApartOther(c: Config, s: State, a: Act, v: State, u: Tid, w: Tid)
    requires GateInv(c, s) && Enabled(c, s, a) && Disciplined(s, a) && !a.Go? && v == Apply(c, s, a)
    requires u != w
    ensures Apart(At(v, u), At(v, w))
  {
    assert Apart(At(s, u), At(s, w));
    assert Requesting(c, s.m, At(s, u)) && Requesting(c, s.m, At(s, w));
    if a.Begin? && a.t == u {
      BegunApart(c, s.m, a.call, At(s, w));
    } else if a.Begin? && a.t == w {
      BegunApart(c, s.m, a.call, At(s, u));
    }
  }

  lemma GateOther(c: Config, s: State, a: Act, v: State)
    requires GateInv(c, s) && Enabled(c, s, a) && Disciplined(s, a) && !a.Go? && v == Apply(c, s, a)
    ensures GateInv(c, v)
  {
    OtherMoves(c, s, a, v);
    forall u
      ensures Requesting(c, v.m, At(v, u))
    {
      assert Requesting(c, s.m, At(s, u));
      RequestingOther(c, s, a, v, u);
    }
    forall u, w | u != w
      ensures Apart(At(v, u), At(v, w))
    {
      ApartOther(c, s, a, v, u, w);
    }
  }

  lemma StreamsOther(c: Config, s: State, a: Act, v: State)
    requires Locks(s) && StreamsOk(s.m.net, s.m.fd, DataHolderPc(s))
    requires Enabled(c, s, a) && !a.Go? && v == Apply(c, s, a)
    ensures StreamsOk(v.m.net, v.m.fd, DataHolderPc(v))
  {
    OtherMoves(c, s, a, v);
    if s.m.dataLock.Held? {
      assert HoldsData(At(s, s.m.dataLock.owner));
    }
    assert DataHolderPc(v) == DataHolderPc(s);
  }

  lemma StreamStepAny(c: Config, s: State, a: Act)
    requires StreamInv(s) && Enabled(c, s, a) && !Wedges(s, a)
    ensures StreamInv(Apply(c, s, a))
  {
    LocksStep(c, s, a);
    if a.Go? {
      StreamsGo(c, s, a.t, a.out, Exec(c, s.m, a.t, At(s, a.t), a.out));
    } else {
      StreamsOther(c, s, a, Apply(c, s, a));
    }
  }

  // ---------- exactly when the halves stay adjacent ----------

  /** The sends of the two halves of one resource reply are under way on generation g's socket. */
  ghost predicate SendingHalves(s: State, g: nat) {
    exists u :: At(s, u).FdFds? && At(s, u).gen == g && s.m.dataLock == Held(u) && s.m.fd == Gen(g)
  }

  /**
   On the socket of every generation, each RESOURCE item is followed at once by its own descriptors and each
   descriptor message follows its own RESOURCE item. A RESOURCE item may only stand last while its sender
   still holds data_lock on that same, still open socket, or once the socket has failed a send.
   */
  ghost predicate AllPaired(s: State) {
    forall g: nat :: Paired(Stream(s.m.net, g), g in s.m.net.broken || SendingHalves(s, g))
  }

  lemma StreamInvPaired(s: State)
    requires StreamInv(s)
    ensures AllPaired(s)
  {
    var q := DataHolderPc(s);
    forall g: nat
      ensures Paired(Stream(s.m.net, g), g in s.m.net.broken || SendingHalves(s, g))
    {
      assert StreamOk(s.m.net, q, g);
      if Between(q, g) {
        assert At(s, s.m.dataLock.owner).FdFds?;
      }
    }
  }

  /** The two unlocked transfers, as they extend the stream. */
  lemma WedgeRecords(c: Config, m: Shared, t: Tid, p: Pc, q: Pc, out: Outcome, r: Local)
    requires Wedge(m, p, q, out) && StreamsOk(m.net, m.fd, q) && r == Exec(c, m, t, p, out)
    ensures exists item: Item :: !item.FdsItem? && Stream(r.m.net, q.gen) == Stream(m.net, q.gen) + [item]
  {
    var item := if p.InSend? then InputItem else if p.ExBufs? then BufsItem else InfosItem;
    assert r.m.net == Carry(m, SocketOf(m, p), out, item);
    assert Stream(r.m.net, q.gen) == Stream(m.net, q.gen) + [item];
  }

  lemma WedgeBreaks(c: Config, s: State, a: Act)
    requires StreamInv(s) && Enabled(c, s, a) && Wedges(s, a)
    ensures !AllPaired(Apply(c, s, a))
  {
    var q := DataHolderPc(s);
    WedgeRecords(c, s.m, a.t, At(s, a.t), q, a.out, Exec(c, s.m, a.t, At(s, a.t), a.out));
    var v, g := Apply(c, s, a), q.gen;
    var st := Stream(s.m.net, g);
    PartedAt(Stream(v.m.net, g), |st| - 1, g in v.m.net.broken || SendingHalves(v, g));
  }

  ghost predicate NeverWedged(c: Config, s: State, acts: seq<Act>)
    decreases |acts|
  {
    acts != [] && Enabled(c, s, acts[0]) ==>
      !Wedges(s, acts[0]) && NeverWedged(c, Apply(c, s, acts[0]), acts[1..])
  }

  lemma {:induction false} PairedIffNeverWedged(c: Config, s: State, acts: seq<Act>)
    requires StreamInv(s)
    ensures (forall v | v in Run(c, s, acts) :: AllPaired(v)) <==> NeverWedged(c, s, acts)
    decreases |acts|
  {
    StreamInvPaired(s);
    if acts == [] || !Enabled(c, s, acts[0]) {
    } else {
      var next := Apply(c, s, acts[0]);
      assert Run(c, s, acts) == [s] + Run(c, next, acts[1..]);
      if Wedges(s, acts[0]) {
        WedgeBreaks(c, s, acts[0]);
        assert next == Run(c, next, acts[1..])[0];
      } else {
        StreamStepAny(c, s, acts[0]);
        PairedIffNeverWedged(c, next, acts[1..]);
      }
    }
  }

  lemma StreamStart(c: Config, s: State)
    requires Starting(c, s)
    ensures StreamInv(s) && GateInv(c, s)
  {
    LocksStart(c, s);
    GateStart(c, s);
    assert forall g: nat :: Stream(s.m.net, g) == [];
  }

  lemma GateStart(c: Config, s: State)
    requires Starting(c, s)
    ensures GateInv(c, s)
  {
  }

  /**
   Over any run, the two halves stay adjacent in every state exactly when no thread ever completes a transfer
   without data_lock (a lock-free input write, or a part of the BUFS_READY push) on the working socket whose
   RESOURCE event is out and whose descriptors are not.
   */
  lemma TwoPartSendsAdjacent(c: Config, start: State, acts: seq<Act>)
    requires Starting(c, start)
    ensures (forall s | s in Run(c, start, acts) :: AllPaired(s)) <==> NeverWedged(c, start, acts)
  {
    StreamStart(c, start);
    PairedIffNeverWedged(c, start, acts);
  }

  // ---------- the discipline suffices ----------

  lemma DisciplinedNoWedge(c: Config, s: State, a: Act)
    requires Locks(s) && GateInv(c, s) && Disciplined(s, a)
    ensures !Wedges(s, a)
  {
    if a.Go? {
      var p := At(s, a.t);
      assert Requesting(c, s.m, p);
      if s.m.dataLock.Held? {
        var u := s.m.dataLock.owner;
        assert HoldsData(At(s, u));
        assert Requesting(c, s.m, At(s, u));
        assert u != a.t ==> Apart(p, At(s, u));
      }
    }
  }

  lemma GateStepAny(c: Config, s: State, a: Act)
    requires Locks(s) && Numbered(s) && GateInv(c, s) && Enabled(c, s, a) && Disciplined(s, a)
    ensures GateInv(c, Apply(c, s, a))
  {
    if a.Go? {
      GateGo(c, s, a.t, a.out, Exec(c, s.m, a.t, At(s, a.t), a.out));
    } else {
      GateOther(c, s, a, Apply(c, s, a));
    }
  }

  lemma {:induction false} DisciplinedNeverWedged(c: Config, s: State, acts: seq<Act>)
    requires Locks(s) && Numbered(s) && GateInv(c, s) && DisciplinedRun(c, s, acts)
    ensures NeverWedged(c, s, acts)
    decreases |acts|
  {
    if acts == [] || !Enabled(c, s, acts[0]) {
    } else {
      DisciplinedNoWedge(c, s, acts[0]);
      LocksStep(c, s, acts[0]);
      GateStepAny(c, s, acts[0]);
      DisciplinedNeverWedged(c, Apply(c, s, acts[0]), acts[1..]);
    }
  }

  /** Under the source's stated discipline the gate never lets a lock-free writer between the halves. */
  lemma DisciplineKeepsAdjacency(c: Config, start: State, acts: seq<Act>, s: State)
    requires Starting(c, start) && DisciplinedRun(c, start, acts)
    requires s in Run(c, start, acts)
    ensures AllPaired(s)
  {
    StreamStart(c, start);
    DisciplinedNeverWedged(c, start, acts);
    TwoPartSendsAdjacent(c, start, acts);
  }
}
