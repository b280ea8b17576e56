/**
 The threads of one display context as a step relation: the render thread, the event threads it
 starts, JNI input threads and one JNI lifecycle thread, over `fallback`, `state_lock`, `data_lock`,
 the data socket, the write gate and the event-thread handle. One step is one lock operation, one
 read of a shared flag, or one transfer.
 */
module Sessions {

  // ---------- threads ----------

  /** `Ext` threads exist from the start; `Ev(k)` is the k-th event thread ever created. */
  datatype Tid = Ext(n: nat) | Ev(k: nat)

  const RENDER := Ext(0)
  const CONTROLLER := Ext(1)

  /** Where the caller of enter_fallback continues. */
  datatype Ret =
    | RIdle              // the call was made from the thread's own loop
    | RMark(svc: nat)    // push_input_event_with_fds
    | RCall              // push_dmabufs_internal
    | RStart             // push_input_event, itself called by on_exit_fallback

  datatype Pc =
    | Idle
    | Dead
      // push_input_event and push_input_event_with_length
      // (starting: called by on_exit_fallback; arm: the arm_data_lock count at the gate sample)
    | InCheck(starting: bool)
    | InGate(starting: bool)
    | InLock(starting: bool)
    | InRead(starting: bool, locked: bool, arm: nat)
    | InSend(starting: bool, locked: bool, arm: nat, fd: Socket)
    | InUnlock(starting: bool, ok: bool)
      // handle_resource_request: push_input_event_with_fds, then the mask update
    | FdCheck(svc: nat, fds: nat)
    | FdLock(svc: nat, fds: nat)
    | FdRead(svc: nat, fds: nat)
    | FdEvent(svc: nat, fds: nat, fd: Socket)
    | FdFds(svc: nat, gen: nat)
    | FdUnlock(svc: nat, ok: bool)
    | MkCheck(svc: nat)
    | MkLock(svc: nat)
    | MkSet(svc: nat)
    | MkUnlock
      // enter_fallback
    | EnLock(ret: Ret)
    | EnTest(ret: Ret)
    | EnLost(ret: Ret)
    | EnFree(ret: Ret)
    | EnData(ret: Ret)
    | EnClose(ret: Ret)
    | EnOpen(ret: Ret)
    | EnUnData(ret: Ret)
    | EnUnState(ret: Ret)
    | EnCall(ret: Ret)
      // try_exit_fallback
    | ExCheck
    | ExRecv
    | ExLock(gen: nat)
    | ExTest(gen: nat)
    | ExUnlock(won: bool)
    | ExBufs
    | ExInfos
    | ExCall
      // start_event_thread
    | StCheck
    | StJoin
    | StSet
    | StCreate
      // nativeStop / nativeDestroy / do_connect
    | NsFlag
    | NsJoin
    | DcCheck
    | DcStop
    | DcJoin
    | DcDisconnect
    | DcConnect

  /** The value read from `data_fd`: -1, or the data socket of one generation. */
  datatype Socket = NoSocket | Gen(g: nat)

  datatype Flip = Exit(t: Tid) | Enter(t: Tid)

  /** What the data socket of one generation has carried, up to its first failed send. */
  datatype Item = InputItem | ResourceItem(svc: nat) | FdsItem(svc: nat) | BufsItem | InfosItem

  datatype Ctrl = Ready(g: nat) | Other

  datatype Config = Config(services: nat, exiters: set<Tid>)

  datatype Lock = Free | Held(owner: Tid)

  /** The event-thread handle of consumer_state and the threads made through it. */
  datatype EventThread = EventThread(running: bool, joinable: bool, created: nat, joined: nat)

  /** The control channel: what the context has not read yet, and what the producer saw and sent. */
  datatype Control = Control(inbox: seq<Ctrl>, hellos: set<nat>, answered: set<nat>)

  datatype Net = Net(streams: map<nat, seq<Item>>, broken: set<nat>)

  /** History: facts about the run that no thread reads. */
  datatype History = History(
    requested: set<nat>,       // services requested since the last exit from fallback
    arms: nat,                 // arm_data_lock calls
    flips: seq<Flip>,
    torn: seq<nat>,            // generations, in the order their endpoints were closed
    freed: nat,                // free_resources runs
    called: multiset<Flip>)    // callbacks made

  datatype Shared = Shared(
    fallback: bool,
    stateLock: Lock,
    dataLock: Lock,
    fd: Socket,                // data_fd
    gen: nat,                  // generation of the endpoints in the context
    gate: bool,                // data_needs_lock
    mask: set<nat>,            // services_sent_mask
    running: bool,             // the render loop's flag
    connected: bool,           // there is a context
    ev: EventThread,
    ctrl: Control,
    net: Net,
    h: History)

  datatype State = State(pc: map<Tid, Pc>, m: Shared)

  function At(s: State, t: Tid): Pc {
    if t in s.pc then s.pc[t] else Dead
  }

  /** A context just connected: in fallback, generation 0 announced. */
  function NewContext(c: Config, ev: EventThread, running: bool): Shared {
    Shared(true, Free, Free, Gen(0), 0, c.services > 0, {}, running, true, ev, Control([], {0}, {}), Net(map[], {}),
           History({}, 0, [], [], 0, multiset{}))
  }

  /** The thread is not in a call on a context. */
  predicate Outside(p: Pc) {
    p.Idle? || p.Dead? || InStop(p)
  }

  /** The context has just been connected, whatever the event-thread handle has been through before. */
  ghost predicate Starting(c: Config, s: State) {
    && s.m == NewContext(c, s.m.ev, s.m.running)
    && (forall u :: Outside(At(s, u)))
    && (forall k: nat :: k >= s.m.ev.created ==> Ev(k) !in s.pc)
  }

  /** The first context of a process, with every thread of `ext` in its own loop. */
  function Init(c: Config, ext: set<Tid>): State {
    State(map t | t in ext :: Idle, NewContext(c, EventThread(false, false, 0, 0), true))
  }

  // ---------- actions ----------

  datatype Call =
    | CallInput
    | CallRequest(svc: nat, fds: nat)
    | CallEnter                  // a timeout, a hang-up or a bad header seen by the thread
    | CallExit
    | CallReconnect
    | CallStop

  /**
   How the syscalls of a step end, or what else it depends on that the state does not say (whether a table is
   stored, whether the refresh rate is known). `Half`: the endpoints were created, the hello was not delivered.
   */
  datatype Outcome = Ok | Half | Failed

  datatype Act =
    | Begin(t: Tid, call: Call)
    | Go(t: Tid, out: Outcome)   // the next step of t's current call
    | Finish(t: Tid)             // an event thread or the render thread leaves its loop
    | Producer(msg: Ctrl)

  function Entry(call: Call): Pc {
    match call
    case CallInput => InCheck(false)
    case CallRequest(svc, fds) => FdCheck(svc, fds)
    case CallEnter => EnLock(RIdle)
    case CallExit => ExCheck
    case CallReconnect => DcCheck
    case CallStop => NsFlag
  }

  predicate MayBegin(c: Config, t: Tid, call: Call) {
    match call
    case CallInput => true
    case CallRequest(svc, fds) => t.Ev? && svc < c.services
    case CallEnter => true
    case CallExit => t in c.exiters
    case CallReconnect => t == RENDER
    case CallStop => t == CONTROLLER
  }

  function Resume(r: Ret): Pc {
    match r
    case RIdle => Idle
    case RMark(svc) => MkCheck(svc)
    case RCall => ExCall
    case RStart => StCheck
  }

  predicate WantsState(p: Pc) {
    p.EnLock? || p.ExLock?
  }

  predicate WantsData(p: Pc) {
    p.InLock? || p.FdLock? || p.MkLock? || p.EnData?
  }

  /** The thread a join waits for: the last one created. */
  predicate JoinWaits(s: State) {
    s.m.ev.joinable && s.m.ev.created > 0 && At(s, Ev(s.m.ev.created - 1)) != Dead
  }

  predicate Waits(s: State, t: Tid) {
    var p := At(s, t);
    || (WantsState(p) && s.m.stateLock != Free)
    || (WantsData(p) && s.m.dataLock != Free)
    || ((p.StJoin? || p.DcJoin?) && JoinWaits(s))
    || (p.NsJoin? && At(s, RENDER) != Dead)
  }

  predicate Enabled(c: Config, s: State, a: Act) {
    match a
    case Begin(t, call) =>
      (s.m.connected || call.CallStop? || call.CallReconnect?) && At(s, t) == Idle && MayBegin(c, t, call)
    case Go(t, out) =>
      (s.m.connected || InStop(At(s, t))) && At(s, t) != Idle && At(s, t) != Dead && !Waits(s, t)
    case Finish(t) => At(s, t) == Idle && ((t.Ev? && !s.m.ev.running) || (t == RENDER && !s.m.running))
    case Producer(msg) => true
  }

  function Apply(c: Config, s: State, a: Act): State {
    match a
    case Begin(t, call) =>
      State(s.pc[t := Entry(call)],
            if call.CallRequest? then s.m.(h := s.m.h.(requested := s.m.h.requested + {call.svc})) else s.m)
    case Go(t, out) =>
      After(s, t, Exec(c, s.m, t, At(s, t), out))
    case Finish(t) => State(s.pc[t := Dead], s.m)
    case Producer(msg) =>
      State(s.pc, s.m.(ctrl := Control(s.m.ctrl.inbox + [msg], s.m.ctrl.hellos,
                                       s.m.ctrl.answered + (if msg.Ready? then {msg.g} else {}))))
  }

  /** The calling thread's next program counter and the shared state it leaves. */
  datatype Local = Local(p: Pc, m: Shared)

  /** The step `r` of thread `t`; a thread created by it starts in its loop. */
  function After(s: State, t: Tid, r: Local): State {
    State(if r.m.ev.created > s.m.ev.created then s.pc[t := r.p][Ev(s.m.ev.created) := Idle] else s.pc[t := r.p], r.m)
  }

  // ---------- one step inside a call ----------

  function Exec(c: Config, m: Shared, t: Tid, p: Pc, out: Outcome): Local {
    if InInput(p) then ExecInput(m, t, p, out)
    else if InFds(p) then ExecFds(m, t, p, out)
    else if InMark(p) then ExecMark(c, m, t, p)
    else if InEnter(p) then ExecEnter(c, m, t, p, out)
    else if InExit(p) then ExecExit(c, m, t, p, out)
    else if InStart(p) then ExecStart(m, p, out)
    else if InStop(p) then ExecStop(m, t, p)
    else Local(p, m)
  }

  predicate InInput(p: Pc) {
    p.InCheck? || p.InGate? || p.InLock? || p.InRead? || p.InSend? || p.InUnlock?
  }

  predicate InFds(p: Pc) {
    p.FdCheck? || p.FdLock? || p.FdRead? || p.FdEvent? || p.FdFds? || p.FdUnlock?
  }

  predicate InMark(p: Pc) {
    p.MkCheck? || p.MkLock? || p.MkSet? || p.MkUnlock?
  }

  predicate InEnter(p: Pc) {
    p.EnLock? || p.EnTest? || p.EnLost? || p.EnFree? || p.EnData? || p.EnClose? || p.EnOpen? || p.EnUnData?
    || p.EnUnState? || p.EnCall?
  }

  predicate InExit(p: Pc) {
    p.ExCheck? || p.ExRecv? || p.ExLock? || p.ExTest? || p.ExUnlock? || p.ExBufs? || p.ExInfos? || p.ExCall?
  }

  predicate InStart(p: Pc) {
    p.StCheck? || p.StJoin? || p.StSet? || p.StCreate?
  }

  predicate InStop(p: Pc) {
    p.NsFlag? || p.NsJoin? || p.DcCheck? || p.DcStop? || p.DcJoin? || p.DcDisconnect? || p.DcConnect?
  }

  function Stream(net: Net, g: nat): seq<Item> {
    if g in net.streams then net.streams[g] else []
  }

  /** A send on socket `fd` can only succeed on the socket that is open now. */
  predicate Sends(m: Shared, fd: Socket, out: Outcome) {
    out == Ok && fd.Gen? && fd == m.fd
  }

  /** What a send leaves on the stream; nothing is recorded after the socket's first failed send. */
  function Carry(m: Shared, fd: Socket, out: Outcome, item: Item): Net {
    if !fd.Gen? then m.net
    else if !Sends(m, fd, out) then m.net.(broken := m.net.broken + {fd.g})
    else if fd.g in m.net.broken then m.net
    else m.net.(streams := m.net.streams[fd.g := Stream(m.net, fd.g) + [item]])
  }

  function Resumed(starting: bool): Ret {
    if starting then RStart else RIdle
  }

  function ExecInput(m: Shared, t: Tid, p: Pc, out: Outcome): Local
    requires InInput(p)
  {
    match p
    case InCheck(r) => Local(if m.fallback then Resume(Resumed(r)) else InGate(r), m)
    case InGate(r) => Local(if m.gate then InLock(r) else InRead(r, false, m.h.arms), m)
    case InLock(r) => Local(InRead(r, true, m.h.arms), m.(dataLock := Held(t)))
    case InRead(r, locked, arm) => Local(InSend(r, locked, arm, m.fd), m)
    case InSend(r, locked, arm, fd) =>
      var sent := Sends(m, fd, out);
      Local(if locked then InUnlock(r, sent) else if sent then Resume(Resumed(r)) else EnLock(Resumed(r)),
            m.(net := Carry(m, fd, out, InputItem)))
    case InUnlock(r, sent) => Local(if sent then Resume(Resumed(r)) else EnLock(Resumed(r)), m.(dataLock := Free))
  }

  function ExecFds(m: Shared, t: Tid, p: Pc, out: Outcome): Local
    requires InFds(p)
  {
    match p
    case FdCheck(svc, fds) => Local(if m.fallback then MkCheck(svc) else FdLock(svc, fds), m)
    case FdLock(svc, fds) => Local(FdRead(svc, fds), m.(dataLock := Held(t)))
    case FdRead(svc, fds) => Local(FdEvent(svc, fds, m.fd), m)
    case FdEvent(svc, fds, fd) =>
      var sent := Sends(m, fd, out);
      Local(if sent && fds > 0 then FdFds(svc, fd.g) else FdUnlock(svc, sent),
            m.(net := Carry(m, fd, out, if fds > 0 then ResourceItem(svc) else InputItem)))
    case FdFds(svc, g) =>
      Local(FdUnlock(svc, Sends(m, Gen(g), out)), m.(net := Carry(m, Gen(g), out, FdsItem(svc))))
    case FdUnlock(svc, sent) => Local(if sent then MkCheck(svc) else EnLock(RMark(svc)), m.(dataLock := Free))
  }

  /** Every registered service has its bit set. */
  predicate AllSent(services: nat, mask: set<nat>) {
    forall i: nat | i < services :: i in mask
  }

  function ExecMark(c: Config, m: Shared, t: Tid, p: Pc): Local
    requires InMark(p)
  {
    match p
    case MkCheck(svc) => Local(if !m.fallback && 0 < c.services < 32 then MkLock(svc) else Idle, m)
    case MkLock(svc) => Local(MkSet(svc), m.(dataLock := Held(t)))
    case MkSet(svc) =>
      var mask := m.mask + {svc};
      Local(MkUnlock, m.(mask := mask, gate := m.gate && !AllSent(c.services, mask)))
    case MkUnlock => Local(Idle, m.(dataLock := Free))
  }

  function Arm(c: Config, m: Shared): Shared {
    m.(mask := {}, gate := c.services > 0, h := m.h.(arms := m.h.arms + 1))
  }

  function Won(h: History, f: Flip): History {
    h.(flips := h.flips + [f])
  }

  function ExecEnter(c: Config, m: Shared, t: Tid, p: Pc, out: Outcome): Local
    requires InEnter(p)
  {
    match p
    case EnLock(r) => Local(EnTest(r), m.(stateLock := Held(t)))
    case EnTest(r) =>
      if m.fallback then Local(EnLost(r), m)
      else Local(EnFree(r), m.(fallback := true, h := Won(m.h, Enter(t))))
    case EnLost(r) => Local(Resume(r), m.(stateLock := Free))
    case EnFree(r) => Local(EnData(r), m.(h := m.h.(freed := m.h.freed + 1)))
    case EnData(r) => Local(EnClose(r), m.(dataLock := Held(t)))
    case EnClose(r) => Local(EnOpen(r), m.(fd := NoSocket, h := m.h.(torn := m.h.torn + [m.gen])))
    case EnOpen(r) =>
      Local(EnUnData(r),
            Arm(c, m.(gen := m.gen + 1,
                      fd := if out == Failed then NoSocket else Gen(m.gen + 1),
                      ctrl := if out == Ok then m.ctrl.(hellos := m.ctrl.hellos + {m.gen + 1}) else m.ctrl)))
    case EnUnData(r) => Local(EnUnState(r), m.(dataLock := Free))
    case EnUnState(r) => Local(EnCall(r), m.(stateLock := Free))
    case EnCall(r) =>
      // on_fallback ends in stop_event_thread
      Local(Resume(r), m.(ev := m.ev.(running := false), h := m.h.(called := m.h.called + multiset{Enter(t)})))
  }

  function ExecExit(c: Config, m: Shared, t: Tid, p: Pc, out: Outcome): Local
    requires InExit(p)
  {
    match p
    case ExCheck => Local(if m.fallback then ExRecv else Idle, m)
    case ExRecv =>
      var inbox := m.ctrl.inbox;
      if inbox == [] || out != Ok then Local(Idle, m)
      else Local(if inbox[0].Ready? then ExLock(inbox[0].g) else Idle, m.(ctrl := m.ctrl.(inbox := inbox[1..])))
    case ExLock(g) => Local(ExTest(g), m.(stateLock := Held(t)))
    case ExTest(g) =>
      if !m.fallback then Local(ExUnlock(false), m)
      else Local(ExUnlock(true), Arm(c, m.(fallback := false, h := Won(m.h, Exit(t)).(requested := {}))))
    case ExUnlock(won) =>
      // push_dmabufs_internal returns at once when no table is stored
      Local(if !won then Idle else if out == Ok then ExBufs else ExCall, m.(stateLock := Free))
    case ExBufs =>
      Local(if Sends(m, m.fd, out) then ExInfos else EnLock(RCall), m.(net := Carry(m, m.fd, out, BufsItem)))
    case ExInfos =>
      Local(if Sends(m, m.fd, out) then ExCall else EnLock(RCall), m.(net := Carry(m, m.fd, out, InfosItem)))
    case ExCall =>
      // on_exit_fallback starts with send_refresh_rate, which does nothing while the rate is unknown
      Local(if out == Ok then InCheck(true) else StCheck,
            m.(h := m.h.(called := m.h.called + multiset{Exit(t)})))
  }

  function ExecStart(m: Shared, p: Pc, out: Outcome): Local
    requires InStart(p)
  {
    match p
    case StCheck => Local(if m.ev.running || out != Ok then Idle else StJoin, m)
    case StJoin => Local(StSet, m.(ev := Joined(m.ev)))
    case StSet => Local(StCreate, m.(ev := m.ev.(running := true)))
    case StCreate =>
      Local(Idle, m.(ev := if out == Ok then m.ev.(joinable := true, created := m.ev.created + 1)
                           else m.ev.(running := false)))
  }

  function Joined(e: EventThread): EventThread {
    if e.joinable then e.(joinable := false, joined := e.joined + 1) else e
  }

  function ExecStop(m: Shared, t: Tid, p: Pc): Local
    requires InStop(p)
  {
    match p
    case NsFlag => Local(if m.running then NsJoin else DcCheck, m.(running := false))
    case NsJoin => Local(DcCheck, m)
    case DcCheck => Local(if m.connected then DcStop else Reconnects(t), m)
    case DcStop => Local(DcJoin, m.(ev := m.ev.(running := false)))
    case DcJoin => Local(DcDisconnect, m.(ev := Joined(m.ev)))
    case DcDisconnect => Local(Reconnects(t), m.(connected := false))
    case DcConnect => Local(Idle, m)       // no context this time
  }

  /** do_connect goes on to connect; nativeStop and nativeDestroy are done. */
  function Reconnects(t: Tid): Pc { if t == RENDER then DcConnect else Idle }

  lemma CallIs(c: Config, m: Shared, t: Tid, p: Pc, out: Outcome)
    ensures InInput(p) ==> Exec(c, m, t, p, out) == ExecInput(m, t, p, out)
    ensures InFds(p) ==> Exec(c, m, t, p, out) == ExecFds(m, t, p, out)
    ensures InMark(p) ==> Exec(c, m, t, p, out) == ExecMark(c, m, t, p)
  {
  }

  lemma EnterIs(c: Config, m: Shared, t: Tid, p: Pc, out: Outcome)
    requires InEnter(p)
    ensures Exec(c, m, t, p, out) == ExecEnter(c, m, t, p, out)
  {
  }

  lemma ExitIs(c: Config, m: Shared, t: Tid, p: Pc, out: Outcome)
    requires InExit(p)
    ensures Exec(c, m, t, p, out) == ExecExit(c, m, t, p, out)
  {
  }

  // ---------- runs ----------

  /** The states visited by a schedule, from `s` up to the first action that cannot be taken. */
  function Run(c: Config, s: State, acts: seq<Act>): (visited: seq<State>)
    decreases |acts|
  {
    if acts == [] || !Enabled(c, s, acts[0]) then [s]
    else [s] + Run(c, Apply(c, s, acts[0]), acts[1..])
  }
}
