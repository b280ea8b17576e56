/**
 The kernel and the producer as one display context sees them. Whether a syscall succeeds is an input of the call
 that makes it, every new descriptor may have any number that is not open, and the producer moves between the calls.
 */
module Kernel {
  import opened InputFraming

  /** What a descriptor refers to. A socket pair's ends are told apart by who keeps them. */
  datatype Object =
    | EventFd(id: nat)
    | Memory(id: nat)
    | Ours(pair: nat)
    | Theirs(pair: nat)
    | Foreign(id: nat)

  datatype Ctrl = Ready(hello: nat) | Other(kind: nat)

  /** The descriptors of a delivered CONSUMER_HELLO: { buf_ready, fence, data, shm, audio }. */
  datatype Hello = Hello(bufReady: Object, fence: Object, data: Object, shm: Object, audio: Object)

  datatype OS = OS(
    open: map<int, Object>,
    maps: map<nat, Object>,           // mappings by address; 0 is never one
    nextId: nat,                      // kernel objects made so far
    cells: map<nat, seq<Cell>>,       // by pair: what our end has sent
    memory: map<nat, nat>,            // by object: the shared word
    signals: map<nat, nat>,           // by eventfd: frames announced
    fences: map<nat, seq<int>>,       // by pair: the producer's per-frame messages
    taken: map<nat, nat>,             // by pair: how many of them have been received
    hellos: seq<Hello>,               // delivered to the producer
    answered: set<nat>,               // hellos the producer has answered
    inbox: seq<Ctrl>)                 // control messages not yet read

  // ---------- how the syscalls of one call come out ----------

  /** Of a new set of endpoints: which steps succeed, and how many socket pairs can be made. */
  datatype Setup = Setup(eventfd: bool, memfd: bool, ftruncate: bool, mmap: bool, pairs: nat, hello: bool)

  /** poll and recvmsg on the fence channel: nothing in time, end of file, an error, or whatever is there. */
  datatype Report = Silent | Ended | Refused | Arrived

  /**
   Of one call of the library: whether poll reports the control socket readable, what comes of waiting for a frame,
   whether malloc succeeds, how many bytes the first and the second send move, and the endpoints it may have to open.
   */
  datatype Answers = Answers(polled: bool, report: Report, memory: bool, first: nat, second: nat, setup: Setup)

  function Cells(os: OS, pair: nat): seq<Cell> { if pair in os.cells then os.cells[pair] else [] }

  function Signals(os: OS, id: nat): nat { if id in os.signals then os.signals[id] else 0 }

  function Fences(os: OS, pair: nat): seq<int> { if pair in os.fences then os.fences[pair] else [] }

  function Taken(os: OS, pair: nat): nat { if pair in os.taken then os.taken[pair] else 0 }

  predicate Exists(os: OS, obj: Object) {
    match obj
    case EventFd(id) => id < os.nextId
    case Memory(id) => id < os.nextId
    case Ours(pair) => pair < os.nextId
    case Theirs(pair) => pair < os.nextId
    case Foreign(_) => true
  }

  /** Descriptors are non-negative, 0 is no address, and objects that do not exist yet have no history. */
  ghost predicate Sound(os: OS) {
    && (forall fd | fd in os.open :: fd >= 0 && Exists(os, os.open[fd]))
    && 0 !in os.maps
    && (forall id | id >= os.nextId :: id !in os.cells && id !in os.signals && id !in os.fences && id !in os.taken)
    && (forall h | h in os.hellos :: Exists(os, h.bufReady) && Exists(os, h.fence))
  }

  /** A number that is not in use; which one is up to the kernel. */
  method FreeNumber(used: set<int>, least: int) returns (fd: int)
    ensures fd >= least && fd !in used
  {
    fd := least;
    var rest := used;
    while fd in used
      invariant fd >= least
      invariant forall n | n in used && n >= fd :: n in rest
      decreases rest
    {
      rest := rest - {fd};
      fd := fd + 1;
    }
  }

  /** The table with one more descriptor, for a new object. */
  function Opened(os: OS, fd: int, obj: Object): OS {
    os.(open := os.open[fd := obj], nextId := os.nextId + 1)
  }

  method Eventfd(os: OS, ok: bool) returns (v: OS, fd: int)
    ensures if ok then fd >= 0 && fd !in os.open && v == Opened(os, fd, EventFd(os.nextId)) else fd == -1 && v == os
  {
    if !ok {
      return os, -1;
    }
    fd := FreeNumber(os.open.Keys, 0);
    v := Opened(os, fd, EventFd(os.nextId));
  }

  method MemfdCreate(os: OS, ok: bool) returns (v: OS, fd: int)
    ensures if ok then fd >= 0 && fd !in os.open && v == Opened(os, fd, Memory(os.nextId)) else fd == -1 && v == os
  {
    if !ok {
      return os, -1;
    }
    fd := FreeNumber(os.open.Keys, 0);
    v := Opened(os, fd, Memory(os.nextId));
  }

  method Ftruncate(os: OS, fd: int, ok: bool) returns (r: int)
    requires fd in os.open
    ensures r == if ok then 0 else -1
  {
    r := if ok then 0 else -1;
  }

  /** 0 stands for MAP_FAILED. */
  method Mmap(os: OS, fd: int, ok: bool) returns (v: OS, address: nat)
    requires fd in os.open
    ensures if ok then address > 0 && address !in os.maps && v == os.(maps := os.maps[address := os.open[fd]])
            else address == 0 && v == os
  {
    if !ok {
      return os, 0;
    }
    var a := FreeNumber(set n: nat | n in os.maps :: n as int, 1);
    address := a;
    v := os.(maps := os.maps[address := os.open[fd]]);
  }

  method Munmap(os: OS, address: nat) returns (v: OS)
    requires address in os.maps
    ensures v == os.(maps := os.maps - {address})
  {
    v := os.(maps := os.maps - {address});
  }

  /** Closing what is not open would be a second close, or someone else's descriptor. */
  method Close(os: OS, fd: int) returns (v: OS)
    requires fd in os.open
    ensures v == os.(open := os.open - {fd})
  {
    v := os.(open := os.open - {fd});
  }

  function Paired(os: OS, ours: int, theirs: int): OS {
    os.(open := os.open[ours := Ours(os.nextId)][theirs := Theirs(os.nextId)], nextId := os.nextId + 1)
  }

  method Socketpair(os: OS, ok: bool) returns (v: OS, ours: int, theirs: int)
    ensures if ok then ours >= 0 && theirs >= 0 && ours != theirs && ours !in os.open && theirs !in os.open
                       && v == Paired(os, ours, theirs)
            else ours == -1 && theirs == -1 && v == os
  {
    if !ok {
      return os, -1, -1;
    }
    ours := FreeNumber(os.open.Keys, 0);
    theirs := FreeNumber(os.open.Keys + {ours}, 0);
    v := Paired(os, ours, theirs);
  }

  function HelloOf(os: OS, bufReady: int, fence: int, data: int, shm: int, audio: int): Hello
    requires {bufReady, fence, data, shm, audio} <= os.open.Keys
  {
    Hello(os.open[bufReady], os.open[fence], os.open[data], os.open[shm], os.open[audio])
  }

  /** send_fds of CONSUMER_HELLO: whole with its five descriptors, unless one is not open or the transfer fails. */
  method SendHello(os: OS, sock: int, bufReady: int, fence: int, data: int, shm: int, audio: int, ok: bool)
    returns (v: OS, r: int)
    ensures if ok && {sock, bufReady, fence, data, shm, audio} <= os.open.Keys
            then r == 0 && v == os.(hellos := os.hellos + [HelloOf(os, bufReady, fence, data, shm, audio)])
            else r == -1 && v == os
  {
    if !ok || !({sock, bufReady, fence, data, shm, audio} <= os.open.Keys) {
      return os, -1;
    }
    return os.(hellos := os.hellos + [HelloOf(os, bufReady, fence, data, shm, audio)]), 0;
  }

  function Sent(os: OS, pair: nat, cells: seq<Cell>): OS {
    os.(cells := os.cells[pair := Cells(os, pair) + cells])
  }

  /** The first n, or all of them. */
  function UpTo(cells: seq<Cell>, n: nat): seq<Cell> { if n < |cells| then cells[..n] else cells }

  /** send_all or send_fds on the data socket: at most `room` bytes go out, and failure unless that is all. */
  method SendCells(os: OS, fd: int, cells: seq<Cell>, room: nat) returns (v: OS, ok: bool)
    ensures ok <==> fd in os.open && os.open[fd].Ours? && |cells| <= room
    ensures v == if fd in os.open && os.open[fd].Ours? && UpTo(cells, room) != []
                 then Sent(os, os.open[fd].pair, UpTo(cells, room)) else os
  {
    if fd !in os.open || !os.open[fd].Ours? {
      return os, false;
    }
    v := if UpTo(cells, room) == [] then os else Sent(os, os.open[fd].pair, UpTo(cells, room));
    ok := |cells| <= room;
  }

  /** poll and recv on the control socket: the next header; the end of the stream is readable too, and gives none. */
  method RecvCtrl(os: OS, polled: bool) returns (v: OS, got: bool, msg: Ctrl)
    ensures got <==> polled && os.inbox != []
    ensures if got then msg == os.inbox[0] && v == os.(inbox := os.inbox[1..]) else v == os
  {
    msg := Other(0);
    if !polled || os.inbox == [] {
      return os, false, msg;
    }
    return os.(inbox := os.inbox[1..]), true, os.inbox[0];
  }

  function Signalled(os: OS, id: nat): OS {
    os.(signals := os.signals[id := Signals(os, id) + 1])
  }

  /** eventfd_write of 1; the source ignores its result. */
  method EventfdWrite(os: OS, fd: int) returns (v: OS)
    ensures v == if fd in os.open && os.open[fd].EventFd? then Signalled(os, os.open[fd].id) else os
  {
    v := if fd in os.open && os.open[fd].EventFd? then Signalled(os, os.open[fd].id) else os;
  }

  /** A store through the mapping. */
  method Store(os: OS, address: nat, word: nat) returns (v: OS)
    requires address in os.maps && os.maps[address].Memory?
    ensures v == os.(memory := os.memory[os.maps[address].id := word])
  {
    v := os.(memory := os.memory[os.maps[address].id := word]);
  }

  /** What poll and recvmsg on the fence channel come to. */
  datatype FenceMsg = Late | Closed | Failed | Frame(fence: int)

  function TookOne(os: OS, pair: nat): OS {
    os.(taken := os.taken[pair := Taken(os, pair) + 1])
  }

  predicate Waiting(os: OS, fd: int) {
    fd in os.open && os.open[fd].Ours? && Taken(os, os.open[fd].pair) < |Fences(os, os.open[fd].pair)|
  }

  /** The next message of the fence channel if it is to be received and there is one. */
  method RecvFence(os: OS, fd: int, report: Report) returns (v: OS, msg: FenceMsg)
    ensures report.Silent? || (report.Arrived? && !Waiting(os, fd)) ==> msg == Late && v == os
    ensures report.Ended? ==> msg == Closed && v == os
    ensures report.Refused? ==> msg == Failed && v == os
    ensures report.Arrived? && Waiting(os, fd) ==>
              var pair := os.open[fd].pair;
              msg == Frame(Fences(os, pair)[Taken(os, pair)]) && v == TookOne(os, pair)
  {
    v := os;
    match report
    case Silent => msg := Late;
    case Ended => msg := Closed;
    case Refused => msg := Failed;
    case Arrived =>
      msg := Late;
      if Waiting(os, fd) {
        var pair := os.open[fd].pair;
        v, msg := TookOne(os, pair), Frame(Fences(os, pair)[Taken(os, pair)]);
      }
  }

  // ---------- the producer ----------

  /**
   One move of the producer: it answers a delivered hello it has not answered, sends another control message,
   or sends the message of a frame that was announced to it on the fence socket of the same hello.
   */
  datatype Move = Answer(n: nat) | Chat(kind: nat) | Render(n: nat, fence: int)

  predicate Renders(os: OS, h: Hello) {
    h.bufReady.EventFd? && h.fence.Theirs? && |Fences(os, h.fence.pair)| < Signals(os, h.bufReady.id)
  }

  predicate CanMove(os: OS, move: Move) {
    match move
    case Answer(n) => n < |os.hellos| && n !in os.answered
    case Chat(_) => true
    case Render(n, _) => n < |os.hellos| && Renders(os, os.hellos[n])
  }

  function Rendered(os: OS, pair: nat, fence: int): OS {
    os.(fences := os.fences[pair := Fences(os, pair) + [fence]])
  }

  function Moved(os: OS, move: Move): OS
    requires CanMove(os, move)
  {
    match move
    case Answer(n) => os.(inbox := os.inbox + [Ready(n)], answered := os.answered + {n})
    case Chat(kind) => os.(inbox := os.inbox + [Other(kind)])
    case Render(n, fence) => Rendered(os, os.hellos[n].fence.pair, fence)
  }
}
