/**
 The state of a display context as a value, what each call of the display library does to it, and what every
 run of calls and producer moves keeps.
 */
module Context {
  import opened Wire
  import opened InputFraming
  import opened Kernel
  import opened Endpoints
  import opened Renewal
  import opened Agreement
  import opened Ledger
  import opened WriteGate

  /** Services, their resources, and the write gate. */
  datatype Books = Books(
    services: seq<u32>,
    resources: seq<Resources>,
    allocations: nat,         // calls of allocate_resource so far
    given: set<nat>,          // allocations with a type other than -1
    freed: set<nat>,
    gate: Gate,
    recorded: set<nat>)       // services recorded as sent since the gate was armed

  const NO_BOOKS := Books([], [], 0, {}, {}, Arm(0), {})

  datatype Ctx = Ctx(
    os: OS,
    ctrl: int,
    e: Ends,
    fallback: bool,
    pending: bool,
    missed: nat,              // frames of the session nobody waits for any more
    queued: seq<int>,         // fences handed back in the session
    log: seq<Msg>,            // what the data socket of the session has carried
    infos: seq<BufInfo>,      // the stored table
    fds: seq<int>,
    books: Books,
    fallbackCalls: nat,       // calls of fallback_cb and exit_fallback_cb
    exitCalls: nat,
    others: map<int, Object>, // descriptors and mappings of everybody else
    otherMaps: map<nat, Object>)

  // ---------- what holds between calls ----------

  /** What enter_fallback needs to close each descriptor once and to free each allocation once. */
  ghost predicate Closable(os: OS, ctrl: int, e: Ends, b: Books) {
    EndsOk(os, ctrl, e) && Sound(os) && LedgerOk(b.resources, b.given, b.freed)
  }

  ghost predicate Connection(s: Ctx) {
    Grounded(s.os, s.ctrl, s.e, s.fallback, s.others, s.otherMaps)
  }

  /** The resource ledger balances, and the gate stands for the recorded services. */
  ghost predicate Booked(b: Books) {
    && |b.resources| == |b.services|
    && LedgerOk(b.resources, b.given, b.freed) && (forall id | id in b.given :: id < b.allocations)
    && Stands(|b.services|, b.gate, b.recorded)
  }

  ghost predicate Stored(s: Ctx) {
    |s.infos| == |s.fds| <= MAX_BUFS
  }

  ghost predicate Paced(s: Ctx) {
    PacingOk(s.os, s.fallback, s.pending, s.missed, s.queued, s.e)
  }

  /** The session's stream starts with the stored table, and every recorded service has been answered on it. */
  ghost predicate InTune(s: Ctx) {
    && TableOk(s.os, s.fallback, s.e, s.log, s.infos, s.fds)
    && Replied(s.log, s.books.services, s.books.recorded)
    && (s.fallback ==> s.log == [] && s.books.recorded == {})
  }

  ghost predicate Consistent(s: Ctx) {
    Connection(s) && Booked(s.books) && Stored(s) && Paced(s) && InTune(s)
  }

  /**
   Every session begun and every session ended has had its callback; in which order, a failed push may turn around.
   */
  predicate Called(s: Ctx) {
    s.exitCalls == s.fallbackCalls + (if s.fallback then 0 else 1)
  }

  ghost predicate Good(s: Ctx) {
    Consistent(s) && Called(s)
  }

  // ---------- enter_fallback ----------

  function Rearmed(b: Books): Books {
    b.(gate := Arm(|b.services|), recorded := {})
  }

  lemma RearmedBooked(b: Books)
    requires Booked(b)
    ensures Booked(Rearmed(b))
  {
    ArmStands(|b.services|);
  }

  /** free_resources and arm_data_lock. */
  ghost predicate Cleared(b: Books, c: Books) {
    AllEmpty(c.resources) && |c.resources| == |b.resources|
    && c == Rearmed(b.(resources := c.resources, freed := b.given))
  }

  lemma ClearedBooked(b: Books, c: Books)
    requires Booked(b) && Cleared(b, c)
    ensures Booked(c)
  {
    var d := b.(resources := c.resources, freed := b.given);
    assert Live(d.resources) == {};
    RearmedBooked(d);
  }

  /**
   enter_fallback from a session: everything torn down once, as many new endpoints as could be opened, announced if
   all of them are there, and one callback.
   */
  ghost predicate Fell(s: Ctx, k: Setup, t: Ctx) {
    && !s.fallback
    && Renewed(Dropped(s.os, s.e), s.ctrl, t.os, t.e, Delivers(k)) && Follows(k, t.e)
    && Cleared(s.books, t.books)
    && t == s.(os := t.os, e := t.e, fallback := true, pending := false, missed := 0, queued := [], log := [],
               books := t.books, fallbackCalls := s.fallbackCalls + 1)
  }

  /** It needs nothing of the session's stream or frames: a half-sent message does not matter. */
  lemma FellConsistent(s: Ctx, k: Setup, t: Ctx)
    requires Connection(s) && Booked(s.books) && Stored(s) && Fell(s, k, t)
    ensures Consistent(t)
  {
    GroundedRenewed(s.os, s.ctrl, s.e, t.os, t.e, Delivers(k), s.others, s.otherMaps);
    ClearedBooked(s.books, t.books);
  }

  // ---------- sending ----------

  /** An input event and what is sent right behind it. */
  function EventCells(ev: Event, payload: seq<SocketUtils.byte>): seq<Cell> {
    Put(EncodeHeader(INPUT_HEADER) + EncodeEvent(ev) + payload, [])
  }

  predicate Fits(m: Msg) { m.BufsReady? ==> |m.infos| == |m.fds| <= MAX_BUFS }

  /** A message goes out with one send, or two; what its event announces does not matter. */
  function Head(m: Msg): seq<Cell>
    requires Fits(m)
  {
    match m
    case BufsReady(infos, fds) => Put(EncodeHeader(BufsHeader(|infos|)), fds)
    case Plain(ev) => EventCells(ev, [])
    case WithPayload(ev, payload) => EventCells(ev, payload)
    case Resource(ev, _) => EventCells(ev, [])
  }

  function Tail(m: Msg): seq<Cell> {
    match m
    case BufsReady(infos, _) => Put(EncodeInfos(infos), [])
    case Resource(_, fds) => Put(EncodeHeader(FDS_HEADER), fds)
    case _ => []
  }

  function Bytes(m: Msg): seq<Cell>
    requires Fits(m)
  {
    Head(m) + Tail(m)
  }

  lemma BytesWrite(m: Msg)
    requires WellFormed(m)
    ensures Bytes(m) == Write(m)
  {
    if m.Plain? || m.Resource? {
      assert EncodeHeader(INPUT_HEADER) + EncodeEvent(m.ev) + [] == EncodeHeader(INPUT_HEADER) + EncodeEvent(m.ev);
    }
  }

  /** What the protocol makes of a message: nothing, if its event announces something else than follows it. */
  function Logged(m: Msg): seq<Msg> {
    if WellFormed(m) then [m] else []
  }

  predicate HasData(s: Ctx) {
    s.e.data in s.os.open && s.os.open[s.e.data].Ours?
  }

  /** These cells have gone out on the data socket, if any. */
  function Wrote(s: Ctx, cells: seq<Cell>): Ctx {
    if HasData(s) && cells != [] then s.(os := Sent(s.os, s.os.open[s.e.data].pair, cells)) else s
  }

  /** One more message went out whole. */
  predicate SentOne(s: Ctx, m: Msg, t: Ctx) {
    HasData(s) && Fits(m)
    && t == s.(os := Sent(s.os, s.os.open[s.e.data].pair, Bytes(m)), log := s.log + Logged(m))
  }

  /** Both sends move all they have to. */
  predicate Goes(s: Ctx, m: Msg, a: Answers)
    requires Fits(m)
  {
    HasData(s) && |Head(m)| <= a.first && |Tail(m)| <= a.second
  }

  /** What two sends move. */
  function InTwo(x: seq<Cell>, y: seq<Cell>, a: Answers): seq<Cell> {
    if |x| <= a.first then x + UpTo(y, a.second) else UpTo(x, a.first)
  }

  function PartOf(m: Msg, a: Answers): seq<Cell>
    requires Fits(m)
  {
    InTwo(Head(m), Tail(m), a)
  }

  /** Some of it went out, and the session ended. */
  ghost predicate BrokeOff(s: Ctx, m: Msg, a: Answers, t: Ctx) {
    Fits(m) && Fell(Wrote(s, PartOf(m, a)), a.setup, t)
  }

  /** A message sent in a session: all of it, or the session ends. */
  ghost predicate Sending(s: Ctx, m: Msg, a: Answers, t: Ctx) {
    Fits(m) && if Goes(s, m, a) then SentOne(s, m, t) else BrokeOff(s, m, a, t)
  }

  lemma WroteConnection(s: Ctx, cells: seq<Cell>)
    requires Connection(s) && !s.fallback
    ensures var u := Wrote(s, cells); Connection(u) && u == s.(os := u.os)
  {
    if HasData(s) && cells != [] {
      GroundedSent(s.os, s.ctrl, s.e, s.others, s.otherMaps, cells);
    }
  }

  lemma BrokeOffConsistent(s: Ctx, m: Msg, a: Answers, t: Ctx)
    requires Connection(s) && Booked(s.books) && Stored(s) && !s.fallback && BrokeOff(s, m, a, t)
    ensures Consistent(t)
  {
    var u := Wrote(s, PartOf(m, a));
    WroteConnection(s, PartOf(m, a));
    assert u.books == s.books && Stored(u);
    FellConsistent(u, a.setup, t);
  }

  lemma FellCalls(s: Ctx, k: Setup, t: Ctx)
    requires Called(s) && Fell(s, k, t)
    ensures Called(t) && t.fallback
  {
  }

  lemma BrokeOffCalls(s: Ctx, m: Msg, a: Answers, t: Ctx)
    requires Called(s) && BrokeOff(s, m, a, t)
    ensures Called(t) && t.fallback
  {
  }

  lemma SentOneGood(s: Ctx, m: Msg, t: Ctx)
    requires Consistent(s) && !s.fallback && !m.BufsReady? && WellFormed(m) && SentOne(s, m, t)
    ensures Consistent(t)
  {
    BytesWrite(m);
    GroundedSent(s.os, s.ctrl, s.e, s.others, s.otherMaps, Write(m));
    CarriedAppend(s.os, s.e, s.log, m);
    RepliedMore(s.log, s.books.services, s.books.recorded, m);
    SentPaced(s, m, t);
  }

  lemma SentPaced(s: Ctx, m: Msg, t: Ctx)
    requires Paced(s) && !s.fallback && SentOne(s, m, t)
    ensures Paced(t)
  {
    SamePacing(s.os, t.os, false, s.pending, s.missed, s.queued, s.e);
  }

  // ---------- the table, and leaving fallback ----------

  /** push_dmabufs_internal. */
  ghost predicate Pushed(s: Ctx, a: Answers, t: Ctx) {
    if s.fds == [] then t == s else Sending(s, BufsReady(s.infos, s.fds), a, t)
  }

  lemma PushedFirst(s: Ctx, a: Answers, t: Ctx)
    requires Connection(s) && Booked(s.books) && Stored(s) && Paced(s) && !s.fallback
    requires s.log == [] && s.books.recorded == {} && Carried(s.os, s.e, []) && Pushed(s, a, t)
    ensures Consistent(t)
  {
    var m := BufsReady(s.infos, s.fds);
    if s.fds == [] {
    } else if !Goes(s, m, a) {
      BrokeOffConsistent(s, m, a, t);
    } else {
      BytesWrite(m);
      GroundedSent(s.os, s.ctrl, s.e, s.others, s.otherMaps, Write(m));
      CarriedAppend(s.os, s.e, s.log, m);
      SentPaced(s, m, t);
    }
  }

  /** The FDS_READY has been read and the flip made. */
  function Flipped(s: Ctx): Ctx
    requires s.os.inbox != []
  {
    s.(os := s.os.(inbox := s.os.inbox[1..]), fallback := false, books := Rearmed(s.books))
  }

  lemma FlippedReady(s: Ctx)
    requires Consistent(s) && s.fallback && s.os.inbox != [] && s.os.inbox[0].Ready?
    ensures var u := Flipped(s);
            Connection(u) && Booked(u.books) && Stored(u) && Paced(u) && Carried(u.os, u.e, [])
  {
    var v := s.os.(inbox := s.os.inbox[1..]);
    GroundedRead(s.os, s.ctrl, s.e, s.others, s.otherMaps);
    RearmedBooked(s.books);
    SamePacing(s.os, v, true, s.pending, s.missed, s.queued, s.e);
    UnusedCarried(v, s.e);
  }

  /** try_exit_fallback: nothing to read, another header, or the flip, the table and the callback. */
  ghost predicate TriedExit(s: Ctx, a: Answers, t: Ctx) {
    if !a.polled || s.os.inbox == [] then t == s
    else if !s.os.inbox[0].Ready? then t == s.(os := s.os.(inbox := s.os.inbox[1..]))
    else t.exitCalls == s.exitCalls + 1 && Pushed(Flipped(s), a, t.(exitCalls := s.exitCalls))
  }

  /** There is an FDS_READY to read. */
  predicate Leaves(s: Ctx, a: Answers) {
    a.polled && s.os.inbox != [] && s.os.inbox[0].Ready?
  }

  lemma PushedCalls(s: Ctx, a: Answers, t: Ctx)
    requires !s.fallback && Pushed(s, a, t)
    ensures t.exitCalls == s.exitCalls && t.fallbackCalls == s.fallbackCalls + (if t.fallback then 1 else 0)
  {
  }

  lemma TriedExitGood(s: Ctx, a: Answers, t: Ctx)
    requires Good(s) && s.fallback && TriedExit(s, a, t)
    ensures Good(t)
  {
    if !a.polled || s.os.inbox == [] {
    } else if !s.os.inbox[0].Ready? {
      GroundedRead(s.os, s.ctrl, s.e, s.others, s.otherMaps);
      SamePacing(s.os, t.os, true, s.pending, s.missed, s.queued, s.e);
    } else {
      var u := t.(exitCalls := s.exitCalls);
      FlippedReady(s);
      PushedFirst(Flipped(s), a, u);
      PushedCalls(Flipped(s), a, u);
    }
  }

  // ---------- resource requests ----------

  /** The first service of this type, or |services|. */
  function ServiceIndex(services: seq<u32>, service: u32): (i: nat)
    ensures i <= |services| && (i < |services| ==> services[i] == service)
    ensures forall j | 0 <= j < i :: services[j] != service
  {
    if services == [] then 0
    else if services[0] == service then 0
    else
      var i := ServiceIndex(services[1..], service);
      assert forall j | 0 < j < 1 + i :: services[j] == services[1..][j - 1];
      1 + i
  }

  /** Slot i takes the new resources; what was in it is freed. */
  function Allotted(b: Books, i: nat, r: Resources): Books
    requires i < |b.resources|
  {
    b.(resources := b.resources[i := r], allocations := b.allocations + 1,
       given := b.given + HandedOut(r), freed := b.freed + HandedOut(b.resources[i]))
  }

  function Recorded(b: Books, i: nat): Books
    requires i < |b.services|
  {
    if |b.services| < 32 then b.(gate := Record(|b.services|, b.gate, i), recorded := b.recorded + {i})
    else b
  }

  lemma AllottedBooked(b: Books, i: nat, r: Resources)
    requires Booked(b) && i < |b.resources| && r.id == b.allocations
    ensures Booked(Allotted(b, i, r))
  {
    SlotReplaced(b.resources, b.given, b.freed, i, r);
  }

  lemma RecordedBooked(b: Books, i: nat)
    requires Booked(b) && i < |b.services|
    ensures Booked(Recorded(b, i))
  {
    if |b.services| < 32 {
      RecordStands(|b.services|, b.gate, b.recorded, i);
    }
  }

  /** The reply for slot i goes out and is recorded, or the session ends. */
  ghost predicate Replying(s: Ctx, i: nat, m: Msg, a: Answers, t: Ctx) {
    i < |s.books.services| && WellFormed(m) && IsReply(m, s.books.services[i])
    && if s.fallback then t == s
       else if Goes(s, m, a) then t.books == Recorded(s.books, i) && SentOne(s, m, t.(books := s.books))
       else BrokeOff(s, m, a, t)
  }

  lemma ReplyingConsistent(s: Ctx, i: nat, m: Msg, a: Answers, t: Ctx)
    requires Consistent(s) && Replying(s, i, m, a, t)
    ensures Consistent(t)
  {
    if s.fallback {
    } else if !Goes(s, m, a) {
      BrokeOffConsistent(s, m, a, t);
    } else {
      SentOneGood(s, m, t.(books := s.books));
      RecordedBooked(s.books, i);
      RepliedNow(s.log, s.books.services, s.books.recorded, m, i);
    }
  }

  /** handle_resource_request: `r` is what the service's allocator gives, `m` the reply. */
  ghost predicate Requested(s: Ctx, service: u32, r: Resources, m: Msg, a: Answers, t: Ctx) {
    var i := ServiceIndex(s.books.services, service);
    if i == |s.books.services| then t == s
    else
      i < |s.books.resources| && r.id == s.books.allocations
      && (exists w2, w3 :: |r.fds| < 0x8000_0000 && m == Reply(service, r.fds, w2, w3))
      && Replying(s.(books := Allotted(s.books, i, r)), i, m, a, t)
  }

  lemma AllottedConsistent(s: Ctx, i: nat, r: Resources)
    requires Consistent(s) && i < |s.books.services| && r.id == s.books.allocations
    ensures Consistent(s.(books := Allotted(s.books, i, r)))
  {
    AllottedBooked(s.books, i, r);
  }

  lemma ReplyingCalls(s: Ctx, i: nat, m: Msg, a: Answers, t: Ctx)
    requires Called(s) && Replying(s, i, m, a, t)
    ensures Called(t)
  {
  }

  lemma RequestedGood(s: Ctx, service: u32, r: Resources, m: Msg, a: Answers, t: Ctx)
    requires Good(s) && Requested(s, service, r, m, a, t)
    ensures Good(t)
  {
    var i := ServiceIndex(s.books.services, service);
    if i < |s.books.services| {
      var u := s.(books := Allotted(s.books, i, r));
      AllottedConsistent(s, i, r);
      ReplyingConsistent(u, i, m, a, t);
      ReplyingCalls(u, i, m, a, t);
    }
  }

  // ---------- what the calls of the library need ----------

  lemma WroteClosable(s: Ctx, cells: seq<Cell>)
    requires EndsOk(s.os, s.ctrl, s.e) && Sound(s.os)
    ensures EndsOk(Wrote(s, cells).os, s.ctrl, s.e) && Sound(Wrote(s, cells).os)
  {
  }

  lemma SentTwice(os: OS, pair: nat, a: seq<Cell>, b: seq<Cell>)
    ensures Sent(Sent(os, pair, a), pair, b) == Sent(os, pair, a + b)
  {
    assert (Cells(os, pair) + a) + b == Cells(os, pair) + (a + b);
    PutTwice(os.cells, pair, Cells(os, pair) + a, Cells(os, pair) + (a + b));
  }

  lemma PutTwice(m: map<nat, seq<Cell>>, pair: nat, x: seq<Cell>, y: seq<Cell>)
    ensures m[pair := x][pair := y] == m[pair := y]
  {
  }

  lemma WroteTwice(s: Ctx, a: seq<Cell>, b: seq<Cell>)
    requires a != [] && HasData(s)
    ensures Wrote(Wrote(s, a), b) == Wrote(s, a + b)
    ensures var pair := s.os.open[s.e.data].pair;
            Sent(Sent(s.os, pair, a), pair, b) == Sent(s.os, pair, a + b)
  {
    SentTwice(s.os, s.os.open[s.e.data].pair, a, b);
    if b == [] {
      assert a + b == a;
    }
  }

  lemma PushedClosable(s: Ctx, a: Answers, v: Ctx)
    requires EndsOk(s.os, s.ctrl, s.e) && Sound(s.os) && Pushed(s, a, v)
    ensures !v.fallback ==> EndsOk(v.os, v.ctrl, v.e) && Sound(v.os) && v.books == s.books && v.ctrl == s.ctrl
  {
  }

  /** In a session there is something to write the index to and to signal. */
  predicate Usable(s: Ctx) {
    !s.fallback ==>
      && s.e.address in s.os.maps && s.os.maps[s.e.address].Memory?
      && s.e.bufReady in s.os.open && s.os.open[s.e.bufReady].EventFd?
  }

  lemma GoodUsable(s: Ctx)
    requires Good(s)
    ensures Usable(s)
  {
  }
}
