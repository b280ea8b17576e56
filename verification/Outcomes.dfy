/** What a call comes to for the producer, who reads the stream: in terms of the bytes the sends could move. */
module Outcomes {
  import opened Options
  import opened Wire
  import opened InputFraming
  import opened Kernel
  import opened Agreement
  import opened Ledger
  import opened Context
  import opened Calls
  import opened Promises

  /** What the producer has been sent on the session's stream, read as messages. */
  function Heard(s: Ctx): Option<seq<Msg>> {
    if HasData(s) then ReadAll(Cells(s.os, s.os.open[s.e.data].pair)) else None
  }

  lemma SentHeard(s: Ctx, m: Msg, t: Ctx)
    requires HasData(s) && Carried(s.os, s.e, s.log) && WellFormed(m) && SentOne(s, m, t)
    ensures Heard(t) == Some(s.log + [m])
  {
    BytesWrite(m);
    CarriedAppend(s.os, s.e, s.log, m);
    UniquelyDecodable(s.log + [m], WriteAll(s.log + [m]));
  }

  lemma GoodReads(s: Ctx)
    requires Good(s) && !s.fallback
    ensures HasData(s) && Carried(s.os, s.e, s.log) && Heard(s) == Some(s.log)
  {
    TableShared(s);
  }

  /** How a message sent in a session comes out. */
  ghost predicate CameOut(s: Ctx, m: Msg, a: Answers, t: Ctx)
    requires Fits(m)
  {
    && (!t.fallback <==> |Head(m)| <= a.first && |Tail(m)| <= a.second)
    && (!t.fallback ==> Heard(t) == Some(s.log + [m]))
    && t.fallbackCalls == s.fallbackCalls + (if t.fallback then 1 else 0)
    && t.os.inbox == s.os.inbox && t.infos == s.infos && t.fds == s.fds
  }

  lemma BrokeOffCame(s: Ctx, m: Msg, a: Answers, t: Ctx)
    requires BrokeOff(s, m, a, t)
    ensures t.fallback && t.fallbackCalls == s.fallbackCalls + 1
    ensures t.os.inbox == s.os.inbox && t.infos == s.infos && t.fds == s.fds
  {
  }

  lemma SendingComesOut(s: Ctx, m: Msg, a: Answers, t: Ctx)
    requires !s.fallback && HasData(s) && Carried(s.os, s.e, s.log) && WellFormed(m) && Sending(s, m, a, t)
    ensures CameOut(s, m, a, t)
  {
    if Goes(s, m, a) {
      SentHeard(s, m, t);
    } else {
      BrokeOffCame(s, m, a, t);
    }
  }

  // ---------- input ----------

  /** How many bytes the message's event and payload take. */
  function SizeOf(m: Msg): nat {
    if m.WithPayload? then HEADER_SIZE + EVENT_SIZE + |m.payload| else HEADER_SIZE + EVENT_SIZE
  }

  /** -1 is returned exactly when the producer does not hear of the event in a session, and 0 in fallback. */
  lemma InputHeard(s: Ctx, m: Msg, a: Answers, t: Ctx, r: int)
    requires Good(s) && WellFormed(m) && (m.Plain? || m.WithPayload?) && PushedInput(s, m, a, t, r)
    ensures s.fallback ==> r == 0 && t == s
    ensures !s.fallback ==>
              if m.WithPayload? && !a.memory then r == -1 && t == s
              else if SizeOf(m) <= a.first then r == 0 && !t.fallback && Heard(t) == Some(s.log + [m])
              else r == -1 && t.fallback && t.fallbackCalls == s.fallbackCalls + 1
  {
    if !s.fallback && (a.memory || !m.WithPayload?) {
      GoodReads(s);
      SendingComesOut(s, m, a, t);
    }
  }

  // ---------- resources ----------

  predicate RoomFor(res: Resources, a: Answers) {
    HEADER_SIZE + EVENT_SIZE <= a.first && (res.fds == [] || HEADER_SIZE <= a.second)
  }

  /** The reply carries exactly the descriptors the allocator has given. */
  predicate Carries(m: Msg, service: u32, fds: seq<int>) {
    (m.Plain? || m.Resource?) && m.ev.kind == 11 && m.ev.w0 == service && m.ev.w1 == |fds|
    && if fds == [] then m.Plain? else m.Resource? && m.fds == fds
  }

  /** Slot i holds the new allocation; the others are as they were, and what was in the slot has been freed. */
  predicate TakesSlot(b: Books, i: nat, res: Resources, c: Books)
    requires i < |b.resources|
  {
    && |c.resources| == |b.resources| && c.resources[i] == res
    && (forall j | 0 <= j < |b.resources| && j != i :: c.resources[j] == b.resources[j])
    && (Held(b.resources, i) ==> b.resources[i].id in c.freed)
  }

  /** The reply is sent and service i recorded, or the session ends. */
  lemma ReplyingComesOut(s: Ctx, i: nat, m: Msg, a: Answers, t: Ctx)
    requires !s.fallback && HasData(s) && Carried(s.os, s.e, s.log) && Replying(s, i, m, a, t)
    ensures !t.fallback <==> |Head(m)| <= a.first && |Tail(m)| <= a.second
    ensures !t.fallback ==> Heard(t) == Some(s.log + [m]) && t.books == Recorded(s.books, i)
  {
    if Goes(s, m, a) {
      SentHeard(s, m, t.(books := s.books));
    } else {
      BrokeOffCame(s, m, a, t);
    }
  }

  lemma ReplyCarries(service: u32, res: Resources, m: Msg, a: Answers)
    requires |res.fds| < 0x8000_0000 && exists w2, w3 :: m == Reply(service, res.fds, w2, w3)
    ensures Carries(m, service, res.fds)
    ensures |Head(m)| <= a.first && |Tail(m)| <= a.second <==> RoomFor(res, a)
  {
  }

  lemma RecordedSlot(b: Books, i: nat, res: Resources)
    requires i < |b.services| == |b.resources|
    ensures var c := Recorded(Allotted(b, i, res), i);
            && TakesSlot(b, i, res, c) && c.services == b.services
            && c.recorded == if |b.services| < 32 then b.recorded + {i} else b.recorded
  {
  }

  lemma ReplyHeard(s: Ctx, i: nat, service: u32, res: Resources, m: Msg, a: Answers, t: Ctx)
    requires !s.fallback && HasData(s) && Carried(s.os, s.e, s.log) && i < |s.books.services| == |s.books.resources|
    requires |res.fds| < 0x8000_0000 && exists w2, w3 :: m == Reply(service, res.fds, w2, w3)
    requires Replying(s.(books := Allotted(s.books, i, res)), i, m, a, t)
    ensures !t.fallback <==> RoomFor(res, a)
    ensures !t.fallback ==>
              && Heard(t) == Some(s.log + [m]) && Carries(m, service, res.fds) && TakesSlot(s.books, i, res, t.books)
              && t.books.services == s.books.services
              && t.books.recorded == if |s.books.services| < 32 then s.books.recorded + {i} else s.books.recorded
  {
    ReplyCarries(service, res, m, a);
    RecordedSlot(s.books, i, res);
    ReplyingComesOut(s.(books := Allotted(s.books, i, res)), i, m, a, t);
  }

  /**
   In a session a request of a registered service is answered with exactly what the service's allocator gives, and
   recorded; unless the sends cannot move it all, and the session ends.
   */
  lemma RequestHeard(s: Ctx, service: u32, res: Resources, m: Msg, a: Answers, t: Ctx) returns (i: nat)
    requires Good(s) && !s.fallback && service in s.books.services && Requested(s, service, res, m, a, t)
    ensures i < |s.books.services| == |s.books.resources| && s.books.services[i] == service
    ensures forall j | 0 <= j < i :: s.books.services[j] != service
    ensures !t.fallback <==> RoomFor(res, a)
    ensures !t.fallback ==>
              && Heard(t) == Some(s.log + [m]) && Carries(m, service, res.fds) && TakesSlot(s.books, i, res, t.books)
              && t.books.services == s.books.services
              && t.books.recorded == if |s.books.services| < 32 then s.books.recorded + {i} else s.books.recorded
  {
    i := ServiceIndex(s.books.services, service);
    GoodReads(s);
    ReplyHeard(s, i, service, res, m, a, t);
  }

  /** In fallback the service is asked all the same, and nothing is sent or recorded; an unknown one is not asked. */
  lemma RequestUnheard(s: Ctx, service: u32, res: Resources, m: Msg, a: Answers, t: Ctx)
    requires Good(s) && Requested(s, service, res, m, a, t)
    requires s.fallback || service !in s.books.services
    ensures t == s.(books := t.books) && t.books.recorded == s.books.recorded
    ensures service !in s.books.services ==> t == s
    ensures service in s.books.services ==>
              exists i: nat :: i < |s.books.services| == |s.books.resources| && s.books.services[i] == service
                               && TakesSlot(s.books, i, res, t.books)
  {
    var i := ServiceIndex(s.books.services, service);
    if i < |s.books.services| {
      assert TakesSlot(s.books, i, res, t.books);
    }
  }

  /**
   After a successful registration exactly the registered services are known, each with an empty slot and none recorded;
   RequestHeard says what a request of them comes to.
   */
  lemma Registers(s: Ctx, types: seq<u32>, t: Ctx)
    requires Registered(s, types, true, t)
    ensures forall service :: service in t.books.services <==> service in types
    ensures |t.books.resources| == |t.books.services| == |types| && AllEmpty(t.books.resources)
    ensures t.books.recorded == {} && (t.books.gate.needsLock <==> types != [])
  {
  }

  // ---------- tables and sessions ----------

  predicate TableGoes(fds: seq<int>, a: Answers) {
    fds == [] || (HEADER_SIZE <= a.first && BUF_INFO_SIZE * |fds| <= a.second)
  }

  lemma PushedHeard(s: Ctx, a: Answers, t: Ctx)
    requires !s.fallback && HasData(s) && Carried(s.os, s.e, s.log) && |s.infos| == |s.fds| <= MAX_BUFS
    requires Pushed(s, a, t)
    ensures !t.fallback <==> TableGoes(s.fds, a)
    ensures !t.fallback ==> Heard(t) == Some(s.log + if s.fds == [] then [] else [BufsReady(s.infos, s.fds)])
    ensures t.os.inbox == s.os.inbox && t.fallbackCalls == s.fallbackCalls + if t.fallback then 1 else 0
  {
    if s.fds == [] {
      UniquelyDecodable(s.log, WriteAll(s.log));
      assert s.log + [] == s.log;
    } else {
      SendingComesOut(s, BufsReady(s.infos, s.fds), a, t);
    }
  }

  lemma FlippedCarried(s: Ctx)
    requires Good(s) && s.fallback && s.os.inbox != [] && s.os.inbox[0].Ready?
    ensures var u := Flipped(s);
            HasData(u) && Carried(u.os, u.e, []) && u.log == [] && |u.infos| == |u.fds| <= MAX_BUFS
  {
    FlippedReady(s);
  }

  lemma FlipBegins(s: Ctx, a: Answers, t: Ctx)
    requires s.fallback && Leaves(s, a) && TriedExit(s, a, t)
    requires var u := Flipped(s);
             HasData(u) && Carried(u.os, u.e, []) && u.log == [] && |u.infos| == |u.fds| <= MAX_BUFS
    ensures t.os.inbox == s.os.inbox[1..] && t.exitCalls == s.exitCalls + 1
    ensures !t.fallback <==> TableGoes(s.fds, a)
    ensures !t.fallback ==> Heard(t) == Some(if s.fds == [] then [] else [BufsReady(s.infos, s.fds)])
    ensures t.fallbackCalls == s.fallbackCalls + if t.fallback then 1 else 0
  {
    var v := t.(exitCalls := s.exitCalls);
    var table := if s.fds == [] then [] else [BufsReady(s.infos, s.fds)];
    PushedHeard(Flipped(s), a, v);
    assert Heard(t) == Heard(v) && [] + table == table;
  }

  /**
   An FDS_READY that poll reports is read and begins a session, and the producer hears of the stored table, and of
   nothing else; if the sends cannot move the table the session ends again. Each has its callback.
   */
  lemma ReadyBegins(s: Ctx, a: Answers, t: Ctx)
    requires Good(s) && s.fallback && TriedExit(s, a, t) && a.polled && s.os.inbox != [] && s.os.inbox[0].Ready?
    ensures t.os.inbox == s.os.inbox[1..] && t.exitCalls == s.exitCalls + 1
    ensures !t.fallback <==> TableGoes(s.fds, a)
    ensures !t.fallback ==> Heard(t) == Some(if s.fds == [] then [] else [BufsReady(s.infos, s.fds)])
    ensures t.fallbackCalls == s.fallbackCalls + if t.fallback then 1 else 0
  {
    FlippedCarried(s);
    FlipBegins(s, a, t);
  }

  /** Without one the context stays in fallback: another header is read, and nothing else happens. */
  lemma OtherStays(s: Ctx, a: Answers, t: Ctx)
    requires s.fallback && TriedExit(s, a, t) && !(a.polled && s.os.inbox != [] && s.os.inbox[0].Ready?)
    ensures t == s.(os := s.os.(inbox := if a.polled && s.os.inbox != [] then s.os.inbox[1..] else s.os.inbox))
  {
  }

  lemma TableSentHeard(s: Ctx, a: Answers, v: Ctx, t: Ctx, r: int)
    requires !s.fallback && HasData(s) && Carried(s.os, s.e, s.log) && 0 < |s.infos| == |s.fds| <= MAX_BUFS
    requires TableSent(s, a, v, t, r)
    ensures t.fallback && t.fallbackCalls == s.fallbackCalls + 1 && t.infos == s.infos && t.fds == s.fds
    ensures r == if TableGoes(s.fds, a) then 0 else -1
    ensures r == 0 ==> ReadAll(Cells(t.os, s.os.open[s.e.data].pair)) == Some(s.log + [BufsReady(s.infos, s.fds)])
  {
    PushedHeard(s, a, v);
  }

  lemma TablingHeard(s: Ctx, a: Answers, t: Ctx, r: int)
    requires !s.fallback && HasData(s) && Carried(s.os, s.e, s.log) && 0 < |s.infos| == |s.fds| <= MAX_BUFS
    requires Tabling(s, a, t, r)
    ensures t.fallback && t.fallbackCalls == s.fallbackCalls + 1 && t.infos == s.infos && t.fds == s.fds
    ensures r == if TableGoes(s.fds, a) then 0 else -1
    ensures r == 0 ==> ReadAll(Cells(t.os, s.os.open[s.e.data].pair)) == Some(s.log + [BufsReady(s.infos, s.fds)])
  {
    var v :| TableSent(s, a, v, t, r);
    TableSentHeard(s, a, v, t, r);
  }

  /** The stored table is a call's when the call is not given too many buffers. */
  lemma PushedTabling(s: Ctx, infos: seq<BufInfo>, fds: seq<int>, a: Answers, t: Ctx, r: int)
    requires |fds| <= MAX_BUFS && PushedTable(s, infos, fds, a, t, r)
    ensures |infos| == |fds| && Tabling(s.(infos := infos, fds := fds), a, t, r)
  {
    assert infos[..|infos|] == infos && fds[..|fds|] == fds;
  }

  /** push_dmabufs in a session: 0 exactly when the producer has the new table whole; the session ends either way. */
  lemma TableHeard(s: Ctx, infos: seq<BufInfo>, fds: seq<int>, a: Answers, t: Ctx, r: int)
    requires Good(s) && !s.fallback && 0 < |fds| <= MAX_BUFS && PushedTable(s, infos, fds, a, t, r)
    ensures t.fallback && t.fallbackCalls == s.fallbackCalls + 1 && t.infos == infos && t.fds == fds
    ensures r == if TableGoes(fds, a) then 0 else -1
    ensures HasData(s)
    ensures r == 0 ==> ReadAll(Cells(t.os, s.os.open[s.e.data].pair)) == Some(s.log + [BufsReady(infos, fds)])
  {
    GoodReads(s);
    PushedTabling(s, infos, fds, a, t, r);
    TablingHeard(s.(infos := infos, fds := fds), a, t, r);
  }

  lemma PushedStores(s: Ctx, a: Answers, t: Ctx)
    requires Pushed(s, a, t)
    ensures t.infos == s.infos && t.fds == s.fds
  {
  }

  lemma TablingStores(s: Ctx, a: Answers, t: Ctx, r: int)
    requires Tabling(s, a, t, r)
    ensures t.infos == s.infos && t.fds == s.fds
  {
    if !s.fallback {
      var v :| TableSent(s, a, v, t, r);
      PushedStores(s, a, v);
    }
  }

  /** Whatever happens to the session, the first eight buffers of the call are the stored table. */
  lemma TableStored(s: Ctx, infos: seq<BufInfo>, fds: seq<int>, a: Answers, t: Ctx, r: int)
    requires PushedTable(s, infos, fds, a, t, r)
    ensures t.infos == (if |infos| <= 8 then infos else infos[..8]) && t.fds == if |fds| <= 8 then fds else fds[..8]
  {
    assert infos[..|infos|] == infos && fds[..|fds|] == fds;
    TablingStores(s.(infos := infos[..Clamped(|infos|)], fds := fds[..Clamped(|fds|)]), a, t, r);
  }

  // ---------- frames ----------

  /** The records of the table the producer has read, if there is one. */
  function TableIn(read: seq<Msg>): seq<BufInfo> {
    if read != [] && read[0].BufsReady? then read[0].infos else []
  }

  /** The producer finds this index in the shared word. */
  predicate WordIs(s: Ctx, idx: int) {
    && s.e.address in s.os.maps && s.os.maps[s.e.address].Memory?
    && s.os.maps[s.e.address].id in s.os.memory && s.os.memory[s.os.maps[s.e.address].id] == idx
  }

  /**
   select_dmabuf in a session: 0 exactly for the indices of the table the producer has read, and then the index is in
   the shared word, one more frame is announced, and refresh_done will wait for it; -1 otherwise, and nothing is done.
   */
  lemma SelectHeard(s: Ctx, idx: int, t: Ctx, r: int)
    requires Good(s) && !s.fallback && Chose(s, idx, t, r)
    ensures Heard(s) == Some(s.log)
    ensures r == if 0 <= idx < |TableIn(s.log)| then 0 else -1
    ensures r == 0 ==> WordIs(t, idx) && t.pending && Announced(t.os, t.e) == Announced(s.os, s.e) + 1
    ensures r == -1 ==> t == s
  {
    GoodReads(s);
    TableShared(s);
    if 0 <= idx < |s.fds| {
      SelectedWord(s, idx, t, r);
    }
  }

  lemma SelectedWord(s: Ctx, idx: int, t: Ctx, r: int)
    requires Chose(s, idx, t, r) && !s.fallback && 0 <= idx < |s.fds|
    ensures WordIs(t, idx) && t.pending && Announced(t.os, t.e) == Announced(s.os, s.e) + 1
  {
  }

  // ---------- a message cut off ----------

  /** How many bytes two sends of these lengths move. */
  function Moves(x: nat, y: nat, a: Answers): nat {
    if a.first < x then a.first else if a.second < y then x + a.second else x + y
  }

  lemma PartIsPrefix(m: Msg, a: Answers)
    requires Fits(m)
    ensures PartOf(m, a) <= Bytes(m) && |PartOf(m, a)| == Moves(|Head(m)|, |Tail(m)|, a)
  {
  }

  lemma WroteCells(s: Ctx, part: seq<Cell>)
    requires HasData(s)
    ensures var pair := s.os.open[s.e.data].pair; Cells(Wrote(s, part).os, pair) == Cells(s.os, pair) + part
  {
  }

  lemma BrokeOffCells(s: Ctx, m: Msg, a: Answers, t: Ctx)
    requires BrokeOff(s, m, a, t)
    ensures t.os.cells == Wrote(s, PartOf(m, a)).os.cells
  {
  }

  /** What is left of a message that does not go out whole is a proper beginning of it, at the end of a dead stream. */
  lemma CutOff(s: Ctx, m: Msg, a: Answers, t: Ctx) returns (part: seq<Cell>)
    requires !s.fallback && HasData(s) && Carried(s.os, s.e, s.log) && Sending(s, m, a, t) && t.fallback
    ensures part < Bytes(m) && |part| == Moves(|Head(m)|, |Tail(m)|, a)
    ensures Cells(t.os, s.os.open[s.e.data].pair) == WriteAll(s.log) + part
  {
    part := PartOf(m, a);
    PartIsPrefix(m, a);
    WroteCells(s, part);
    BrokeOffCells(s, m, a, t);
  }
}
