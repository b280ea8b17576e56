/** What each call of the display library does, and what every run of them keeps. */
module Calls {
  import opened Options
  import opened Wire
  import opened InputFraming
  import opened Kernel
  import opened Agreement
  import opened Ledger
  import opened WriteGate
  import opened Context

  // ---------- frames ----------

  /** The index goes to the producer through shm, and a signal with it. */
  ghost predicate Selected(s: Ctx, idx: nat, t: Ctx) {
    && s.e.bufReady in s.os.open && s.os.open[s.e.bufReady].EventFd?
    && s.e.address in s.os.maps && s.os.maps[s.e.address].Memory?
    && t == s.(os := Signalled(s.os.(memory := s.os.memory[s.os.maps[s.e.address].id := idx]),
                               s.os.open[s.e.bufReady].id),
               pending := true, missed := if s.pending then s.missed + 1 else s.missed)
  }

  /** select_dmabuf once fallback has been tried. */
  ghost predicate Chose(s: Ctx, idx: int, t: Ctx, r: int) {
    if s.fallback then t == s && r == 0
    else if 0 <= idx < |s.fds| then Selected(s, idx, t) && r == 0
    else t == s && r == -1
  }

  ghost predicate Selecting(s: Ctx, idx: int, a: Answers, t: Ctx, r: int) {
    if s.fallback then exists u :: TriedExit(s, a, u) && Chose(u, idx, t, r)
    else Chose(s, idx, t, r)
  }

  lemma ChoseGood(s: Ctx, idx: int, t: Ctx, r: int)
    requires Good(s) && Chose(s, idx, t, r)
    ensures Good(t)
  {
    if !s.fallback && 0 <= idx < |s.fds| {
      var m, id := s.os.maps[s.e.address].id, s.os.open[s.e.bufReady].id;
      GroundedSelected(s.os, s.ctrl, s.e, s.others, s.otherMaps, id, m, idx);
      SelectedPaced(s, idx, t);
    }
  }

  lemma SelectedPaced(s: Ctx, idx: nat, t: Ctx)
    requires Paced(s) && !s.fallback && Selected(s, idx, t)
    ensures Paced(t)
  {
    var v := s.os.(memory := s.os.memory[s.os.maps[s.e.address].id := idx]);
    SamePacing(s.os, v, false, s.pending, s.missed, s.queued, s.e);
    SelectPacing(v, s.pending, s.missed, s.queued, s.e, s.os.open[s.e.bufReady].id);
  }

  lemma SelectingGood(s: Ctx, idx: int, a: Answers, t: Ctx, r: int)
    requires Good(s) && Selecting(s, idx, a, t, r)
    ensures Good(t)
  {
    if s.fallback {
      var u :| TriedExit(s, a, u) && Chose(u, idx, t, r);
      TriedExitGood(s, a, u);
      ChoseGood(u, idx, t, r);
    } else {
      ChoseGood(s, idx, t, r);
    }
  }

  /** The message of the pending frame has come. */
  ghost predicate Finished(s: Ctx, t: Ctx, r: int) {
    && Waiting(s.os, s.e.fence)
    && var pair := s.os.open[s.e.fence].pair;
       r == Fences(s.os, pair)[Taken(s.os, pair)]
       && t == s.(os := TookOne(s.os, pair), pending := false, queued := s.queued + [r])
  }

  /** refresh_done: nothing pending, late or closed, a failed read, or the frame's message. */
  ghost predicate Refreshed(s: Ctx, a: Answers, t: Ctx, r: int) {
    if !s.pending then t == s && r == -1
    else match a.report
         case Refused => t == s.(pending := false, missed := s.missed + 1) && r == -1
         case Arrived => if Waiting(s.os, s.e.fence) then Finished(s, t, r) else Fell(s, a.setup, t) && r == -1
         case _ => Fell(s, a.setup, t) && r == -1
  }

  lemma FinishedGood(s: Ctx, t: Ctx, r: int)
    requires Good(s) && s.pending && Finished(s, t, r)
    ensures Good(t)
  {
    var pair := s.os.open[s.e.fence].pair;
    GroundedFrame(s.os, s.ctrl, s.e, s.others, s.otherMaps, pair);
    FramePacing(s.os, s.missed, s.queued, s.e, pair);
  }

  lemma RefreshedGood(s: Ctx, a: Answers, t: Ctx, r: int)
    requires Good(s) && Refreshed(s, a, t, r)
    ensures Good(t)
  {
    if s.pending && !a.report.Refused? {
      if a.report.Arrived? && Waiting(s.os, s.e.fence) {
        FinishedGood(s, t, r);
      } else {
        FellConsistent(s, a.setup, t);
      }
    }
  }

  // ---------- events and tables ----------

  /**
   Any of the input pushes, whatever the event says: nothing in fallback or without memory for the buffer, all of the
   bytes, or the end of the session.
   */
  ghost predicate PushedInput(s: Ctx, m: Msg, a: Answers, t: Ctx, r: int) {
    if s.fallback then t == s && r == 0
    else if m.WithPayload? && !a.memory then t == s && r == -1
    else Sending(s, m, a, t) && r == if t.fallback then -1 else 0
  }

  lemma PushedInputGood(s: Ctx, m: Msg, a: Answers, t: Ctx, r: int)
    requires Good(s) && !m.BufsReady? && WellFormed(m) && PushedInput(s, m, a, t, r)
    ensures Good(t)
  {
    if !s.fallback && (a.memory || !m.WithPayload?) {
      if Goes(s, m, a) {
        SentOneGood(s, m, t);
      } else {
        BrokeOffConsistent(s, m, a, t);
        BrokeOffCalls(s, m, a, t);
      }
    }
  }

  function FdsMsg(ev: Event, fds: seq<int>): Msg {
    if fds == [] then Plain(ev) else Resource(ev, fds)
  }

  /** The producer reads the event and what follows it as that message if and only if the event announces it. */
  lemma ReadIffAnnounced(s: Ctx, m: Msg, a: Answers, t: Ctx)
    requires !s.fallback && Carried(s.os, s.e, s.log) && PushedInput(s, m, a, t, 0)
    ensures ReadAll(Cells(t.os, s.os.open[s.e.data].pair)) == Some(s.log + [m]) <==> WellFormed(m)
  {
    var read := Cells(t.os, s.os.open[s.e.data].pair);
    UniquelyDecodable(s.log + [m], read);
    if WellFormed(m) {
      BytesWrite(m);
      WriteAppend(s.log, m);
    } else {
      assert m in s.log + [m];
    }
  }

  function Clamped(count: nat): nat {
    if count > MAX_BUFS then MAX_BUFS else count
  }

  /** The new table is stored; a session hears of it on the old stream, and ends. */
  ghost predicate Tabling(s: Ctx, a: Answers, t: Ctx, r: int) {
    if s.fallback then t == s && r == 0
    else exists v :: TableSent(s, a, v, t, r)
  }

  /** -1 exactly when the table has not gone out whole. */
  ghost predicate TableSent(s: Ctx, a: Answers, v: Ctx, t: Ctx, r: int) {
    Pushed(s, a, v) && if v.fallback then t == v && r == -1 else Fell(v, a.setup, t) && r == 0
  }

  ghost predicate PushedTable(s: Ctx, infos: seq<BufInfo>, fds: seq<int>, a: Answers, t: Ctx, r: int) {
    |infos| == |fds| && Tabling(s.(infos := infos[..Clamped(|infos|)], fds := fds[..Clamped(|fds|)]), a, t, r)
  }

  lemma PushedStays(s: Ctx, a: Answers, v: Ctx)
    requires Connection(s) && Booked(s.books) && Stored(s) && !s.fallback && Pushed(s, a, v)
    ensures Connection(v) && Booked(v.books) && Stored(v) && (v.fallback ==> Consistent(v))
  {
    var m := BufsReady(s.infos, s.fds);
    if s.fds != [] {
      if Goes(s, m, a) {
        GroundedSent(s.os, s.ctrl, s.e, s.others, s.otherMaps, Bytes(m));
      } else {
        BrokeOffConsistent(s, m, a, v);
      }
    }
  }

  lemma TablingGood(s: Ctx, a: Answers, t: Ctx, r: int)
    requires Connection(s) && Booked(s.books) && Stored(s) && !s.fallback && Called(s) && Tabling(s, a, t, r)
    ensures Good(t)
  {
    var v :| TableSent(s, a, v, t, r);
    PushedStays(s, a, v);
    PushedCalls(s, a, v);
    if !v.fallback {
      FellConsistent(v, a.setup, t);
      FellCalls(v, a.setup, t);
    }
  }

  /** Storing a table during fallback, or ending the session: either way the stored and the sent table agree. */
  lemma PushedTableGood(s: Ctx, infos: seq<BufInfo>, fds: seq<int>, a: Answers, t: Ctx, r: int)
    requires Good(s) && PushedTable(s, infos, fds, a, t, r)
    ensures Good(t)
  {
    var u := s.(infos := infos[..Clamped(|infos|)], fds := fds[..Clamped(|fds|)]);
    if !s.fallback {
      TablingGood(u, a, t, r);
    }
  }

  // ---------- the rest ----------

  /** allocate_services; `ok` is whether malloc succeeds. Whatever the slots held is forgotten, not freed. */
  ghost predicate Registered(s: Ctx, types: seq<u32>, ok: bool, t: Ctx) {
    if ok then
      && t.books.services == types && |t.books.resources| == |types| && AllEmpty(t.books.resources)
      && t == s.(books := Rearmed(s.books.(services := types, resources := t.books.resources)))
    else t == s.(books := s.books.(services := [], resources := []))
  }

  /** Nothing is allocated; and without memory for the slots there have been no services before. */
  ghost predicate MayRegister(b: Books, ok: bool) {
    AllEmpty(b.resources) && (ok || b.services == [])
  }

  lemma RegisteredGood(s: Ctx, types: seq<u32>, ok: bool, t: Ctx)
    requires Good(s) && Registered(s, types, ok, t) && MayRegister(s.books, ok)
    ensures Good(t)
  {
    EmptyReplaced(s.books.resources, t.books.resources, s.books.given, s.books.freed);
    if ok {
      ArmStands(|types|);
    } else {
      assert s.books.resources == [];
    }
  }

  lemma ForgottenLeaks(b: Books, c: Books)
    requires LedgerOk(b.resources, b.given, b.freed) && !AllEmpty(b.resources) && AllEmpty(c.resources)
    requires c.given == b.given && c.freed == b.freed
    ensures !LedgerOk(c.resources, c.given, c.freed)
  {
    var i :| 0 <= i < |b.resources| && b.resources[i].kind != UNALLOCATED;
    assert Held(b.resources, i) && b.resources[i].id in Live(b.resources);
    assert Live(c.resources) == {};
  }

  lemma UnarmedShut(s: Ctx, t: Ctx)
    requires Good(s) && Registered(s, [], false, t) && s.books.services != []
    ensures !Good(t)
  {
    if s.books.recorded == {} {
      assert 0 !in s.books.recorded;
      assert s.books.gate.needsLock && !Stands(0, s.books.gate, s.books.recorded);
    } else {
      var j :| j in s.books.recorded;
      assert !Replied(t.log, [], t.books.recorded);
    }
  }

  /** Registering keeps the ledger and the gate in order if and only if that holds. */
  lemma RegisteredGoodIff(s: Ctx, types: seq<u32>, ok: bool, t: Ctx)
    requires Good(s) && Registered(s, types, ok, t)
    ensures Good(t) <==> MayRegister(s.books, ok)
  {
    if MayRegister(s.books, ok) {
      RegisteredGood(s, types, ok, t);
    } else if !AllEmpty(s.books.resources) {
      ForgottenLeaks(s.books, t.books);
    } else {
      UnarmedShut(s, t);
    }
  }

  ghost predicate HungUp(s: Ctx, k: Setup, t: Ctx) {
    if s.fallback then t == s else Fell(s, k, t)
  }

  lemma HungUpGood(s: Ctx, k: Setup, t: Ctx)
    requires Good(s) && HungUp(s, k, t)
    ensures Good(t)
  {
    if !s.fallback {
      FellConsistent(s, k, t);
    }
  }

  lemma MovedGood(s: Ctx, move: Move)
    requires Good(s) && CanMove(s.os, move)
    ensures Good(s.(os := Moved(s.os, move)))
  {
    GroundedMoved(s.os, s.ctrl, s.e, s.fallback, s.others, s.otherMaps, move);
    ProducerPacing(s.os, move, s.fallback, s.pending, s.missed, s.queued, s.e);
  }
}
