/** The word in shared memory: in every state of every run it is an index the producer can use, or still 0. */
module SharedWord {
  import opened Wire
  import opened InputFraming
  import opened Kernel
  import opened Endpoints
  import opened Agreement
  import opened Ledger
  import opened Context
  import opened Calls
  import opened Runs
  import opened Promises

  /** 0 until a frame has been announced, and then an index of the stored table. */
  predicate WordOk(s: Ctx) {
    s.e.address > 0 ==>
      && s.e.address in s.os.maps && s.os.maps[s.e.address].Memory?
      && var id := s.os.maps[s.e.address].id;
         id in s.os.memory
         && (s.os.memory[id] == 0 || (Announced(s.os, s.e) > 0 && s.os.memory[id] < |s.fds|))
  }

  /** WordOk looks at these parts only. */
  predicate SameWord(s: Ctx, t: Ctx) {
    t.e == s.e && t.os.open == s.os.open && t.os.maps == s.os.maps && t.os.memory == s.os.memory
    && t.os.signals == s.os.signals
  }

  lemma SameWordOk(s: Ctx, t: Ctx)
    requires WordOk(s) && SameWord(s, t)
    requires t.fds == s.fds || Announced(s.os, s.e) == 0
    ensures WordOk(t)
  {
  }

  lemma FellWord(s: Ctx, k: Setup, t: Ctx)
    requires Fell(s, k, t)
    ensures WordOk(t)
  {
  }

  lemma SendingWord(s: Ctx, m: Msg, a: Answers, t: Ctx)
    requires WordOk(s) && Sending(s, m, a, t)
    ensures WordOk(t)
  {
    if Goes(s, m, a) {
      SameWordOk(s, t);
    } else {
      FellWord(Wrote(s, PartOf(m, a)), a.setup, t);
    }
  }

  lemma PushedWord(s: Ctx, a: Answers, t: Ctx)
    requires WordOk(s) && Pushed(s, a, t)
    ensures WordOk(t)
  {
    if s.fds != [] {
      SendingWord(s, BufsReady(s.infos, s.fds), a, t);
    }
  }

  lemma TriedExitWord(s: Ctx, a: Answers, u: Ctx)
    requires WordOk(s) && TriedExit(s, a, u)
    ensures WordOk(u)
  {
    if Leaves(s, a) {
      var v := u.(exitCalls := s.exitCalls);
      SameWordOk(s, Flipped(s));
      PushedWord(Flipped(s), a, v);
      SameWordOk(v, u);
    } else {
      SameWordOk(s, u);
    }
  }

  lemma SelectedWord(s: Ctx, idx: nat, t: Ctx)
    requires WordOk(s) && EndsOk(s.os, s.ctrl, s.e) && idx < |s.fds| && Selected(s, idx, t)
    ensures WordOk(t)
  {
  }

  lemma ChoseWord(s: Ctx, idx: int, t: Ctx, r: int)
    requires WordOk(s) && EndsOk(s.os, s.ctrl, s.e) && Chose(s, idx, t, r)
    ensures WordOk(t)
  {
    if !s.fallback && 0 <= idx < |s.fds| {
      SelectedWord(s, idx, t);
    }
  }

  lemma GoodEnds(s: Ctx)
    requires Good(s)
    ensures EndsOk(s.os, s.ctrl, s.e) && (s.fallback ==> Announced(s.os, s.e) == 0)
  {
  }

  lemma SelectingWord(s: Ctx, idx: int, a: Answers, t: Ctx, r: int)
    requires Good(s) && WordOk(s) && Selecting(s, idx, a, t, r)
    ensures WordOk(t)
  {
    if s.fallback {
      var u :| TriedExit(s, a, u) && Chose(u, idx, t, r);
      TriedExitGood(s, a, u);
      TriedExitWord(s, a, u);
      GoodEnds(u);
      ChoseWord(u, idx, t, r);
    } else {
      GoodEnds(s);
      ChoseWord(s, idx, t, r);
    }
  }

  lemma RefreshedWord(s: Ctx, a: Answers, t: Ctx, r: int)
    requires WordOk(s) && Refreshed(s, a, t, r)
    ensures WordOk(t)
  {
    if s.pending && (a.report.Silent? || a.report.Ended? || (a.report.Arrived? && !Waiting(s.os, s.e.fence))) {
      FellWord(s, a.setup, t);
    } else {
      SameWordOk(s, t);
    }
  }

  lemma RequestedWord(s: Ctx, service: u32, res: Resources, m: Msg, a: Answers, t: Ctx)
    requires WordOk(s) && Requested(s, service, res, m, a, t)
    ensures WordOk(t)
  {
    var i := ServiceIndex(s.books.services, service);
    if i < |s.books.services| {
      var u := s.(books := Allotted(s.books, i, res));
      SameWordOk(s, u);
      if u.fallback {
      } else if Goes(u, m, a) {
        SameWordOk(u, t);
      } else {
        SendingWord(u, m, a, t);
      }
    }
  }

  lemma PushedTableWord(s: Ctx, infos: seq<BufInfo>, fds: seq<int>, a: Answers, t: Ctx, r: int)
    requires WordOk(s) && (s.fallback ==> Announced(s.os, s.e) == 0) && PushedTable(s, infos, fds, a, t, r)
    ensures WordOk(t)
  {
    var u := s.(infos := infos[..Clamped(|infos|)], fds := fds[..Clamped(|fds|)]);
    if s.fallback {
      SameWordOk(s, u);
    } else {
      var v :| TableSent(u, a, v, t, r);
      TableSentWord(u, a, v, t, r);
    }
  }

  /** The session ends, whatever its word. */
  lemma TableSentWord(s: Ctx, a: Answers, v: Ctx, t: Ctx, r: int)
    requires !s.fallback && TableSent(s, a, v, t, r)
    ensures WordOk(t)
  {
    if v.fallback {
      FellWord(Wrote(s, PartOf(BufsReady(s.infos, s.fds), a)), a.setup, t);
    } else {
      FellWord(v, a.setup, t);
    }
  }

  lemma PushedInputWord(s: Ctx, m: Msg, a: Answers, t: Ctx, r: int)
    requires WordOk(s) && PushedInput(s, m, a, t, r)
    ensures WordOk(t)
  {
    if !s.fallback && (a.memory || !m.WithPayload?) {
      SendingWord(s, m, a, t);
    }
  }

  lemma HungUpWord(s: Ctx, k: Setup, t: Ctx)
    requires WordOk(s) && HungUp(s, k, t)
    ensures WordOk(t)
  {
    if !s.fallback {
      FellWord(s, k, t);
    }
  }

  lemma RegisteredWord(s: Ctx, types: seq<u32>, ok: bool, t: Ctx)
    requires WordOk(s) && Registered(s, types, ok, t)
    ensures WordOk(t)
  {
    SameWordOk(s, t);
  }

  lemma MovedWord(s: Ctx, move: Move)
    requires WordOk(s) && CanMove(s.os, move)
    ensures WordOk(s.(os := Moved(s.os, move)))
  {
    SameWordOk(s, s.(os := Moved(s.os, move)));
  }

  lemma StepWord(s: Ctx, call: Call, t: Ctx)
    requires Good(s) && WordOk(s) && Step(s, call, t)
    ensures WordOk(t)
  {
    match call
    case Services(types, ok) => RegisteredWord(s, types, ok, t);
    case Select(idx, a, r) => SelectingWord(s, idx, a, t, r);
    case Refresh(a, r) => RefreshedWord(s, a, t, r);
    case Input(m, a, r) => PushedInputWord(s, m, a, t, r);
    case Request(service, res, m, a) => RequestedWord(s, service, res, m, a, t);
    case Table(infos, fds, a, r) =>
      GoodEnds(s);
      PushedTableWord(s, infos, fds, a, t, r);
    case HangUp(k) => HungUpWord(s, k, t);
    case Producer(move) => MovedWord(s, move);
  }

  lemma RunWordStep(os: OS, ctrl: int, ss: seq<Ctx>, calls: seq<Call>, i: nat)
    requires IsRun(os, ctrl, ss, calls) && i < |calls| && WordOk(ss[i])
    ensures WordOk(ss[i + 1])
  {
    RunGood(os, ctrl, ss, calls, i);
    StepWord(ss[i], calls[i], ss[i + 1]);
  }

  lemma BegunWord(os: OS, ctrl: int, s: Ctx)
    requires Begun(os, ctrl, s)
    ensures WordOk(s)
  {
  }

  lemma RunWord(os: OS, ctrl: int, ss: seq<Ctx>, calls: seq<Call>, i: nat)
    requires IsRun(os, ctrl, ss, calls) && i < |ss|
    ensures WordOk(ss[i])
  {
    BegunWord(os, ctrl, ss[0]);
    forall k | 0 <= k < |ss| - 1 && WordOk(ss[k])
      ensures WordOk(ss[k + 1])
    {
      RunWordStep(os, ctrl, ss, calls, k);
    }
    Throughout(ss, (s: Ctx) => WordOk(s), i);
  }

  lemma WordOfTable(s: Ctx) returns (word: nat, read: seq<Msg>)
    requires Good(s) && !s.fallback && WordOk(s)
    ensures s.e.address in s.os.maps && s.os.maps[s.e.address].Memory?
            && s.os.maps[s.e.address].id in s.os.memory && s.os.memory[s.os.maps[s.e.address].id] == word
    ensures HasData(s) && ReadAll(Cells(s.os, s.os.open[s.e.data].pair)) == Options.Some(read)
    ensures if Announced(s.os, s.e) == 0 then word == 0
            else word == 0 || (read != [] && read[0].BufsReady? && word < |read[0].infos|)
  {
    SessionAgreed(s);
    TableShared(s);
    word, read := s.os.memory[s.os.maps[s.e.address].id], s.log;
  }

  /**
   Whenever the producer looks during a session, the word is an index of the table it has read, or 0; and 0 as long as
   no frame has been announced: an index of an earlier session is never there.
   */
  lemma WordInTable(os: OS, ctrl: int, ss: seq<Ctx>, calls: seq<Call>, i: nat) returns (word: nat, read: seq<Msg>)
    requires IsRun(os, ctrl, ss, calls) && i < |ss| && !ss[i].fallback
    ensures var s := ss[i];
            && s.e.address in s.os.maps && s.os.maps[s.e.address].Memory?
            && s.os.maps[s.e.address].id in s.os.memory && s.os.memory[s.os.maps[s.e.address].id] == word
            && HasData(s) && ReadAll(Cells(s.os, s.os.open[s.e.data].pair)) == Options.Some(read)
            && if Announced(s.os, s.e) == 0 then word == 0
               else word == 0 || (read != [] && read[0].BufsReady? && word < |read[0].infos|)
  {
    RunGood(os, ctrl, ss, calls, i);
    RunWord(os, ctrl, ss, calls, i);
    word, read := WordOfTable(ss[i]);
  }
}
