/**
 The render thread: the buffers of the window, as Collect has enumerated them, drawn one after the other, each
 waited for before the next is selected.
 */
module RenderLoop {
  import opened Options
  import opened Wire
  import opened InputFraming
  import opened Kernel
  import opened Agreement
  import opened Context
  import opened Calls
  import opened Runs
  import opened Promises
  import opened Pacing
  import opened DisplayContext
  import opened WindowTrace
  import Collect

  /** What the kernel answers to a pass of the loop, and what the producer does while the pass waits. */
  datatype Around = Around(answers: Answers, moves: seq<Move>)

  /**
   One pass of the loop: where it starts, the slot of its buffer, the state in which it waits for the frame, the state
   it leaves, and the fence it queues.
   */
  datatype Drawn = Drawn(start: Ctx, idx: int, around: Around, before: Ctx, after: Ctx, fence: int)

  /** The fences of the passes. */
  function FencesOf(drawn: seq<Drawn>): (fences: seq<int>)
    ensures |fences| == |drawn|
  {
    seq(|drawn|, i requires 0 <= i < |drawn| => drawn[i].fence)
  }

  // ---------- one frame ----------

  /** The index is in the word the producer reads. */
  predicate Published(s: Ctx, idx: int) {
    && s.e.address in s.os.maps && s.os.maps[s.e.address].Memory?
    && s.os.maps[s.e.address].id in s.os.memory && s.os.memory[s.os.maps[s.e.address].id] == idx
  }

  predicate Failed(d: Drawn) {
    ReadFails(d.before, Refresh(d.around.answers, d.fence))
  }

  ghost predicate Completed(d: Drawn) {
    d.before.pending && Finished(d.before, d.after, d.fence)
  }

  /**
   The buffer is queued without a fence, or with the next of the session's, which is its own frame's if and only if
   the session has given up no frame.
   */
  ghost predicate Right(d: Drawn) {
    && !d.after.pending
    && (d.before.pending <==> !d.before.fallback && 0 <= d.idx < |d.before.fds|)
    && (d.before.pending ==> Published(d.before, d.idx))
    && (!d.start.fallback ==> !d.before.fallback)
    && (!Completed(d) ==> d.fence == -1)
    && (Completed(d) ==>
          var fences := SessionFences(d.before.os, d.before.e);
          && |d.before.queued| < |fences| && d.fence == fences[|d.before.queued|]
          && (|d.before.queued| == Announced(d.before.os, d.before.e) - 1 <==> d.before.missed == 0))
  }

  /** A frame whose message could not be read, in the session that is still on. */
  function MissedAfter(missed: nat, d: Drawn): nat {
    if d.after.fallback then 0 else if Failed(d) then missed + 1 else missed
  }

  /** The frames given up in the session after these passes: its failed reads. */
  function FailedReads(missed: nat, drawn: seq<Drawn>): nat {
    if drawn == [] then missed else MissedAfter(FailedReads(missed, drawn[..|drawn| - 1]), drawn[|drawn| - 1])
  }

  /** The stored table stays what it is. */
  predicate SameTable(s: Ctx, t: Ctx) {
    t.infos == s.infos && t.fds == s.fds
  }

  lemma PushedTableSame(s: Ctx, a: Answers, t: Ctx)
    requires Pushed(s, a, t)
    ensures SameTable(s, t)
  {
  }

  lemma SelectingTable(s: Ctx, idx: int, a: Answers, t: Ctx, r: int)
    requires Selecting(s, idx, a, t, r)
    ensures SameTable(s, t)
  {
    if s.fallback {
      var u :| TriedExit(s, a, u) && Chose(u, idx, t, r);
      if Leaves(s, a) {
        PushedTableSame(Flipped(s), a, u.(exitCalls := s.exitCalls));
      }
    }
  }

  lemma SelectingFrame(s: Ctx, idx: int, a: Answers, t: Ctx, r: int)
    requires Unpaced(s) && !s.pending && Selecting(s, idx, a, t, r)
    ensures t.pending <==> !t.fallback && 0 <= idx < |t.fds|
    ensures t.pending ==> Published(t, idx)
    ensures r < 0 ==> t.fallback || !(0 <= idx < |t.fds|)
    ensures t.missed == s.missed && (!s.fallback ==> !t.fallback)
  {
    if s.fallback {
      var u :| TriedExit(s, a, u) && Chose(u, idx, t, r);
      LeavingMissed(s, a, u);
    }
  }

  /** The producer makes those of these moves that it can. */
  function Acted(os: OS, moves: seq<Move>): OS
    decreases |moves|
  {
    if moves == [] then os
    else if CanMove(os, moves[0]) then Acted(Moved(os, moves[0]), moves[1..])
    else Acted(os, moves[1..])
  }

  lemma {:induction false} ActedGood(s: Ctx, moves: seq<Move>)
    requires Good(s)
    ensures Good(s.(os := Acted(s.os, moves)))
    decreases |moves|
  {
    if moves == [] {
      assert s.(os := Acted(s.os, moves)) == s;
    } else if CanMove(s.os, moves[0]) {
      MovedGood(s, moves[0]);
      ActedGood(s.(os := Moved(s.os, moves[0])), moves[1..]);
    } else {
      ActedGood(s, moves[1..]);
    }
  }

  lemma {:induction false} ActedMemory(os: OS, moves: seq<Move>)
    ensures Acted(os, moves).memory == os.memory && Acted(os, moves).maps == os.maps
    decreases |moves|
  {
    if moves != [] {
      if CanMove(os, moves[0]) {
        ActedMemory(Moved(os, moves[0]), moves[1..]);
      } else {
        ActedMemory(os, moves[1..]);
      }
    }
  }

  /** refresh_done, as the loop sees it. */
  lemma RefreshRight(d: Drawn)
    requires Good(d.before) && Refreshed(d.before, d.around.answers, d.after, d.fence)
    requires d.before.pending <==> !d.before.fallback && 0 <= d.idx < |d.before.fds|
    requires d.before.pending ==> Published(d.before, d.idx)
    requires !d.start.fallback ==> !d.before.fallback
    ensures Right(d) && SameTable(d.before, d.after)
    ensures d.after.missed == MissedAfter(d.before.missed, d)
  {
    GoodUnpaced(d.before);
    RefreshCounted(d.before, d.around.answers, d.fence, d.after);
    if d.before.pending && Finished(d.before, d.after, d.fence) {
      OwnFenceIff(d.before, d.after, d.fence);
    }
  }

  /** No frame announced, none to wait for. */
  lemma IdleRight(d: Drawn)
    requires d.after == d.before && d.fence == -1 && !d.before.pending && Unpaced(d.before)
    requires d.before.fallback || !(0 <= d.idx < |d.before.fds|)
    requires !d.start.fallback ==> !d.before.fallback
    ensures Right(d) && MissedAfter(d.before.missed, d) == d.before.missed
  {
  }

  /** What a pass does to the context: select_dmabuf, what the producer does meanwhile, and refresh_done. */
  ghost predicate Drew(d: Drawn) {
    if d.idx < 0 then d.before == d.after == d.start && d.fence == -1
    else exists m, r :: Selecting(d.start, d.idx, d.around.answers, m, r) && Waited(d, m, r)
  }

  ghost predicate Waited(d: Drawn, m: Ctx, r: int) {
    if r < 0 then d.before == d.after == m && d.fence == -1
    else d.before == m.(os := Acted(m.os, d.around.moves)) && Refreshed(d.before, d.around.answers, d.after, d.fence)
  }

  /** What select_dmabuf leaves for the wait. */
  ghost predicate Announcing(s: Ctx, idx: int, m: Ctx, r: int) {
    && Good(m) && SameTable(s, m) && m.missed == s.missed && (!s.fallback ==> !m.fallback)
    && (m.pending <==> !m.fallback && 0 <= idx < |m.fds|)
    && (m.pending ==> Published(m, idx))
    && (r < 0 ==> m.fallback || !(0 <= idx < |m.fds|))
  }

  lemma SelectingAnnounces(s: Ctx, idx: int, a: Answers, m: Ctx, r: int)
    requires Good(s) && !s.pending && Selecting(s, idx, a, m, r)
    ensures Announcing(s, idx, m, r)
  {
    GoodUnpaced(s);
    SelectingGood(s, idx, a, m, r);
    SelectingTable(s, idx, a, m, r);
    SelectingFrame(s, idx, a, m, r);
  }

  lemma WaitedRight(d: Drawn, m: Ctx, r: int)
    requires Announcing(d.start, d.idx, m, r) && Waited(d, m, r) && Unpaced(m)
    ensures Right(d) && SameTable(d.start, d.before) && SameTable(d.start, d.after)
    ensures d.after.missed == MissedAfter(d.start.missed, d)
  {
    if r < 0 {
      IdleRight(d);
    } else {
      ActedGood(m, d.around.moves);
      ActedMemory(m.os, d.around.moves);
      RefreshRight(d);
    }
  }

  lemma DrewRight(d: Drawn)
    requires Good(d.start) && !d.start.pending && Drew(d)
    ensures Right(d) && SameTable(d.start, d.before) && SameTable(d.start, d.after)
    ensures d.after.missed == MissedAfter(d.start.missed, d)
  {
    if d.idx < 0 {
      GoodUnpaced(d.start);
      IdleRight(d);
    } else {
      var m, r :| Selecting(d.start, d.idx, d.around.answers, m, r) && Waited(d, m, r);
      SelectingAnnounces(d.start, d.idx, d.around.answers, m, r);
      GoodUnpaced(m);
      WaitedRight(d, m, r);
    }
  }

  /** refresh_done while the producer moves. */
  method AwaitFrame(ctx: DisplayCtx, around: Around) returns (fence: int, ghost before: Ctx)
    requires Good(ctx.V())
    modifies ctx
    ensures Good(ctx.V()) && before == old(ctx.V()).(os := Acted(old(ctx.os), around.moves))
    ensures Refreshed(before, around.answers, ctx.V(), fence)
  {
    GoodUnpaced(ctx.V());
    ActedGood(ctx.V(), around.moves);
    ctx.os := Acted(ctx.os, around.moves);
    before := ctx.V();
    fence := ctx.RefreshDone(around.answers);
    RefreshedGood(before, around.answers, ctx.V(), fence);
  }

  /** One dequeued buffer, at slot idx, or -1. */
  method DrawFrame(ctx: DisplayCtx, idx: int, around: Around) returns (fence: int, ghost d: Drawn)
    requires Good(ctx.V()) && !ctx.bufferPending
    modifies ctx
    ensures Good(ctx.V())
    ensures Drew(d) && d.start == old(ctx.V()) && d.idx == idx && d.around == around
    ensures d.after == ctx.V() && d.fence == fence
  {
    ghost var s := ctx.V();
    fence := -1;
    if idx < 0 {
      d := Drawn(s, idx, around, s, s, fence);
      return;
    }
    var sel := ctx.SelectDmabuf(idx, around.answers);
    ghost var m := ctx.V();
    SelectingGood(s, idx, around.answers, m, sel);
    ghost var before := m;
    if sel >= 0 {
      fence, before := AwaitFrame(ctx, around);
    }
    d := Drawn(s, idx, around, before, ctx.V(), fence);
    assert Selecting(d.start, d.idx, d.around.answers, m, sel) && Waited(d, m, sel);
  }

  // ---------- the collected buffers ----------

  /** The stored table is that of the collected buffers. */
  ghost predicate TableOf(s: Ctx, entries: seq<Collect.Dequeue>)
    requires forall d | d in entries :: d.Buffer?
  {
    s.infos == Collect.InfosOf(entries) && s.fds == Collect.DupsOf(entries)
  }

  /** do_connect hands the collected buffers to the context. */
  method PushCollected(ctx: DisplayCtx, s: Collect.ConsumerState, ghost entries: seq<Collect.Dequeue>, a: Answers)
    returns (r: int)
    requires Good(ctx.V()) && s.Valid() && s.bufCount == |entries| && s.Holds(entries)
    modifies ctx
    ensures Good(ctx.V()) && TableOf(ctx.V(), entries)
    ensures old(ctx.fallback) ==> r == 0 && ctx.fallback
  {
    ghost var v := ctx.V();
    GoodClosable(v);
    var fds, infos := s.dmabufFds[..s.bufCount], s.dmabufInfos[..s.bufCount];
    r := ctx.PushDmabufs(fds, infos, a);
    PushedTableGood(v, infos, fds, a, ctx.V(), r);
    PushedTableStored(v, infos, fds, a, ctx.V(), r);
  }

  lemma GoodClosable(s: Ctx)
    requires Good(s)
    ensures Closable(s.os, s.ctrl, s.e, s.books)
  {
  }

  lemma PushedTableStored(s: Ctx, infos: seq<BufInfo>, fds: seq<int>, a: Answers, t: Ctx, r: int)
    requires PushedTable(s, infos, fds, a, t, r) && |fds| <= MAX_BUFS
    ensures t.infos == infos && t.fds == fds && (s.fallback ==> t.fallback && r == 0)
  {
    var u := s.(infos := infos[..Clamped(|infos|)], fds := fds[..Clamped(|fds|)]);
    assert u.infos == infos && u.fds == fds;
    if !s.fallback {
      var v :| TableSent(u, a, v, t, r);
      PushedTableSame(u, a, v);
    }
  }

  /** The loop of the render thread over the slots: the first with this buffer, or -1. */
  method FindSlot(s: Collect.ConsumerState, anb: int) returns (idx: int)
    requires s.Valid()
    ensures -1 <= idx < s.bufCount
    ensures idx >= 0 ==> s.bufAnb[idx] == anb && forall j | 0 <= j < idx :: s.bufAnb[j] != anb
    ensures idx < 0 ==> forall j | 0 <= j < s.bufCount :: s.bufAnb[j] != anb
  {
    idx := 0;
    while idx < s.bufCount
      invariant 0 <= idx <= s.bufCount
      invariant forall j | 0 <= j < idx :: s.bufAnb[j] != anb
    {
      if s.bufAnb[idx] == anb {
        return;
      }
      idx := idx + 1;
    }
    idx := -1;
  }

  lemma TableRead(s: Ctx) returns (read: seq<Msg>)
    requires Good(s) && !s.fallback && s.infos != []
    ensures HasData(s) && ReadAll(Cells(s.os, s.os.open[s.e.data].pair)) == Some(read)
    ensures read != [] && read[0] == BufsReady(s.infos, s.fds)
  {
    TableShared(s);
    read := s.log;
  }

  lemma TableDescribes(s: Ctx, entries: seq<Collect.Dequeue>, idx: nat)
    requires (forall d | d in entries :: d.Buffer?) && TableOf(s, entries) && idx < |entries|
    ensures |s.infos| == |s.fds| == |entries|
    ensures Collect.Describes(s.infos[idx], entries[idx]) && s.fds[idx] == entries[idx].dup
  {
  }

  /**
   The index announced is the producer's record of the very buffer: its layout, and the duplicate of its descriptor.
   */
  lemma RecordOfBuffer(s: Ctx, entries: seq<Collect.Dequeue>, idx: nat) returns (read: seq<Msg>)
    requires Good(s) && !s.fallback && (forall d | d in entries :: d.Buffer?) && TableOf(s, entries) && idx < |entries|
    ensures HasData(s) && ReadAll(Cells(s.os, s.os.open[s.e.data].pair)) == Some(read)
    ensures read != [] && read[0].BufsReady? && |read[0].infos| == |read[0].fds| == |entries|
    ensures Collect.Describes(read[0].infos[idx], entries[idx]) && read[0].fds[idx] == entries[idx].dup
  {
    TableDescribes(s, entries, idx);
    read := TableRead(s);
  }

  // ---------- the loop ----------

  /**
   What a pass did for the buffer it dequeued: it waited for a frame if and only if there was a session and the buffer
   is one of those collected, and then announced a slot with that buffer.
   */
  ghost predicate ForBuffer(next: Next, d: Drawn, entries: seq<Collect.Dequeue>)
    requires forall e | e in entries :: e.Buffer?
  {
    Right(d) && match next
                case NoBuffer => d.before == d.after == d.start && d.fence == -1
                case Buffer(anb, _) =>
                  && Drew(d) && TableOf(d.before, entries)
                  && (d.before.pending <==> !d.before.fallback && anb in Collect.AnbsOf(entries))
                  && (d.before.pending ==> 0 <= d.idx < |entries| && entries[d.idx].anb == anb)
  }

  /** Between two passes. */
  ghost predicate Between(s: Ctx, entries: seq<Collect.Dequeue>)
    requires forall d | d in entries :: d.Buffer?
  {
    Good(s) && !s.pending && TableOf(s, entries)
  }

  /** No buffer, nothing done. */
  lemma NonePassed(d: Drawn, entries: seq<Collect.Dequeue>)
    requires (forall e | e in entries :: e.Buffer?) && Between(d.start, entries)
    requires d.before == d.after == d.start && d.fence == -1 && d.idx == -1
    ensures ForBuffer(NoBuffer, d, entries) && d.after.missed == MissedAfter(d.start.missed, d)
  {
    GoodUnpaced(d.start);
    IdleRight(d);
  }

  lemma DrewPassed(anb: int, acquire: bool, d: Drawn, entries: seq<Collect.Dequeue>)
    requires (forall e | e in entries :: e.Buffer?) && Between(d.start, entries) && Drew(d) && Good(d.after)
    requires if d.idx < 0 then anb !in Collect.AnbsOf(entries)
             else d.idx < |entries| && Collect.AnbsOf(entries)[d.idx] == anb
    ensures ForBuffer(Buffer(anb, acquire), d, entries) && d.after.missed == MissedAfter(d.start.missed, d)
    ensures Between(d.after, entries)
  {
    DrewRight(d);
    assert |d.before.fds| == |entries|;
  }

  method Pass(ctx: DisplayCtx, s: Collect.ConsumerState, next: Next, around: Around,
              ghost entries: seq<Collect.Dequeue>)
    returns (fence: int, ghost d: Drawn)
    requires s.Valid() && s.bufCount == |entries| && s.Holds(entries) && Between(ctx.V(), entries)
    modifies ctx
    ensures Between(ctx.V(), entries) && d.after.missed == MissedAfter(d.start.missed, d)
    ensures ForBuffer(next, d, entries) && d.start == old(ctx.V()) && d.around == around
    ensures d.fence == fence && d.after == ctx.V()
  {
    ghost var v := ctx.V();
    match next
    case NoBuffer =>
      fence := -1;
      d := Drawn(v, -1, around, v, v, -1);
      NonePassed(d, entries);
    case Buffer(anb, acquire) =>
      var idx := FindSlot(s, anb);
      assert s.bufAnb[..|entries|] == Collect.AnbsOf(entries);
      assert idx >= 0 ==> s.bufAnb[..|entries|][idx] == Collect.AnbsOf(entries)[idx];
      fence, d := DrawFrame(ctx, idx, around);
      DrewPassed(anb, acquire, d, entries);
  }

  /** Each pass starts where the one before it ended. */
  predicate Follow(start: Ctx, around: seq<Around>, drawn: seq<Drawn>) {
    && |drawn| == |around|
    && forall i | 0 <= i < |drawn| ::
         drawn[i].around == around[i] && drawn[i].start == StateBefore(start, drawn, i)
  }

  function StateBefore(start: Ctx, drawn: seq<Drawn>, i: nat): Ctx
    requires i <= |drawn|
  {
    if i == 0 then start else drawn[i - 1].after
  }

  function LastState(start: Ctx, drawn: seq<Drawn>): Ctx {
    StateBefore(start, drawn, |drawn|)
  }

  ghost predicate AllFor(window: seq<Next>, drawn: seq<Drawn>, entries: seq<Collect.Dequeue>)
    requires forall e | e in entries :: e.Buffer?
  {
    |drawn| == |window| && forall i | 0 <= i < |window| :: ForBuffer(window[i], drawn[i], entries)
  }

  /** What the loop has done so far. */
  ghost predicate Passed(start: Ctx, window: seq<Next>, around: seq<Around>, drawn: seq<Drawn>,
                         entries: seq<Collect.Dequeue>, trace: seq<WindowOp>)
    requires forall e | e in entries :: e.Buffer?
  {
    && Follow(start, around, drawn)
    && AllFor(window, drawn, entries)
    && trace == PassOps(window, FencesOf(drawn))
    && LastState(start, drawn).missed == FailedReads(start.missed, drawn)
  }

  lemma OneMoreFor(window: seq<Next>, i: nat, drawn: seq<Drawn>, entries: seq<Collect.Dequeue>, d: Drawn)
    requires forall e | e in entries :: e.Buffer?
    requires i < |window| && AllFor(window[..i], drawn, entries) && ForBuffer(window[i], d, entries)
    ensures AllFor(window[..i + 1], drawn + [d], entries)
  {
    forall j | 0 <= j < i + 1
      ensures ForBuffer(window[..i + 1][j], (drawn + [d])[j], entries)
    {
      if j < i {
        assert ForBuffer(window[..i][j], drawn[j], entries);
      }
    }
  }

  lemma OneMoreFollows(start: Ctx, around: seq<Around>, i: nat, drawn: seq<Drawn>, d: Drawn)
    requires i < |around| && Follow(start, around[..i], drawn)
    requires d.start == LastState(start, drawn) && d.around == around[i]
    ensures Follow(start, around[..i + 1], drawn + [d]) && LastState(start, drawn + [d]) == d.after
  {
    var more := drawn + [d];
    forall j | 0 <= j < |more|
      ensures more[j].around == around[..i + 1][j] && more[j].start == StateBefore(start, more, j)
    {
      assert StateBefore(start, more, j) == StateBefore(start, drawn, j);
      if j < |drawn| {
        assert more[j] == drawn[j] && around[..i][j] == around[j];
      }
    }
  }

  lemma OneMoreTraced(window: seq<Next>, i: nat, drawn: seq<Drawn>, d: Drawn, missed: nat)
    requires i < |window| && |drawn| == i
    ensures PassOps(window[..i + 1], FencesOf(drawn + [d]))
            == PassOps(window[..i], FencesOf(drawn)) + Ops(window[i], d.fence)
    ensures FailedReads(missed, drawn + [d]) == MissedAfter(FailedReads(missed, drawn), d)
  {
    assert window[..i + 1] == window[..i] + [window[i]];
    TraceMore(window[..i], FencesOf(drawn), window[i], d.fence);
    assert FencesOf(drawn + [d]) == FencesOf(drawn) + [d.fence];
    assert (drawn + [d])[..|drawn|] == drawn;
  }

  lemma OneMorePass(start: Ctx, window: seq<Next>, around: seq<Around>, i: nat, drawn: seq<Drawn>,
                    entries: seq<Collect.Dequeue>, trace: seq<WindowOp>, d: Drawn)
    requires forall e | e in entries :: e.Buffer?
    requires i < |window| == |around| && Passed(start, window[..i], around[..i], drawn, entries, trace)
    requires ForBuffer(window[i], d, entries) && d.start == LastState(start, drawn) && d.around == around[i]
    requires d.after.missed == MissedAfter(d.start.missed, d)
    ensures Passed(start, window[..i + 1], around[..i + 1], drawn + [d], entries, trace + Ops(window[i], d.fence))
    ensures LastState(start, drawn + [d]) == d.after
  {
    OneMoreFollows(start, around, i, drawn, d);
    OneMoreFor(window, i, drawn, entries, d);
    OneMoreTraced(window, i, drawn, d, start.missed);
  }

  lemma NoPassYet(start: Ctx, window: seq<Next>, around: seq<Around>, entries: seq<Collect.Dequeue>)
    requires forall e | e in entries :: e.Buffer?
    ensures Passed(start, window[..0], around[..0], [], entries, []) && LastState(start, []) == start
  {
  }

  /** The loop itself. */
  method RenderPasses(ctx: DisplayCtx, s: Collect.ConsumerState, window: seq<Next>, around: seq<Around>,
                      ghost entries: seq<Collect.Dequeue>)
    returns (trace: seq<WindowOp>, ghost drawn: seq<Drawn>)
    requires |around| == |window|
    requires s.Valid() && s.bufCount == |entries| && s.Holds(entries) && Between(ctx.V(), entries)
    modifies ctx
    ensures Between(ctx.V(), entries) && ctx.V() == LastState(old(ctx.V()), drawn)
    ensures Passed(old(ctx.V()), window, around, drawn, entries, trace)
  {
    trace, drawn := [], [];
    ghost var start := ctx.V();
    ghost var now := start;
    NoPassYet(start, window, around, entries);
    for i := 0 to |window|
      invariant ctx.V() == now && now == LastState(start, drawn) && Between(now, entries)
      invariant Passed(start, window[..i], around[..i], drawn, entries, trace)
    {
      var fence;
      ghost var d;
      fence, d := Pass(ctx, s, window[i], around[i], entries);
      OneMorePass(start, window, around, i, drawn, entries, trace, d);
      trace, drawn, now := trace + Ops(window[i], fence), drawn + [d], d.after;
    }
    assert window[..|window|] == window && around[..|around|] == around;
  }

  /**
   The render thread, for any window and any producer: each buffer dequeued is queued back once, before the next, with
   the fence of its pass and with no frame pending in between; each pass announces the buffer it was given, if there
   is a session and the buffer has been collected; the frames the session has given up are exactly its failed reads;
   and a frame completed while there is none hands its buffer its own fence.
   */
  method RenderThread(ctx: DisplayCtx, s: Collect.ConsumerState, window: seq<Next>, around: seq<Around>,
                      ghost entries: seq<Collect.Dequeue>)
    returns (trace: seq<WindowOp>, ghost drawn: seq<Drawn>)
    requires |around| == |window|
    requires s.Valid() && s.bufCount == |entries| && s.Holds(entries) && Between(ctx.V(), entries)
    modifies ctx
    ensures Between(ctx.V(), entries) && ctx.V() == LastState(old(ctx.V()), drawn)
    ensures Follow(old(ctx.V()), around, drawn) && AllFor(window, drawn, entries)
    ensures GivenBack(window, FencesOf(drawn), trace)
    ensures ctx.missed == FailedReads(old(ctx.missed), drawn)
  {
    trace, drawn := RenderPasses(ctx, s, window, around, entries);
    TraceGivesBack(window, FencesOf(drawn));
  }
}
