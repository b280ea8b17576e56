/** Enumerating the window's buffers: collect_dmabufs and cleanup_dmabufs over any window and any dup. */
module Collect {
  import opened Wire
  import opened Options

  const PIXEL_FORMAT_RGBA_8888: u32 := 1

  /**
   What one dequeueBuffer gives: nothing, or a buffer with the first descriptor of its handle, if it has one.
   `dup` is the number dup(2) would give this time; it fails unless that number is free and its argument open.
   */
  datatype Dequeue =
    | NoBuffer(fence: bool)
    | Buffer(anb: int, handle: Option<int>, stride: int, width: int, height: int, fence: bool, dup: int)

  datatype WindowOp = Dequeued(anb: int) | Queued(anb: int) | Cancelled(anb: int) | FenceTaken | FenceClosed

  function Word(x: int): u32 { x % 0x1_0000_0000 }

  /** The record sent to the producer for a collected buffer. */
  function InfoOf(d: Dequeue): BufInfo
    requires d.Buffer?
  {
    BufInfo(Word(d.stride * 4), Word(d.width), Word(d.height), PIXEL_FORMAT_RGBA_8888, 0, 0)
  }

  /** The record says what the buffer is: its stride in bytes, its size, and one linear plane of RGBA at the start. */
  predicate Describes(info: BufInfo, d: Dequeue)
    requires d.Buffer?
  {
    && (0 <= d.stride < 0x4000_0000 ==> info.stride == 4 * d.stride)
    && (0 <= d.width < 0x1_0000_0000 ==> info.width == d.width)
    && (0 <= d.height < 0x1_0000_0000 ==> info.height == d.height)
    && info.format == 1 && info.modifier == 0 && info.offset == 0
  }

  predicate Dups(open: map<int, nat>, d: Dequeue)
    requires d.Buffer? && d.handle.Some?
  {
    d.handle.value in open && d.dup >= 0 && d.dup !in open
  }

  /** The entries kept so far, the process's descriptor table, what was done to the window and dequeue calls made. */
  datatype Table = Table(entries: seq<Dequeue>, open: map<int, nat>, trace: seq<WindowOp>, calls: nat)

  predicate Known(entries: seq<Dequeue>, anb: int) {
    exists i :: 0 <= i < |entries| && entries[i].Buffer? && entries[i].anb == anb
  }

  function Fence(d: Dequeue): seq<WindowOp> {
    if d.fence then [FenceTaken, FenceClosed] else []
  }

  /** What one dequeue does to the window: every buffer it gives goes straight back. */
  function Ops(d: Dequeue): seq<WindowOp> {
    match d
    case NoBuffer(_) => Fence(d)
    case Buffer(anb, handle, _, _, _, _, _) =>
      Fence(d) + (if handle.None? then [Dequeued(anb), Cancelled(anb)] else [Dequeued(anb), Queued(anb)])
  }

  predicate Keeps(t: Table, d: Dequeue) {
    d.Buffer? && d.handle.Some? && !Known(t.entries, d.anb) && Dups(t.open, d)
  }

  function Take(t: Table, d: Dequeue): Table {
    var t' := t.(trace := t.trace + Ops(d), calls := t.calls + 1);
    if Keeps(t, d) then t'.(entries := t.entries + [d], open := t.open[d.dup := t.open[d.handle.value]]) else t'
  }

  /** A window with nothing more to say fails the dequeue. */
  function Head(window: seq<Dequeue>): Dequeue {
    if window == [] then NoBuffer(false) else window[0]
  }

  function Gather(t: Table, window: seq<Dequeue>, attempts: nat, target: nat): Table
    decreases attempts
  {
    if attempts == 0 || |t.entries| >= target then t
    else if Head(window).NoBuffer? then Take(t, Head(window))
    else Gather(Take(t, window[0]), window[1..], attempts - 1, target)
  }

  // ---------- what is gathered ----------

  /** Entry i has its own descriptor, new to the process, for what the first descriptor of its handle refers to. */
  predicate EntryOk(t: Table, open: map<int, nat>, d: Dequeue) {
    && d.Buffer? && d.handle.Some?
    && d.dup >= 0 && d.dup !in open && d.dup in t.open
    && d.handle.value in t.open && t.open[d.dup] == t.open[d.handle.value]
  }

  predicate Distinct(entries: seq<Dequeue>) {
    forall i, j | 0 <= i < j < |entries| ::
      entries[i].Buffer? && entries[j].Buffer? && entries[i].anb != entries[j].anb && entries[i].dup != entries[j].dup
  }

  function DupsOf(entries: seq<Dequeue>): (fds: seq<int>)
    requires forall d | d in entries :: d.Buffer?
    ensures |fds| == |entries|
  {
    seq(|entries|, i requires 0 <= i < |entries| => entries[i].dup)
  }

  function InfosOf(entries: seq<Dequeue>): (infos: seq<BufInfo>)
    requires forall d | d in entries :: d.Buffer?
    ensures |infos| == |entries|
  {
    seq(|entries|, i requires 0 <= i < |entries| => InfoOf(entries[i]))
  }

  /** The process has exactly the descriptors it had and one for each entry. */
  ghost predicate Collected(t: Table, open: map<int, nat>) {
    && (forall d | d in t.entries :: EntryOk(t, open, d))
    && Distinct(t.entries)
    && open.Keys <= t.open.Keys && (forall fd | fd in open :: t.open[fd] == open[fd])
    && (forall fd | fd in t.open && fd !in open :: exists d :: d in t.entries && d.Buffer? && d.dup == fd)
  }

  lemma TakeCollects(t: Table, open: map<int, nat>, d: Dequeue)
    requires Collected(t, open)
    ensures Collected(Take(t, d), open)
  {
    var v := Take(t, d);
    if Keeps(t, d) {
      forall e | e in v.entries
        ensures EntryOk(v, open, e)
      {
        if e in t.entries { assert EntryOk(t, open, e); }
      }
      forall i | 0 <= i < |t.entries|
        ensures t.entries[i].Buffer? && t.entries[i].anb != d.anb && t.entries[i].dup != d.dup
      {
        assert t.entries[i] in t.entries && EntryOk(t, open, t.entries[i]);
      }
      assert d in v.entries;
    }
  }

  lemma {:induction false} GatherCollects(t: Table, open: map<int, nat>, window: seq<Dequeue>, attempts: nat,
                                          target: nat)
    requires Collected(t, open)
    ensures Collected(Gather(t, window, attempts, target), open)
    decreases attempts
  {
    if attempts == 0 || |t.entries| >= target {
    } else {
      TakeCollects(t, open, Head(window));
      if !Head(window).NoBuffer? {
        GatherCollects(Take(t, window[0]), open, window[1..], attempts - 1, target);
      }
    }
  }

  /** What is kept is what the window gave, as it gave it. */
  lemma {:induction false} GatherGiven(t: Table, window: seq<Dequeue>, attempts: nat, target: nat)
    ensures t.entries <= Gather(t, window, attempts, target).entries
    ensures forall d | d in Gather(t, window, attempts, target).entries :: d in t.entries || d in window
    decreases attempts
  {
    if attempts == 0 || |t.entries| >= target || window == [] || window[0].NoBuffer? {
    } else {
      GatherGiven(Take(t, window[0]), window[1..], attempts - 1, target);
      assert window[0] in window && forall d | d in window[1..] :: d in window;
    }
  }

  /** Each dequeued buffer goes back at once, by queue or cancel, before the next dequeue; each fence is closed. */
  predicate Returned(trace: seq<WindowOp>) {
    trace == []
    || (|trace| >= 2
        && (match trace[0]
            case FenceTaken => trace[1] == FenceClosed
            case Dequeued(anb) => trace[1] == Queued(anb) || trace[1] == Cancelled(anb)
            case _ => false)
        && Returned(trace[2..]))
  }

  lemma {:induction false} ReturnedMore(a: seq<WindowOp>, b: seq<WindowOp>)
    requires Returned(a) && Returned(b)
    ensures Returned(a + b)
  {
    if a == [] {
      assert a + b == b;
    } else {
      ReturnedMore(a[2..], b);
      assert (a + b)[2..] == a[2..] + b;
    }
  }

  lemma OpsReturned(d: Dequeue)
    ensures Returned(Ops(d))
  {
    if d.Buffer? {
      var ops := if d.handle.None? then [Dequeued(d.anb), Cancelled(d.anb)] else [Dequeued(d.anb), Queued(d.anb)];
      assert ops[2..] == [] && Fence(d)[|Fence(d)|..] == [];
      ReturnedMore(Fence(d), ops);
    }
  }

  lemma {:induction false} GatherReturns(t: Table, window: seq<Dequeue>, attempts: nat, target: nat)
    requires Returned(t.trace)
    ensures var v := Gather(t, window, attempts, target);
            Returned(v.trace) && v.calls <= t.calls + attempts
            && |v.entries| <= (if |t.entries| >= target then |t.entries| else target)
    decreases attempts
  {
    if attempts == 0 || |t.entries| >= target {
    } else {
      OpsReturned(Head(window));
      ReturnedMore(t.trace, Ops(Head(window)));
      if !Head(window).NoBuffer? {
        GatherReturns(Take(t, window[0]), window[1..], attempts - 1, target);
      }
    }
  }

  // ---------- what the window saw ----------

  /** What can be told of a trace: the buffers dequeued, queued or cancelled, and a 0 for each fence closed. */
  datatype Side = Outs | Queues | Cancels | Closings

  function Said(op: WindowOp, side: Side): seq<int> {
    match op
    case Dequeued(anb) => if side.Outs? then [anb] else []
    case Queued(anb) => if side.Queues? then [anb] else []
    case Cancelled(anb) => if side.Cancels? then [anb] else []
    case FenceTaken => []
    case FenceClosed => if side.Closings? then [0] else []
  }

  function Seen(trace: seq<WindowOp>, side: Side): seq<int> {
    if trace == [] then [] else Said(trace[0], side) + Seen(trace[1..], side)
  }

  /** The same of the dequeues: every buffer, those with a handle, those without, and the fences. */
  function Owed(ds: seq<Dequeue>, side: Side): seq<int> {
    if ds == [] then [] else Due(ds[0], side) + Owed(ds[1..], side)
  }

  function Due(d: Dequeue, side: Side): seq<int> {
    match side
    case Outs => if d.Buffer? then [d.anb] else []
    case Queues => if d.Buffer? && d.handle.Some? then [d.anb] else []
    case Cancels => if d.Buffer? && d.handle.None? then [d.anb] else []
    case Closings => if d.fence then [0] else []
  }

  /** Each buffer goes back at once, the way its handle decides, and each fence is closed. */
  ghost predicate Sees(ds: seq<Dequeue>, trace: seq<WindowOp>) {
    Returned(trace) && forall side :: Seen(trace, side) == Owed(ds, side)
  }

  lemma Joined(a: seq<int>, b: seq<int>, c: seq<int>)
    ensures a + b + c == a + (b + c)
  {
  }

  lemma {:induction false} SeenBoth(a: seq<WindowOp>, b: seq<WindowOp>, side: Side)
    ensures Seen(a + b, side) == Seen(a, side) + Seen(b, side)
  {
    if a == [] {
      assert a + b == b;
    } else {
      SeenBoth(a[1..], b, side);
      assert (a + b)[0] == a[0] && (a + b)[1..] == a[1..] + b;
      Joined(Said(a[0], side), Seen(a[1..], side), Seen(b, side));
    }
  }

  lemma SeenTwo(a: WindowOp, b: WindowOp, side: Side)
    ensures Seen([a, b], side) == Said(a, side) + Said(b, side)
  {
    assert [a, b][1..] == [b] && Seen([b], side) == Said(b, side);
  }

  lemma OpsSeen(d: Dequeue, side: Side)
    ensures Seen(Ops(d), side) == Due(d, side)
  {
    SeenTwo(FenceTaken, FenceClosed, side);
    match d
    case NoBuffer(_) =>
    case Buffer(anb, handle, _, _, _, _, _) =>
      var last := if handle.None? then Cancelled(anb) else Queued(anb);
      SeenBoth(Fence(d), [Dequeued(anb), last], side);
      SeenTwo(Dequeued(anb), last, side);
  }

  /** What these dequeues do to the window. */
  function AllOps(ds: seq<Dequeue>): seq<WindowOp> {
    if ds == [] then [] else Ops(ds[0]) + AllOps(ds[1..])
  }

  lemma {:induction false} AllSeen(ds: seq<Dequeue>)
    ensures Sees(ds, AllOps(ds))
  {
    if ds != [] {
      AllSeen(ds[1..]);
      OpsReturned(ds[0]);
      ReturnedMore(Ops(ds[0]), AllOps(ds[1..]));
      forall side
        ensures Seen(AllOps(ds), side) == Owed(ds, side)
      {
        SeenBoth(Ops(ds[0]), AllOps(ds[1..]), side);
        OpsSeen(ds[0], side);
      }
    }
  }

  /** The loop ends with the target reached, the attempts used up, or nothing more to dequeue. */
  predicate Ended(window: seq<Dequeue>, n: nat, attempts: nat, enough: bool)
    requires n <= |window|
  {
    && n <= attempts
    && (forall i | 0 <= i < n - 1 :: window[i].Buffer?)
    && (enough || n == attempts || n == |window| || (n > 0 && window[n - 1].NoBuffer?))
  }

  lemma EndedMore(window: seq<Dequeue>, n: nat, attempts: nat, enough: bool)
    requires window != [] && window[0].Buffer? && n < |window| && attempts > 0
    requires Ended(window[1..], n, attempts - 1, enough)
    ensures Ended(window, n + 1, attempts, enough)
  {
    assert forall i | 0 < i < |window| :: window[i] == window[1..][i - 1];
  }

  lemma AllOpsFirst(start: seq<WindowOp>, window: seq<Dequeue>, n: nat)
    requires 0 < n <= |window|
    ensures start + Ops(window[0]) + AllOps(window[1..][..n - 1]) == start + AllOps(window[..n])
  {
    assert window[..n][0] == window[0] && window[..n][1..] == window[1..][..n - 1];
  }

  /** The loop dequeues a beginning of the window. */
  lemma {:induction false} GatherDequeues(t: Table, window: seq<Dequeue>, attempts: nat, target: nat) returns (n: nat)
    ensures n <= |window| && var v := Gather(t, window, attempts, target);
                             v.trace == t.trace + AllOps(window[..n])
                             && Ended(window, n, attempts, |v.entries| >= target)
    decreases attempts
  {
    n := 0;
    assert t.trace + [] == t.trace;
    if attempts == 0 || |t.entries| >= target || window == [] {
    } else if window[0].Buffer? {
      var m := GatherDequeues(Take(t, window[0]), window[1..], attempts - 1, target);
      n := m + 1;
      AllOpsFirst(t.trace, window, n);
      EndedMore(window, m, attempts, |Gather(t, window, attempts, target).entries| >= target);
    } else {
      n := 1;
      AllOpsFirst(t.trace, window, n);
      assert t.trace + Ops(window[0]) + [] == t.trace + Ops(window[0]);
    }
  }

  /** What the window sees of a collection: the buffers it gives up to the last dequeue, and every one back. */
  lemma GatherSees(t: Table, window: seq<Dequeue>, attempts: nat, target: nat) returns (n: nat, ops: seq<WindowOp>)
    ensures n <= |window| && var v := Gather(t, window, attempts, target);
                             v.trace == t.trace + ops && Sees(window[..n], ops)
                             && Ended(window, n, attempts, |v.entries| >= target)
  {
    n := GatherDequeues(t, window, attempts, target);
    ops := AllOps(window[..n]);
    AllSeen(window[..n]);
  }

  // ---------- which buffers are kept ----------

  /** The buffers with a handle among these dequeues. */
  function Anbs(ds: seq<Dequeue>): set<int> {
    set i | 0 <= i < |ds| && ds[i].Buffer? && ds[i].handle.Some? :: ds[i].anb
  }

  /** No dup fails: every handle is open, and every number dup gives is free and given once. */
  predicate DupsWork(open: map<int, nat>, window: seq<Dequeue>) {
    && (forall i | 0 <= i < |window| && window[i].Buffer? && window[i].handle.Some? :: Dups(open, window[i]))
    && (forall i, j | 0 <= i < j < |window| && window[i].Buffer? && window[j].Buffer? ::
          window[i].dup != window[j].dup)
  }

  lemma DupsStillWork(t: Table, window: seq<Dequeue>)
    requires window != [] && DupsWork(t.open, window)
    ensures DupsWork(Take(t, window[0]).open, window[1..])
  {
    var rest := window[1..];
    forall i | 0 <= i < |rest| && rest[i].Buffer? && rest[i].handle.Some?
      ensures Dups(Take(t, window[0]).open, rest[i])
    {
      assert rest[i] == window[i + 1] && Dups(t.open, window[i + 1]);
    }
  }

  lemma AnbsMore(ds: seq<Dequeue>, d: Dequeue)
    ensures Anbs(ds + [d]) == Anbs(ds) + if d.Buffer? && d.handle.Some? then {d.anb} else {}
  {
    var all := ds + [d];
    forall x | x in Anbs(ds)
      ensures x in Anbs(all)
    {
      var i :| 0 <= i < |ds| && ds[i].Buffer? && ds[i].handle.Some? && ds[i].anb == x;
      assert all[i] == ds[i];
    }
    assert all[|ds|] == d;
  }

  lemma AnbsFirst(ds: seq<Dequeue>, n: nat)
    requires 0 < n <= |ds|
    ensures Anbs(ds[..n]) == Anbs([ds[0]]) + Anbs(ds[1..][..n - 1])
  {
    var all, rest := ds[..n], ds[1..][..n - 1];
    forall x | x in Anbs(all)
      ensures x in Anbs([ds[0]]) + Anbs(rest)
    {
      var i :| 0 <= i < n && all[i].Buffer? && all[i].handle.Some? && all[i].anb == x;
      assert if i == 0 then all[i] == [ds[0]][0] else all[i] == rest[i - 1];
    }
    forall x | x in Anbs(rest)
      ensures x in Anbs(all)
    {
      var i :| 0 <= i < n - 1 && rest[i].Buffer? && rest[i].handle.Some? && rest[i].anb == x;
      assert all[i + 1] == rest[i];
    }
    assert all[0] == [ds[0]][0];
  }

  lemma TakeFinds(t: Table, d: Dequeue)
    requires d.Buffer? && d.handle.Some? ==> Dups(t.open, d)
    requires forall e | e in t.entries :: e.Buffer? && e.handle.Some?
    ensures Anbs(Take(t, d).entries) == Anbs(t.entries) + Anbs([d])
  {
    AnbsMore([], d);
    assert [] + [d] == [d];
    AnbsMore(t.entries, d);
    if d.Buffer? && d.handle.Some? && Known(t.entries, d.anb) {
      var i :| 0 <= i < |t.entries| && t.entries[i].Buffer? && t.entries[i].anb == d.anb;
      assert t.entries[i] in t.entries;
    }
  }

  /** Every buffer met with a handle is kept, once. */
  lemma {:induction false} GatherFinds(t: Table, window: seq<Dequeue>, attempts: nat, target: nat) returns (n: nat)
    requires DupsWork(t.open, window) && forall e | e in t.entries :: e.Buffer? && e.handle.Some?
    ensures n <= |window|
    ensures var v := Gather(t, window, attempts, target);
            && Anbs(v.entries) == Anbs(t.entries) + Anbs(window[..n])
            && Ended(window, n, attempts, |v.entries| >= target)
    decreases attempts
  {
    n := 0;
    if attempts == 0 || |t.entries| >= target || window == [] {
    } else {
      var d := window[0];
      TakeFinds(t, d);
      n := 1;
      assert window[..1] == [d];
      if d.Buffer? {
        DupsStillWork(t, window);
        var m := GatherFinds(Take(t, d), window[1..], attempts - 1, target);
        n := m + 1;
        AnbsFirst(window, n);
        EndedMore(window, m, attempts, |Gather(t, window, attempts, target).entries| >= target);
      }
    }
  }

  lemma {:induction false} DistinctCount(ds: seq<Dequeue>)
    requires Distinct(ds) && forall d | d in ds :: d.Buffer? && d.handle.Some?
    ensures |Anbs(ds)| == |ds|
  {
    if ds != [] {
      var n := |ds| - 1;
      var rest, d := ds[..n], ds[n];
      assert ds == rest + [d];
      DistinctCount(rest);
      AnbsMore(rest, d);
      assert d.anb !in Anbs(rest);
    }
  }

  /** How many dequeues give a buffer before one does not, of at most so many. */
  function Attempts(window: seq<Dequeue>, attempts: nat): (n: nat)
    ensures n <= attempts && n <= |window| && forall i | 0 <= i < n :: window[i].Buffer?
    ensures n == attempts || n == |window| || window[n].NoBuffer?
  {
    if attempts == 0 || window == [] || window[0].NoBuffer? then 0
    else
      var n := Attempts(window[1..], attempts - 1);
      assert forall i | 0 < i < n + 1 :: window[i] == window[1..][i - 1];
      n + 1
  }

  lemma AnbsMonotone(ds: seq<Dequeue>, m: nat, n: nat)
    requires m <= n <= |ds|
    ensures Anbs(ds[..m]) <= Anbs(ds[..n])
  {
    forall x | x in Anbs(ds[..m])
      ensures x in Anbs(ds[..n])
    {
      var i :| 0 <= i < m && ds[i].Buffer? && ds[i].handle.Some? && ds[..m][i].anb == x;
      assert ds[..n][i] == ds[i];
    }
  }

  lemma AnbsMet(window: seq<Dequeue>, n: nat, attempts: nat, enough: bool)
    requires n <= |window| && Ended(window, n, attempts, enough)
    ensures var all := Anbs(window[..Attempts(window, attempts)]);
            if enough then Anbs(window[..n]) <= all else Anbs(window[..n]) == all
  {
    var k := Attempts(window, attempts);
    if n > 0 && window[n - 1].NoBuffer? {
      assert window[..n] == window[..n - 1] + [window[n - 1]];
      AnbsMore(window[..n - 1], window[n - 1]);
      assert k == n - 1;
    } else {
      assert n <= k;
      AnbsMonotone(window, n, k);
    }
  }

  // ---------- closing ----------

  /** close(2) on each non-negative number; a number that is not open is EBADF and changes nothing. */
  function CloseAll(open: map<int, nat>, fds: seq<int>): map<int, nat> {
    open - (set fd | fd in fds && fd >= 0)
  }

  lemma DupsNew(t: Table, open: map<int, nat>, i: nat)
    requires Collected(t, open) && i < |t.entries|
    ensures DupsOf(t.entries)[i] >= 0 && DupsOf(t.entries)[i] !in open
  {
    assert EntryOk(t, open, t.entries[i]);
  }

  lemma NewAreDups(t: Table, open: map<int, nat>, fd: int)
    requires Collected(t, open) && fd in t.open && fd !in open
    ensures fd in DupsOf(t.entries)
  {
    var d :| d in t.entries && d.Buffer? && d.dup == fd;
    var i :| 0 <= i < |t.entries| && t.entries[i] == d;
    assert DupsOf(t.entries)[i] == fd;
  }

  lemma MinusNew(all: map<int, nat>, open: map<int, nat>, others: set<int>)
    requires open.Keys <= all.Keys && forall fd | fd in open :: all[fd] == open[fd]
    requires forall fd | fd in all :: fd in others <==> fd !in open
    ensures all - others == open
  {
    assert forall fd :: fd in all - others <==> fd in open;
    assert forall fd | fd in open :: (all - others)[fd] == open[fd];
  }

  lemma DupIffNew(t: Table, open: map<int, nat>, fd: int)
    requires Collected(t, open) && fd in t.open
    ensures fd in DupsOf(t.entries) && fd >= 0 <==> fd !in open
  {
    var fds := DupsOf(t.entries);
    if fd in fds {
      var i :| 0 <= i < |fds| && fds[i] == fd;
      DupsNew(t, open, i);
    } else if fd !in open {
      NewAreDups(t, open, fd);
    }
  }

  /** Closing the duplicates leaves exactly the descriptors the process had before. */
  lemma CloseDups(t: Table, open: map<int, nat>)
    requires Collected(t, open)
    ensures CloseAll(t.open, DupsOf(t.entries)) == open
  {
    var others := set fd | fd in DupsOf(t.entries) && fd >= 0;
    forall fd | fd in t.open
      ensures fd in others <==> fd !in open
    {
      DupIffNew(t, open, fd);
    }
    MinusNew(t.open, open, others);
  }

  function AnbsOf(entries: seq<Dequeue>): (anbs: seq<int>)
    requires forall d | d in entries :: d.Buffer?
    ensures |anbs| == |entries|
  {
    seq(|entries|, i requires 0 <= i < |entries| => entries[i].anb)
  }

  /** The buffer table of consumer_state, with the process state its calls work on. */
  class ConsumerState {
    var bufCount: nat
    const dmabufFds: array<int>
    const dmabufInfos: array<BufInfo>
    const bufAnb: array<int>
    var open: map<int, nat>       // the process's descriptors and what they refer to
    var trace: seq<WindowOp>
    var calls: nat                // dequeueBuffer calls

    ghost predicate Valid()
      reads this
    {
      && dmabufFds.Length == dmabufInfos.Length == bufAnb.Length == MAX_BUFS
      && dmabufFds != bufAnb
      && bufCount <= MAX_BUFS
    }

    /** calloc: every slot starts as 0, not -1. */
    constructor (open: map<int, nat>)
      ensures Valid() && bufCount == 0 && this.open == open && trace == [] && calls == 0
      ensures fresh(dmabufFds) && fresh(dmabufInfos) && fresh(bufAnb)
      ensures dmabufFds[..] == [0, 0, 0, 0, 0, 0, 0, 0]
    {
      bufCount := 0;
      dmabufFds := new int[MAX_BUFS](_ => 0);
      dmabufInfos := new BufInfo[MAX_BUFS](_ => BufInfo(0, 0, 0, 0, 0, 0));
      bufAnb := new int[MAX_BUFS](_ => 0);
      this.open, trace, calls := open, [], 0;
    }

    ghost function Begun(): Table
      reads this
    {
      Table([], open, trace, calls)
    }

    /** Slots [0, found) hold the entries gathered so far. */
    ghost predicate Holds(entries: seq<Dequeue>)
      requires Valid()
      reads this, dmabufFds, dmabufInfos, bufAnb
    {
      && |entries| <= MAX_BUFS
      && (forall d | d in entries :: d.Buffer?)
      && dmabufFds[..|entries|] == DupsOf(entries)
      && dmabufInfos[..|entries|] == InfosOf(entries)
      && bufAnb[..|entries|] == AnbsOf(entries)
    }

    /** Slot by slot: the entry's duplicate, its buffer, and what the buffer is. */
    lemma HeldSlots(entries: seq<Dequeue>)
      requires Valid() && Holds(entries)
      ensures forall i | 0 <= i < |entries| ::
                dmabufFds[i] == entries[i].dup && bufAnb[i] == entries[i].anb && Describes(dmabufInfos[i], entries[i])
    {
      forall i | 0 <= i < |entries|
        ensures dmabufFds[i] == entries[i].dup && bufAnb[i] == entries[i].anb && Describes(dmabufInfos[i], entries[i])
      {
        assert dmabufFds[i] == dmabufFds[..|entries|][i] && bufAnb[i] == bufAnb[..|entries|][i];
        assert dmabufInfos[i] == dmabufInfos[..|entries|][i];
      }
    }

    /** The linear search for a buffer already collected. */
    method FindBuffer(anb: int, found: nat) returns (known: bool)
      requires Valid() && found <= MAX_BUFS
      ensures known <==> exists i :: 0 <= i < found && bufAnb[i] == anb
    {
      known := false;
      var i := 0;
      while i < found
        invariant 0 <= i <= found
        invariant !known
        invariant forall j | 0 <= j < i :: bufAnb[j] != anb
      {
        if bufAnb[i] == anb {
          return true;
        }
        i := i + 1;
      }
    }

    method Record(found: nat, d: Dequeue, ghost entries: seq<Dequeue>)
      requires Valid() && found < MAX_BUFS && d.Buffer? && |entries| == found && Holds(entries)
      modifies dmabufFds, dmabufInfos, bufAnb
      ensures Holds(entries + [d])
      ensures dmabufFds[found + 1..] == old(dmabufFds[found + 1..])
    {
      bufAnb[found] := d.anb;
      dmabufFds[found] := d.dup;
      dmabufInfos[found] := InfoOf(d);
      assert bufAnb[..found] == AnbsOf(entries);
      assert dmabufFds[..found] == DupsOf(entries);
      assert dmabufInfos[..found] == InfosOf(entries);
    }

    /** close(2) on slots [0, n). */
    method CloseSlots(n: nat)
      requires Valid() && n <= MAX_BUFS
      modifies this`open, dmabufFds
      ensures open == CloseAll(old(open), old(dmabufFds[..n]))
      ensures forall i | 0 <= i < n :: dmabufFds[i] == if old(dmabufFds[i]) >= 0 then -1 else old(dmabufFds[i])
      ensures dmabufFds[n..] == old(dmabufFds[n..])
    {
      ghost var was, start := dmabufFds[..], open;
      var i := 0;
      while i < n
        invariant 0 <= i <= n
        invariant open == CloseAll(start, was[..i])
        invariant forall j | 0 <= j < i :: dmabufFds[j] == if was[j] >= 0 then -1 else was[j]
        invariant forall j | i <= j < MAX_BUFS :: dmabufFds[j] == was[j]
      {
        if dmabufFds[i] >= 0 {
          open := open - {dmabufFds[i]};
          dmabufFds[i] := -1;
        }
        CloseOneMore(start, was, i);
        i := i + 1;
      }
    }

    /** A buffer not seen before, and its duplicate, go into the next slot. */
    method Keep(d: Dequeue, found: nat, ghost entries: seq<Dequeue>)
      requires Valid() && found < MAX_BUFS && |entries| == found && Holds(entries)
      requires d.Buffer? && d.handle.Some? && d.handle.value in open
      modifies this`open, dmabufFds, dmabufInfos, bufAnb
      ensures Holds(entries + [d]) && open == old(open)[d.dup := old(open)[d.handle.value]]
      ensures dmabufFds[found + 1..] == old(dmabufFds[found + 1..])
    {
      Record(found, d, entries);
      open := open[d.dup := open[d.handle.value]];
    }

    /** Whether the buffer is one to keep: it has a handle, it is new, and dup gives a descriptor. */
    method Wanted(d: Dequeue, found: nat, ghost t: Table) returns (wanted: bool)
      requires Valid() && found == |t.entries| <= MAX_BUFS && Holds(t.entries) && t.open == open
      ensures wanted == Keeps(t, d)
    {
      if d.NoBuffer? || d.handle.None? {
        return false;
      }
      var known := FindBuffer(d.anb, found);
      KnownSlots(t.entries, bufAnb[..found], d.anb);
      return !known && Dups(open, d);
    }

    /** What the loop body does with one dequeue. */
    method Attempt(d: Dequeue, found: nat, ghost t: Table) returns (now: nat)
      requires Valid() && found < MAX_BUFS && found == |t.entries| && Holds(t.entries)
      requires t.open == open && t.trace == trace && t.calls == calls
      modifies this`open, this`trace, this`calls, dmabufFds, dmabufInfos, bufAnb
      ensures Valid()
      ensures var v := Take(t, d);
              now == |v.entries| && Holds(v.entries) && open == v.open && trace == v.trace && calls == v.calls
      ensures found <= now <= found + 1 && dmabufFds[now..] == old(dmabufFds[now..])
    {
      calls, trace := calls + 1, trace + Ops(d);
      now := found;
      var wanted := Wanted(d, found, t);
      if wanted {
        Keep(d, found, t.entries);
        now := found + 1;
      }
    }

    /** The dequeue loop, for any window: it leaves what Gather gives. */
    method GatherLoop(window: seq<Dequeue>, target: nat, ghost before: map<int, nat>, ghost was: seq<int>,
                      ghost start: Table)
      returns (found: nat, ghost t: Table)
      requires Valid() && target <= MAX_BUFS && before == open && was == dmabufFds[..] && start == Begun()
      modifies this`open, this`trace, this`calls, dmabufFds, dmabufInfos, bufAnb
      ensures Valid()
      ensures t == Gather(start, window, target * 4, target) && Collected(t, before)
      ensures found == |t.entries| <= target && Holds(t.entries)
      ensures open == t.open && trace == t.trace && calls == t.calls
      ensures dmabufFds[..][found..] == was[found..]
    {
      t := start;
      var attempt, left := 0, window;
      found := 0;
      while attempt < target * 4 && found < target
        invariant Valid()
        invariant 0 <= attempt <= target * 4 && found == |t.entries| <= target
        invariant Holds(t.entries)
        invariant t.open == open && t.trace == trace && t.calls == calls
        invariant dmabufFds[..][found..] == was[found..]
        invariant Gather(start, window, target * 4, target) == Gather(t, left, target * 4 - attempt, target)
        decreases target * 4 - attempt
      {
        var d := Head(left);
        ghost var now, had := dmabufFds[..], found;
        found := Attempt(d, found, t);
        SlotsAfter(was, now, dmabufFds[..], had, found);
        t := Take(t, d);
        if d.NoBuffer? {
          break;
        }
        attempt, left := attempt + 1, left[1..];
      }
      GatherCollects(start, before, window, target * 4, target);
    }

    /** The target is bufCount, which do_connect has clamped to MAX_COLLECT_BUFS. */
    method CollectDmabufs(window: seq<Dequeue>) returns (r: int)
      requires Valid()
      modifies this`open, this`trace, this`calls, this`bufCount, dmabufFds, dmabufInfos, bufAnb
      ensures Valid() && bufCount == old(bufCount)
      ensures var g := Gather(old(Begun()), window, bufCount * 4, bufCount);
              && trace == g.trace && calls == g.calls
              && |g.entries| <= bufCount && r == (if |g.entries| < bufCount then -1 else 0)
              && (r == 0 ==> open == g.open && Holds(g.entries))
              && (r == 0 ==> forall i | 0 <= i < bufCount :: g.entries[i].Buffer?
                                                           && dmabufFds[i] == g.entries[i].dup
                                                           && bufAnb[i] == g.entries[i].anb
                                                           && Describes(dmabufInfos[i], g.entries[i]))
              && (r == -1 ==> open == old(open) && forall i | 0 <= i < |g.entries| :: dmabufFds[i] == -1)
              && dmabufFds[|g.entries|..] == old(dmabufFds[|g.entries|..])
    {
      ghost var before := open;
      var found, t := GatherLoop(window, bufCount, before, dmabufFds[..], Begun());
      if found < bufCount {
        CloseDups(t, before);
        DupsOpen(t, before);
        CloseSlots(found);
        return -1;
      }
      bufCount := found;
      HeldSlots(t.entries);
      return 0;
    }

    method CleanupDmabufs()
      requires Valid()
      modifies this`open, this`bufCount, dmabufFds
      ensures Valid() && bufCount == 0
      ensures open == CloseAll(old(open), old(dmabufFds[..bufCount]))
      ensures forall i | 0 <= i < old(bufCount) :: dmabufFds[i] < 0
      ensures dmabufFds[old(bufCount)..] == old(dmabufFds[bufCount..])
    {
      CloseSlots(bufCount);
      bufCount := 0;
    }

    /** A collection and the cleanup that do_connect, nativeStop or nativeDestroy runs next. */
    method CollectThenCleanup(window: seq<Dequeue>) returns (r: int)
      requires Valid()
      modifies this, dmabufFds, dmabufInfos, bufAnb
      ensures Valid() && bufCount == 0
      ensures open == OpenAfter(old(open), old(dmabufFds[..]), old(bufCount), window)
    {
      ghost var before, was, target, start := open, dmabufFds[..], bufCount, Begun();
      GatherStart(start, before, window, target * 4, target);
      r := CollectDmabufs(window);
      ghost var g := Gather(start, window, target * 4, target);
      ghost var found := |g.entries|;
      if r == -1 {
        assert dmabufFds[..target] == seq(found, _ => -1) + was[found..target];
        ClosedMarks(open, found, was[found..target]);
      } else {
        assert dmabufFds[..target] == DupsOf(g.entries);
        CloseDups(g, before);
      }
      CleanupDmabufs();
    }
  }

  lemma SlotsAfter(was: seq<int>, before: seq<int>, after: seq<int>, had: nat, now: nat)
    requires had <= now <= |was| == |before| == |after|
    requires before[had..] == was[had..] && after[now..] == before[now..]
    ensures after[now..] == was[now..]
  {
    assert before[now..] == before[had..][now - had..] && was[now..] == was[had..][now - had..];
  }

  lemma DupsOpen(t: Table, open: map<int, nat>)
    requires Collected(t, open)
    ensures forall i | 0 <= i < |t.entries| :: DupsOf(t.entries)[i] >= 0
  {
    forall i | 0 <= i < |t.entries|
      ensures DupsOf(t.entries)[i] >= 0
    {
      DupsNew(t, open, i);
    }
  }

  lemma CloseOneMore(open: map<int, nat>, fds: seq<int>, i: nat)
    requires i < |fds|
    ensures CloseAll(open, fds[..i + 1]) ==
            if fds[i] >= 0 then CloseAll(open, fds[..i]) - {fds[i]} else CloseAll(open, fds[..i])
  {
    assert fds[..i + 1] == fds[..i] + [fds[i]];
  }

  lemma KnownSlots(entries: seq<Dequeue>, anbs: seq<int>, anb: int)
    requires (forall d | d in entries :: d.Buffer?) && anbs == AnbsOf(entries)
    ensures Known(entries, anb) <==> exists i :: 0 <= i < |anbs| && anbs[i] == anb
  {
    if i :| 0 <= i < |anbs| && anbs[i] == anb {
      assert entries[i] in entries && entries[i].anb == anb;
    }
    if i :| 0 <= i < |entries| && entries[i].Buffer? && entries[i].anb == anb {
      assert anbs[i] == anb;
    }
  }

  // ---------- collection and cleanup together ----------

  lemma ClosedMarks(open: map<int, nat>, n: nat, fds: seq<int>)
    ensures CloseAll(open, seq(n, _ => -1) + fds) == CloseAll(open, fds)
  {
    var all := seq(n, _ => -1) + fds;
    forall fd | fd in fds
      ensures fd in all
    {
      var i :| 0 <= i < |fds| && fds[i] == fd;
      assert all[n + i] == fd;
    }
  }

  /** What Gather finds does not depend on what was done to the window before. */
  lemma {:induction false} GatherSame(t: Table, u: Table, window: seq<Dequeue>, attempts: nat, target: nat)
    requires t.entries == u.entries && t.open == u.open
    ensures var a, b := Gather(t, window, attempts, target), Gather(u, window, attempts, target);
            a.entries == b.entries && a.open == b.open
    decreases attempts
  {
    if attempts == 0 || |t.entries| >= target || Head(window).NoBuffer? {
    } else {
      GatherSame(Take(t, window[0]), Take(u, window[0]), window[1..], attempts - 1, target);
    }
  }

  function Gathered(open: map<int, nat>, window: seq<Dequeue>, target: nat): Table {
    Gather(Table([], open, [], 0), window, target * 4, target)
  }

  lemma GatherStart(start: Table, open: map<int, nat>, window: seq<Dequeue>, attempts: nat, target: nat)
    requires start.entries == [] && start.open == open
    ensures var g := Gather(start, window, attempts, target);
            g.entries == Gather(Table([], open, [], 0), window, attempts, target).entries && Collected(g, open)
  {
    GatherSame(start, Table([], open, [], 0), window, attempts, target);
    GatherCollects(start, open, window, attempts, target);
  }

  /**
   As long as no dup fails, the collection succeeds if and only if the first 4 * target dequeues, up to one that gives
   nothing, give that many different buffers with a handle.
   */
  lemma CollectsIff(open: map<int, nat>, window: seq<Dequeue>, target: nat)
    requires DupsWork(open, window)
    ensures |Gathered(open, window, target).entries| >= target <==>
            |Anbs(window[..Attempts(window, target * 4)])| >= target
  {
    var t, all := Table([], open, [], 0), Anbs(window[..Attempts(window, target * 4)]);
    var g := Gathered(open, window, target);
    var n := GatherFinds(t, window, target * 4, target);
    GatherCollects(t, open, window, target * 4, target);
    forall d | d in g.entries
      ensures d.Buffer? && d.handle.Some?
    {
      assert EntryOk(g, open, d);
    }
    DistinctCount(g.entries);
    AnbsMet(window, n, target * 4, |g.entries| >= target);
    assert Anbs(g.entries) == Anbs(window[..n]);
    FewerAnbs(Anbs(g.entries), all);
  }

  lemma FewerAnbs(a: set<int>, b: set<int>)
    ensures a <= b ==> |a| <= |b|
  {
    if a <= b {
      assert b == a + (b - a);
    }
  }

  /** The process's descriptors after both: a failed collection leaves the slots it did not fill as they were. */
  function OpenAfter(open: map<int, nat>, slots: seq<int>, target: nat, window: seq<Dequeue>): map<int, nat>
    requires target <= |slots|
  {
    var found := |Gathered(open, window, target).entries|;
    if found >= target then open else CloseAll(open, slots[found..target])
  }

  /**
   Collection and cleanup give back exactly the descriptors the process had, if and only if the collection
   succeeded or no slot it left unfilled holds the number of an open descriptor.
   */
  lemma BalancedIff(open: map<int, nat>, slots: seq<int>, target: nat, window: seq<Dequeue>)
    requires target <= |slots|
    ensures var found := |Gathered(open, window, target).entries|;
            OpenAfter(open, slots, target, window) == open <==>
            forall i | found <= i < target :: slots[i] < 0 || slots[i] !in open
  {
    var found := |Gathered(open, window, target).entries|;
    if found < target {
      var stale := slots[found..target];
      if i :| found <= i < target && slots[i] >= 0 && slots[i] in open {
        assert stale[i - found] in stale;
      }
      if forall i | found <= i < target :: slots[i] < 0 || slots[i] !in open {
        forall fd | fd in stale && fd >= 0
          ensures fd !in open
        {
          var k :| 0 <= k < |stale| && stale[k] == fd;
          assert slots[found + k] == fd;
        }
      }
    }
  }

  /**
   The slots start as zeros, so the first collection that fails makes the next cleanup close descriptor 0,
   which the collection never made.
   */
  lemma FirstFailureClosesZero(open: map<int, nat>, target: nat)
    requires 0 in open && 0 < target <= MAX_BUFS
    ensures 0 !in OpenAfter(open, [0, 0, 0, 0, 0, 0, 0, 0], target, [NoBuffer(false)])
  {
    var slots := [0, 0, 0, 0, 0, 0, 0, 0];
    assert |Gathered(open, [NoBuffer(false)], target).entries| == 0;
    assert slots[0..target][0] == 0;
  }
}
