/** What the render loop does to its window, and what that comes to for the window's buffers. */
module WindowTrace {
  /** What dequeueBuffer gives: nothing, or a buffer and perhaps its acquire fence. */
  datatype Next = NoBuffer | Buffer(anb: int, fence: bool)

  datatype WindowOp = Dequeued(anb: int) | FenceClosed | Queued(anb: int, fence: int)

  /** What a pass with this outcome does: the buffer it dequeued goes back at its end. */
  function Ops(next: Next, fence: int): seq<WindowOp> {
    match next
    case NoBuffer => []
    case Buffer(anb, acquire) => [Dequeued(anb)] + (if acquire then [FenceClosed] else []) + [Queued(anb, fence)]
  }

  /** The passes one after the other. */
  function PassOps(window: seq<Next>, fences: seq<int>): seq<WindowOp>
    requires |window| == |fences|
  {
    if window == [] then []
    else
      var n := |window| - 1;
      PassOps(window[..n], fences[..n]) + Ops(window[n], fences[n])
  }

  // ---------- what a trace says, whatever made it ----------

  predicate DequeuedAt(trace: seq<WindowOp>, anb: int, i: int) { 0 <= i < |trace| && trace[i] == Dequeued(anb) }

  predicate FenceClosedAt(trace: seq<WindowOp>, i: int) { 0 <= i < |trace| && trace[i].FenceClosed? }

  predicate QueuedAt(trace: seq<WindowOp>, anb: int, i: int) {
    0 <= i < |trace| && trace[i].Queued? && trace[i].anb == anb
  }

  /** Every buffer dequeued is queued next, past the closing of its fence; nothing else is closed or queued. */
  predicate InOrder(trace: seq<WindowOp>, i: nat)
    requires i < |trace|
  {
    match trace[i]
    case Dequeued(anb) => QueuedAt(trace, anb, i + 1) || (FenceClosedAt(trace, i + 1) && QueuedAt(trace, anb, i + 2))
    case FenceClosed => i > 0 && trace[i - 1].Dequeued?
    case Queued(anb, _) =>
      DequeuedAt(trace, anb, i - 1) || (FenceClosedAt(trace, i - 1) && DequeuedAt(trace, anb, i - 2))
  }

  predicate Orderly(trace: seq<WindowOp>) {
    forall i | 0 <= i < |trace| :: InOrder(trace, i)
  }

  /** The buffers dequeued and the fences queued, in order, and how many fences were closed. */
  function Dequeues(trace: seq<WindowOp>): seq<int> {
    if trace == [] then []
    else Dequeues(trace[..|trace| - 1]) + match trace[|trace| - 1] case Dequeued(anb) => [anb] case _ => []
  }

  function FencesQueued(trace: seq<WindowOp>): seq<int> {
    if trace == [] then []
    else FencesQueued(trace[..|trace| - 1]) + match trace[|trace| - 1] case Queued(_, fence) => [fence] case _ => []
  }

  /** The buffers whose acquire fence was closed. */
  function Closings(trace: seq<WindowOp>): seq<int> {
    if |trace| < 2 then []
    else
      var n := |trace| - 1;
      Closings(trace[..n]) + if trace[n].FenceClosed? && trace[n - 1].Dequeued? then [trace[n - 1].anb] else []
  }

  // ---------- what the window gave ----------

  function Buffers(window: seq<Next>): seq<int> {
    if window == [] then []
    else Buffers(window[..|window| - 1]) + match window[|window| - 1] case Buffer(anb, _) => [anb] case _ => []
  }

  function Acquires(window: seq<Next>): seq<int> {
    if window == [] then []
    else Acquires(window[..|window| - 1]) + match window[|window| - 1] case Buffer(anb, true) => [anb] case _ => []
  }

  /** The fences of the passes that had a buffer. */
  function FencesDrawn(window: seq<Next>, fences: seq<int>): seq<int>
    requires |window| == |fences|
  {
    if window == [] then []
    else
      var n := |window| - 1;
      FencesDrawn(window[..n], fences[..n]) + if window[n].Buffer? then [fences[n]] else []
  }

  /** Each buffer of the window goes out once, in order, and comes back with the fence of its pass. */
  ghost predicate GivenBack(window: seq<Next>, fences: seq<int>, trace: seq<WindowOp>) {
    && |window| == |fences|
    && Orderly(trace)
    && Dequeues(trace) == Buffers(window)
    && Closings(trace) == Acquires(window)
    && FencesQueued(trace) == FencesDrawn(window, fences)
  }

  // ---------- one more pass ----------

  lemma InOrderMore(a: seq<WindowOp>, b: seq<WindowOp>, i: nat)
    requires i < |a + b|
    requires if i < |a| then InOrder(a, i) else InOrder(b, i - |a|)
    ensures InOrder(a + b, i)
  {
    if i < |a| {
      assert (a + b)[i] == a[i];
    } else {
      assert (a + b)[i] == b[i - |a|];
    }
  }

  lemma OrderlyMore(a: seq<WindowOp>, b: seq<WindowOp>)
    requires Orderly(a) && Orderly(b)
    ensures Orderly(a + b)
  {
    forall i | 0 <= i < |a + b|
      ensures InOrder(a + b, i)
    {
      assert if i < |a| then InOrder(a, i) else InOrder(b, i - |a|);
      InOrderMore(a, b, i);
    }
  }

  lemma OpsOrderly(next: Next, fence: int)
    ensures Orderly(Ops(next, fence))
  {
  }

  lemma OneMoreOp(trace: seq<WindowOp>, op: WindowOp)
    ensures Dequeues(trace + [op]) == Dequeues(trace) + match op case Dequeued(anb) => [anb] case _ => []
    ensures FencesQueued(trace + [op]) == FencesQueued(trace) + match op case Queued(_, fence) => [fence] case _ => []
    ensures !op.FenceClosed? ==> Closings(trace + [op]) == Closings(trace)
  {
    assert (trace + [op])[..|trace|] == trace;
  }

  lemma OneMoreClosing(trace: seq<WindowOp>, anb: int)
    ensures Closings(trace + [Dequeued(anb)] + [FenceClosed]) == Closings(trace + [Dequeued(anb)]) + [anb]
  {
    var a := trace + [Dequeued(anb)];
    assert (a + [FenceClosed])[..|a|] == a;
  }

  lemma MoreOps(trace: seq<WindowOp>, next: Next, fence: int)
    ensures var t := trace + Ops(next, fence);
            && Dequeues(t) == Dequeues(trace) + (match next case Buffer(anb, _) => [anb] case _ => [])
            && Closings(t) == Closings(trace) + (match next case Buffer(anb, true) => [anb] case _ => [])
            && FencesQueued(t) == FencesQueued(trace) + (if next.Buffer? then [fence] else [])
  {
    match next
    case NoBuffer =>
      assert trace + [] == trace;
    case Buffer(anb, acquire) =>
      var a := trace + [Dequeued(anb)];
      var b := if acquire then a + [FenceClosed] else a;
      OneMoreOp(trace, Dequeued(anb));
      OneMoreOp(a, FenceClosed);
      OneMoreClosing(trace, anb);
      OneMoreOp(b, Queued(anb, fence));
      assert trace + Ops(next, fence) == b + [Queued(anb, fence)];
  }

  /** Whatever the window gives and whatever fences the passes end with. */
  lemma {:induction false} TraceGivesBack(window: seq<Next>, fences: seq<int>)
    requires |window| == |fences|
    ensures GivenBack(window, fences, PassOps(window, fences))
  {
    if window != [] {
      var n := |window| - 1;
      var trace := PassOps(window[..n], fences[..n]);
      TraceGivesBack(window[..n], fences[..n]);
      OpsOrderly(window[n], fences[n]);
      OrderlyMore(trace, Ops(window[n], fences[n]));
      MoreOps(trace, window[n], fences[n]);
    }
  }

  lemma TraceMore(window: seq<Next>, fences: seq<int>, next: Next, fence: int)
    requires |window| == |fences|
    ensures PassOps(window + [next], fences + [fence]) == PassOps(window, fences) + Ops(next, fence)
  {
    assert (window + [next])[..|window|] == window && (fences + [fence])[..|window|] == fences;
  }
}
