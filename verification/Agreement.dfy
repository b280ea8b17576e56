/**
 What a display context and its producer agree on: which hello the FDS_READY answers, how many frames are
 outstanding, and what the data stream of the session says. Each holds after every step of either side.
 */
module Agreement {
  import opened Wire
  import opened InputFraming
  import opened Kernel
  import opened Endpoints
  import opened Renewal

  // ---------- the handshake ----------

  predicate Answered(os: OS) {
    forall n: nat | n < |os.hellos| :: n in os.answered
  }

  predicate NoReady(inbox: seq<Ctrl>) {
    forall i | 0 <= i < |inbox| :: !inbox[i].Ready?
  }

  /** At most one FDS_READY is on its way; it answers the latest hello, whose endpoints are in place. */
  ghost predicate HandshakeOk(os: OS, fallback: bool, e: Ends) {
    && (forall n: nat | n < |os.hellos| - 1 :: n in os.answered)
    && (forall n | n in os.answered :: n < |os.hellos|)
    && (!Answered(os) ==> fallback && Current(os, e) && NoReady(os.inbox))
    && (!fallback ==> Current(os, e) && NoReady(os.inbox))
    && (forall i | 0 <= i < |os.inbox| && os.inbox[i].Ready? ::
          fallback && os.inbox[i].hello == |os.hellos| - 1 && Current(os, e))
    && (forall i, j | 0 <= i < j < |os.inbox| :: !(os.inbox[i].Ready? && os.inbox[j].Ready?))
  }

  /** A renewal starts with every hello answered and no answer left unread. */
  ghost predicate Settled(os: OS) {
    Answered(os) && NoReady(os.inbox) && forall n | n in os.answered :: n < |os.hellos|
  }

  lemma ActiveSettled(os: OS, e: Ends)
    requires HandshakeOk(os, false, e)
    ensures Settled(os)
  {
  }

  lemma RenewedHandshake(o: OS, ctrl: int, v: OS, f: Ends, delivered: bool)
    requires Settled(o) && Renewed(o, ctrl, v, f, delivered)
    ensures HandshakeOk(v, true, f)
  {
    assert |v.hellos| == |o.hellos| + if delivered then 1 else 0;
  }

  /** The FDS_READY that ends fallback answers the latest hello. */
  lemma ReadyHandshake(os: OS, e: Ends)
    requires HandshakeOk(os, true, e) && os.inbox != [] && os.inbox[0].Ready?
    ensures Current(os, e) && os.inbox[0].hello == |os.hellos| - 1
    ensures HandshakeOk(os.(inbox := os.inbox[1..]), false, e)
  {
  }

  lemma OtherHandshake(os: OS, fallback: bool, e: Ends)
    requires HandshakeOk(os, fallback, e) && os.inbox != [] && !os.inbox[0].Ready?
    ensures HandshakeOk(os.(inbox := os.inbox[1..]), fallback, e)
  {
  }

  /** HandshakeOk looks at these parts only. */
  lemma SameHandshake(os: OS, v: OS, fallback: bool, e: Ends)
    requires HandshakeOk(os, fallback, e)
    requires v.open == os.open && v.hellos == os.hellos && v.answered == os.answered && v.inbox == os.inbox
    ensures HandshakeOk(v, fallback, e)
  {
  }

  lemma AnswerHandshake(os: OS, fallback: bool, e: Ends, n: nat)
    requires HandshakeOk(os, fallback, e) && n < |os.hellos| && n !in os.answered
    ensures HandshakeOk(os.(inbox := os.inbox + [Ready(n)], answered := os.answered + {n}), fallback, e)
  {
    assert n == |os.hellos| - 1;
  }

  lemma ChatHandshake(os: OS, fallback: bool, e: Ends, kind: nat)
    requires HandshakeOk(os, fallback, e)
    ensures HandshakeOk(os.(inbox := os.inbox + [Other(kind)]), fallback, e)
  {
  }

  lemma ProducerHandshake(os: OS, move: Move, fallback: bool, e: Ends)
    requires HandshakeOk(os, fallback, e) && CanMove(os, move)
    ensures HandshakeOk(Moved(os, move), fallback, e)
  {
    match move
    case Answer(n) => AnswerHandshake(os, fallback, e, n);
    case Chat(kind) => ChatHandshake(os, fallback, e, kind);
    case Render(_, _) => SameHandshake(os, Moved(os, move), fallback, e);
  }

  // ---------- frames ----------

  predicate InStep(os: OS, h: Hello) {
    h.bufReady.EventFd? && h.fence.Theirs?
    && Taken(os, h.fence.pair) <= |Fences(os, h.fence.pair)| <= Signals(os, h.bufReady.id)
  }

  /** The producer answers no frame that was not announced to it, on any hello, and no two hellos share a channel. */
  ghost predicate FramesOk(os: OS) {
    && (forall i | 0 <= i < |os.hellos| :: InStep(os, os.hellos[i]))
    && (forall i, j | 0 <= i < j < |os.hellos| ::
          os.hellos[i].fence != os.hellos[j].fence && os.hellos[i].bufReady != os.hellos[j].bufReady)
  }

  /** The channels of the endpoints in place have not been used. */
  predicate Unused(os: OS, e: Ends) {
    && (e.data in os.open && os.open[e.data].Ours? ==> Cells(os, os.open[e.data].pair) == [])
    && (e.bufReady in os.open && os.open[e.bufReady].EventFd? ==> Signals(os, os.open[e.bufReady].id) == 0)
    && (e.fence in os.open && os.open[e.fence].Ours? ==> Taken(os, os.open[e.fence].pair) == 0)
  }

  /** Frames announced, and fence messages received, on the endpoints in place. */
  function Announced(os: OS, e: Ends): nat {
    if e.bufReady in os.open && os.open[e.bufReady].EventFd? then Signals(os, os.open[e.bufReady].id) else 0
  }

  function Received(os: OS, e: Ends): nat {
    if e.fence in os.open && os.open[e.fence].Ours? then Taken(os, os.open[e.fence].pair) else 0
  }

  function SessionFences(os: OS, e: Ends): seq<int> {
    if e.fence in os.open && os.open[e.fence].Ours? then Fences(os, os.open[e.fence].pair) else []
  }

  /**
   `missed` counts the frames whose message will not be waited for any more; `queued` are the fences handed
   back in this session. In fallback the endpoints have not been used at all.
   */
  ghost predicate PacingOk(os: OS, fallback: bool, pending: bool, missed: nat, queued: seq<int>, e: Ends) {
    && (fallback ==> !pending && missed == 0 && queued == [] && Unused(os, e))
    && Announced(os, e) - Received(os, e) == missed + (if pending then 1 else 0)
    && Received(os, e) == |queued|
    && queued <= SessionFences(os, e)
  }

  /** A new hello for channels of its own that nobody has used. */
  lemma ToldFrames(o: OS, v: OS, h: Hello)
    requires FramesOk(o) && |v.hellos| == |o.hellos| + 1 && v.hellos[..|o.hellos|] == o.hellos
             && v.hellos[|o.hellos|] == h
    requires v.signals == o.signals && v.taken == o.taken && v.fences == o.fences
    requires h.bufReady.EventFd? && h.fence.Theirs? && Taken(o, h.fence.pair) == 0 == |Fences(o, h.fence.pair)|
    requires forall g | g in o.hellos :: g.bufReady != h.bufReady && g.fence != h.fence
    ensures FramesOk(v)
  {
    forall i | 0 <= i < |v.hellos|
      ensures InStep(v, v.hellos[i])
    {
      assert i < |o.hellos| ==> v.hellos[i] == o.hellos[i] && InStep(o, o.hellos[i]);
    }
    forall i, j | 0 <= i < j < |v.hellos|
      ensures v.hellos[i].fence != v.hellos[j].fence && v.hellos[i].bufReady != v.hellos[j].bufReady
    {
      assert v.hellos[i] == o.hellos[i] && o.hellos[i] in o.hellos;
      assert j < |o.hellos| ==> v.hellos[j] == o.hellos[j];
    }
  }

  predicate FreshChannels(o: OS, h: Hello) {
    && h.bufReady.EventFd? && h.fence.Theirs?
    && o.nextId <= h.bufReady.id && o.nextId <= h.fence.pair
  }

  lemma FreshUnheard(o: OS, h: Hello)
    requires Sound(o) && FreshChannels(o, h)
    ensures Taken(o, h.fence.pair) == 0 == |Fences(o, h.fence.pair)|
    ensures forall g | g in o.hellos :: g.bufReady != h.bufReady && g.fence != h.fence
  {
  }

  lemma RenewedChannels(o: OS, ctrl: int, v: OS, f: Ends)
    requires Renewed(o, ctrl, v, f, true)
    ensures FreshChannels(o, v.hellos[|o.hellos|])
  {
  }

  lemma RenewedFrames(o: OS, ctrl: int, v: OS, f: Ends, delivered: bool)
    requires FramesOk(o) && Sound(o) && Renewed(o, ctrl, v, f, delivered)
    ensures FramesOk(v)
  {
    if delivered {
      RenewedChannels(o, ctrl, v, f);
      FreshUnheard(o, v.hellos[|o.hellos|]);
      ToldFrames(o, v, v.hellos[|o.hellos|]);
    } else {
      SameFrames(o, v);
    }
  }

  lemma RenewedPacing(o: OS, ctrl: int, v: OS, f: Ends, delivered: bool)
    requires Sound(o) && Renewed(o, ctrl, v, f, delivered)
    ensures PacingOk(v, true, false, 0, [], f)
  {
  }

  lemma SameFrames(os: OS, v: OS)
    requires FramesOk(os) && v.hellos == os.hellos
    requires v.signals == os.signals && v.taken == os.taken && v.fences == os.fences
    ensures FramesOk(v)
  {
  }

  lemma RenderFrames(os: OS, n: nat, fence: int)
    requires FramesOk(os) && n < |os.hellos| && Renders(os, os.hellos[n])
    ensures FramesOk(Moved(os, Render(n, fence)))
  {
    var v := Moved(os, Render(n, fence));
    forall i | 0 <= i < |v.hellos|
      ensures InStep(v, v.hellos[i])
    {
      assert InStep(os, os.hellos[i]);
    }
  }

  lemma ProducerFrames(os: OS, move: Move)
    requires FramesOk(os) && CanMove(os, move)
    ensures FramesOk(Moved(os, move))
  {
    match move
    case Render(n, fence) => RenderFrames(os, n, fence);
    case _ => SameFrames(os, Moved(os, move));
  }

  /** PacingOk looks at these parts only; the producer may have added fence messages. */
  lemma SamePacing(os: OS, v: OS, fallback: bool, pending: bool, missed: nat, queued: seq<int>, e: Ends)
    requires PacingOk(os, fallback, pending, missed, queued, e)
    requires v.open == os.open && v.signals == os.signals && v.taken == os.taken
    requires fallback ==> v.cells == os.cells
    requires SessionFences(os, e) <= SessionFences(v, e)
    ensures PacingOk(v, fallback, pending, missed, queued, e)
  {
  }

  lemma ProducerPacing(os: OS, move: Move, fallback: bool, pending: bool, missed: nat, queued: seq<int>, e: Ends)
    requires PacingOk(os, fallback, pending, missed, queued, e) && CanMove(os, move)
    ensures PacingOk(Moved(os, move), fallback, pending, missed, queued, e)
  {
    SamePacing(os, Moved(os, move), fallback, pending, missed, queued, e);
  }

  /** select_dmabuf: one frame more is pending; one that already was will not be waited for. */
  lemma SelectPacing(os: OS, pending: bool, missed: nat, queued: seq<int>, e: Ends, id: nat)
    requires PacingOk(os, false, pending, missed, queued, e)
    requires e.bufReady in os.open && os.open[e.bufReady] == EventFd(id)
    ensures PacingOk(Signalled(os, id), false, true, if pending then missed + 1 else missed, queued, e)
  {
  }

  lemma SelectFrames(os: OS, id: nat)
    requires FramesOk(os)
    ensures FramesOk(Signalled(os, id))
  {
    forall i | 0 <= i < |os.hellos|
      ensures InStep(Signalled(os, id), os.hellos[i])
    {
      assert InStep(os, os.hellos[i]);
    }
  }

  /** refresh_done: the pending frame is over, with the next fence of the session. */
  lemma FramePacing(os: OS, missed: nat, queued: seq<int>, e: Ends, pair: nat)
    requires PacingOk(os, false, true, missed, queued, e)
    requires e.fence in os.open && os.open[e.fence] == Ours(pair) && Taken(os, pair) < |Fences(os, pair)|
    ensures PacingOk(TookOne(os, pair), false, false, missed, queued + [Fences(os, pair)[Taken(os, pair)]], e)
  {
  }

  lemma FrameFrames(os: OS, pair: nat)
    requires FramesOk(os) && Taken(os, pair) < |Fences(os, pair)|
    ensures FramesOk(TookOne(os, pair))
  {
    forall i | 0 <= i < |os.hellos|
      ensures InStep(TookOne(os, pair), os.hellos[i])
    {
      assert InStep(os, os.hellos[i]);
    }
  }

  /** With nothing missed, the fence taken is the one sent for the frame announced last. */
  lemma FenceOfFrame(os: OS, queued: seq<int>, e: Ends)
    requires FramesOk(os) && Current(os, e) && PacingOk(os, false, true, 0, queued, e)
    requires Received(os, e) < |SessionFences(os, e)|
    ensures Received(os, e) == Announced(os, e) - 1 && |SessionFences(os, e)| == Announced(os, e)
  {
    assert InStep(os, os.hellos[|os.hellos| - 1]);
  }

  // ---------- the data stream ----------

  /** The data socket has carried exactly these messages. */
  ghost predicate Carried(os: OS, e: Ends, log: seq<Msg>) {
    e.data in os.open && os.open[e.data].Ours? && AllWellFormed(log) && Cells(os, os.open[e.data].pair) == WriteAll(log)
  }

  /** The only table in the log is its first message, and it is this one. */
  ghost predicate Tabled(log: seq<Msg>, infos: seq<BufInfo>, fds: seq<int>) {
    && (infos != [] ==> log != [] && log[0] == BufsReady(infos, fds))
    && (forall i | (if infos == [] then 0 else 1) <= i < |log| :: !log[i].BufsReady?)
  }

  ghost predicate TableOk(os: OS, fallback: bool, e: Ends, log: seq<Msg>, infos: seq<BufInfo>, fds: seq<int>) {
    !fallback ==> Carried(os, e, log) && Tabled(log, infos, fds)
  }

  lemma WriteHead(m: Msg, rest: seq<Msg>)
    requires AllWellFormed([m] + rest)
    ensures WellFormed(m) && AllWellFormed(rest) && WriteAll([m] + rest) == Write(m) + WriteAll(rest)
  {
    var ms := [m] + rest;
    assert ms[0] == m && ms[1..] == rest;
    assert forall x | x in rest :: x in ms;
  }

  lemma Joined(a: seq<Cell>, b: seq<Cell>, c: seq<Cell>)
    ensures (a + b) + c == a + (b + c)
  {
  }

  lemma {:induction false} WriteAppend(log: seq<Msg>, m: Msg)
    requires AllWellFormed(log) && WellFormed(m)
    ensures AllWellFormed(log + [m]) && WriteAll(log + [m]) == WriteAll(log) + Write(m)
    decreases |log|
  {
    if log == [] {
      WriteHead(m, []);
      assert log + [m] == [m] + [];
    } else {
      var head, rest := log[0], log[1..];
      assert log == [head] + rest;
      WriteHead(head, rest);
      WriteAppend(rest, m);
      assert log + [m] == [head] + (rest + [m]);
      WriteHead(head, rest + [m]);
      Joined(Write(head), WriteAll(rest), Write(m));
    }
  }

  /** One more message went out whole. */
  lemma CarriedAppend(os: OS, e: Ends, log: seq<Msg>, m: Msg)
    requires Carried(os, e, log) && WellFormed(m)
    ensures Carried(Sent(os, os.open[e.data].pair, Write(m)), e, log + [m])
  {
    WriteAppend(log, m);
  }

  lemma UnusedCarried(os: OS, e: Ends)
    requires Unused(os, e) && e.data in os.open && os.open[e.data].Ours?
    ensures Carried(os, e, [])
  {
  }

  // ---------- what holds before and after every call ----------

  /**
   The context owns exactly its fields' descriptors and mapping beside everybody else's, and both sides agree
   on the handshake and on the frames.
   */
  ghost predicate Grounded(os: OS, ctrl: int, e: Ends, fallback: bool,
                           others: map<int, Object>, otherMaps: map<nat, Object>) {
    && EndsOk(os, ctrl, e) && Sound(os)
    && OthersFds(os, ctrl, e) == others && OthersMaps(os, e) == otherMaps
    && HandshakeOk(os, fallback, e) && FramesOk(os)
  }

  lemma GroundedRenewed(os: OS, ctrl: int, e: Ends, v: OS, f: Ends, delivered: bool,
                        others: map<int, Object>, otherMaps: map<nat, Object>)
    requires Grounded(os, ctrl, e, false, others, otherMaps)
    requires Renewed(Dropped(os, e), ctrl, v, f, delivered)
    ensures Grounded(v, ctrl, f, true, others, otherMaps) && PacingOk(v, true, false, 0, [], f)
  {
    var o := Dropped(os, e);
    DropSound(os, e);
    DropKeeps(os, ctrl, e);
    ActiveSettled(os, e);
    SameFrames(os, o);
    RenewedHandshake(o, ctrl, v, f, delivered);
    RenewedFrames(o, ctrl, v, f, delivered);
    RenewedPacing(o, ctrl, v, f, delivered);
  }

  lemma GroundedSent(os: OS, ctrl: int, e: Ends, others: map<int, Object>, otherMaps: map<nat, Object>,
                     cells: seq<Cell>)
    requires Grounded(os, ctrl, e, false, others, otherMaps) && e.data in os.open && os.open[e.data].Ours?
    ensures Grounded(Sent(os, os.open[e.data].pair, cells), ctrl, e, false, others, otherMaps)
  {
    var v := Sent(os, os.open[e.data].pair, cells);
    SameHandshake(os, v, false, e);
    SameFrames(os, v);
  }

  lemma GroundedMoved(os: OS, ctrl: int, e: Ends, fallback: bool, others: map<int, Object>, otherMaps: map<nat, Object>,
                      move: Move)
    requires Grounded(os, ctrl, e, fallback, others, otherMaps) && CanMove(os, move)
    ensures Grounded(Moved(os, move), ctrl, e, fallback, others, otherMaps)
  {
    ProducerHandshake(os, move, fallback, e);
    ProducerFrames(os, move);
    MovedSound(os, move);
  }

  lemma MovedSound(os: OS, move: Move)
    requires Sound(os) && CanMove(os, move)
    ensures Sound(Moved(os, move))
  {
    assert move.Render? ==> os.hellos[move.n] in os.hellos;
  }

  lemma GroundedRead(os: OS, ctrl: int, e: Ends, others: map<int, Object>, otherMaps: map<nat, Object>)
    requires Grounded(os, ctrl, e, true, others, otherMaps) && os.inbox != []
    ensures Grounded(os.(inbox := os.inbox[1..]), ctrl, e, !os.inbox[0].Ready?, others, otherMaps)
  {
    if os.inbox[0].Ready? {
      ReadyHandshake(os, e);
    } else {
      OtherHandshake(os, true, e);
    }
    SameFrames(os, os.(inbox := os.inbox[1..]));
  }

  lemma GroundedSelected(os: OS, ctrl: int, e: Ends, others: map<int, Object>, otherMaps: map<nat, Object>,
                         id: nat, m: nat, word: nat)
    requires Grounded(os, ctrl, e, false, others, otherMaps) && e.bufReady in os.open
             && os.open[e.bufReady] == EventFd(id)
    ensures Grounded(Signalled(os.(memory := os.memory[m := word]), id), ctrl, e, false, others, otherMaps)
  {
    var v := os.(memory := os.memory[m := word]);
    SameFrames(os, v);
    SelectFrames(v, id);
    SelectedSound(v, e.bufReady, id);
    SameHandshake(os, Signalled(v, id), false, e);
  }

  lemma SelectedSound(os: OS, fd: int, id: nat)
    requires Sound(os) && fd in os.open && os.open[fd] == EventFd(id)
    ensures Sound(Signalled(os, id))
  {
  }

  lemma GroundedFrame(os: OS, ctrl: int, e: Ends, others: map<int, Object>, otherMaps: map<nat, Object>, pair: nat)
    requires Grounded(os, ctrl, e, false, others, otherMaps) && e.fence in os.open && os.open[e.fence] == Ours(pair)
    requires Taken(os, pair) < |Fences(os, pair)|
    ensures Grounded(TookOne(os, pair), ctrl, e, false, others, otherMaps)
  {
    FrameFrames(os, pair);
    SameHandshake(os, TookOne(os, pair), false, e);
  }
}
