/** The event thread over the data socket, receiving in whatever pieces the kernel delivers. */
module EventLoop {
  import opened SocketUtils
  import opened Wire
  import opened OutputFraming

  /**
   The kernel may split, interrupt and fail receives; but an AF_UNIX stream socket delivers what is queued before
   it reports an error. So a refusal counts only where nothing is queued.
   */
  function Delivering(answers: seq<Answer>): (ds: seq<Answer>)
    ensures NeverRefused(ds) && |ds| == |answers|
  {
    seq(|answers|, i requires 0 <= i < |answers| => if answers[i].Refused? then Moved(0) else answers[i])
  }

  /** At the end of the stream the error and the end look the same to recv_all; elsewhere only refusals have changed. */
  lemma DeliveringSame(answers: seq<Answer>, len: nat, available: nat)
    requires len > 0 && (available == 0 || answers == [] || answers[0] != Refused)
    ensures Count(Delivering(answers), len, available) == Count(answers, len, available)
  {
  }

  lemma {:induction false} RestNeverRefused(answers: seq<Answer>, len: nat, available: nat)
    requires NeverRefused(answers)
    ensures NeverRefused(Loop(answers, len, available).rest)
    decreases |answers|, len
  {
    if len > 0 {
      assert NeverRefused(Later(answers));
      var n := Count(answers, len, available);
      if n == EINTR {
        RestNeverRefused(Later(answers), len, available);
      } else if n > 0 {
        RestNeverRefused(Later(answers), len - n, available - n);
      }
    }
  }

  /** The part of the context and consumer state that the event thread works on. */
  class EventThread {
    const socket: Stream
    var fallback: bool
    var handled: seq<Out>

    ghost predicate Valid()
      reads this, socket
    {
      NeverRefused(socket.answers)
    }

    ghost function View(): Conn
      reads this, socket
    {
      Conn(socket.data, fallback, handled)
    }

    constructor (socket: Stream)
      modifies socket
      ensures this.socket == socket && Valid()
      ensures socket.answers == Delivering(old(socket.answers)) && View() == Start(old(socket.data))
    {
      this.socket := socket;
      fallback, handled := false, [];
      new;
      socket.answers := Delivering(socket.answers);
    }

    /** recv_all into a fresh buffer: all of it, or the rest of the stream and failure. */
    method Receive(size: nat) returns (ok: bool, bs: seq<byte>)
      requires Valid()
      modifies socket
      ensures Valid()
      ensures ok == (size <= |old(socket.data)|)
      ensures ok ==> bs == old(socket.data)[..size] && socket.data == old(socket.data)[size..]
      ensures !ok ==> socket.data == []
    {
      var buf := new byte[size](_ => 0);
      NeverRefusedMovesAll(socket.answers, size, |socket.data|);
      RestNeverRefused(socket.answers, size, |socket.data|);
      var r := RecvAll(socket, buf, size);
      ok, bs := r == 0, buf[..];
      assert ok ==> bs == buf[..size];
    }

    method PollOutputEvent(poll: Poll) returns (ret: int, ev: Event)
      requires Valid()
      modifies this, socket
      ensures Valid()
      ensures var p := PollEvent(old(View()), poll); View() == p.c && ret == p.ret && ev == p.ev
    {
      ev := NO_EVENT;
      if fallback {
        return 0, ev;
      }
      match poll
      case Quiet => return 0, ev;
      case HungUp =>
        fallback := true;
        return -1, ev;
      case Readable =>
        var ok, bs := Receive(MESSAGE_SIZE);
        if !ok {
          return -1, ev;
        }
        assert bs[..HEADER_SIZE] == old(socket.data)[..HEADER_SIZE];
        assert bs[HEADER_SIZE..] == old(socket.data)[HEADER_SIZE..MESSAGE_SIZE];
        if DecodeHeader(bs[..HEADER_SIZE]) != OUTPUT_HEADER {
          fallback := true;
          return -1, ev;
        }
        return 1, DecodeEvent(bs[HEADER_SIZE..]);
    }

    method PollOutputEventExtendData(size: nat, poll: Poll) returns (ret: int, payload: seq<byte>)
      requires Valid()
      modifies this, socket
      ensures Valid()
      ensures var p := PollPayload(old(View()), size, poll); View() == p.c && ret == p.ret && payload == p.payload
    {
      payload := [];
      if fallback {
        return 0, payload;
      }
      match poll
      case Quiet => return 0, payload;
      case HungUp =>
        fallback := true;
        return -1, payload;
      case Readable =>
        var ok, bs := Receive(size);
        if !ok {
          return -1, payload;
        }
        return 1, bs;
    }

    /** One pass of the loop body: poll, then dispatch by type. */
    method Dispatch(round: Round)
      requires Valid()
      modifies this, socket
      ensures Valid() && View() == Step(old(View()), round)
    {
      var ret, ev := PollOutputEvent(round.poll);
      if ret <= 0 {
        return;
      }
      if ev.kind == OUTPUT_TYPE_RESOURCES_REQUEST {
        handled := handled + [Out(ev, [])];
        if !round.replied {
          fallback := true;
        }
      } else if ev.kind == OUTPUT_TYPE_CLIPBOARD && ev.w0 > 0 {
        if !round.memory {
          return;
        }
        var got, payload := PollOutputEventExtendData(ev.w0, round.payloadPoll);
        if got == 1 {
          handled := handled + [Out(ev, payload)];
        }
      } else {
        handled := handled + [Out(ev, [])];
      }
    }

    /** event_thread_func, told to stop after `rounds`: it handles what the decoding of the stream prescribes. */
    method RunLoop(rounds: seq<Round>)
      requires Valid()
      modifies this, socket
      ensures Valid() && View() == OutputFraming.Run(old(View()), rounds)
    {
      var i := 0;
      ghost var start := View();
      while i < |rounds|
        invariant 0 <= i <= |rounds| && Valid()
        invariant OutputFraming.Run(start, rounds) == OutputFraming.Run(View(), rounds[i..])
      {
        Dispatch(rounds[i]);
        assert rounds[i..][1..] == rounds[i + 1..];
        i := i + 1;
      }
    }
  }
}
