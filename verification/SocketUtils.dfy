/** send_all and recv_all over a kernel that moves any part of a request, interrupts it or refuses it. */
module SocketUtils {

  type byte = b: int | 0 <= b < 256

  /** The kernel's answer to one send or recv; `Moved(n)` moves n bytes, at least one and at most what it can. */
  datatype Answer = Moved(n: nat) | Interrupted | Refused

  const EINTR := -1

  function Min(a: nat, b: nat): nat { if a <= b then a else b }

  /** The result of one call for `len` bytes when `available` can be moved; after the script all of them are. */
  function Count(answers: seq<Answer>, len: nat, available: nat): (n: int)
    requires len > 0
    ensures n == EINTR || 0 <= n <= Min(len, available)
    ensures n == EINTR ==> answers != []
  {
    var most := Min(len, available);
    if answers == [] then most
    else
      match answers[0]
      case Interrupted => EINTR
      case Refused => 0
      case Moved(n) => if n == 0 then Min(1, most) else Min(n, most)
  }

  function Later(answers: seq<Answer>): seq<Answer> {
    if answers == [] then [] else answers[1..]
  }

  datatype Transfer = Transfer(moved: nat, rest: seq<Answer>)

  function After(n: nat, t: Transfer): Transfer {
    Transfer(n + t.moved, t.rest)
  }

  /** What a retry loop moves, and the answers it leaves: EINTR is retried, anything else that moves nothing ends it. */
  function Loop(answers: seq<Answer>, len: nat, available: nat): (t: Transfer)
    ensures t.moved <= len && t.moved <= available
    decreases |answers|, len
  {
    if len == 0 then Transfer(0, answers)
    else
      var n := Count(answers, len, available);
      if n == EINTR then Loop(Later(answers), len, available)
      else if n == 0 then Transfer(0, Later(answers))
      else After(n, Loop(Later(answers), len - n, available - n))
  }

  /** A loop falls short exactly when its last answer was a refusal, or when there was no more to move. */
  lemma {:induction false} ShortMeansRefused(answers: seq<Answer>, len: nat, available: nat)
    ensures var t := Loop(answers, len, available);
            && |t.rest| <= |answers|
            && (t.moved < len <==>
                || (len > 0 && |t.rest| < |answers| && answers[|answers| - |t.rest| - 1] == Refused)
                || t.moved == available < len)
    decreases |answers|, len
  {
    if len > 0 {
      var n := Count(answers, len, available);
      if n == EINTR {
        ShortMeansRefused(answers[1..], len, available);
      } else if n > 0 {
        ShortMeansRefused(Later(answers), len - n, available - n);
      }
    }
  }

  predicate NeverRefused(answers: seq<Answer>) {
    Refused !in answers
  }

  /** Without refusals a loop moves everything asked for, or everything there is. */
  lemma {:induction false} NeverRefusedMovesAll(answers: seq<Answer>, len: nat, available: nat)
    requires NeverRefused(answers)
    ensures Loop(answers, len, available).moved == Min(len, available)
    decreases |answers|, len
  {
    if len > 0 {
      if answers != [] {
        assert answers[0] in answers;
      }
      var n := Count(answers, len, available);
      if n == EINTR {
        NeverRefusedMovesAll(Later(answers), len, available);
      } else if n > 0 {
        NeverRefusedMovesAll(Later(answers), len - n, available - n);
      }
    }
  }

  /** One direction of a stream socket: the bytes sent and not yet received, and the kernel's coming answers. */
  class Stream {
    var data: seq<byte>
    var answers: seq<Answer>

    constructor (data: seq<byte>, answers: seq<Answer>)
      ensures this.data == data && this.answers == answers
    {
      this.data, this.answers := data, answers;
    }

    /** send(2): some of `buf[from..to]` joins the stream. */
    method Send(buf: array<byte>, from: nat, to: nat) returns (n: int)
      requires from < to <= buf.Length
      modifies this
      ensures n == Count(old(answers), to - from, to - from)
      ensures answers == Later(old(answers))
      ensures data == if n > 0 then old(data) + buf[from..from + n] else old(data)
    {
      n := Count(answers, to - from, to - from);
      answers := Later(answers);
      if n > 0 {
        data := data + buf[from..from + n];
      }
    }

    /** recv(2): some of the stream moves into `buf` at `from`; 0 at the end of the stream. */
    method Recv(buf: array<byte>, from: nat, to: nat) returns (n: int)
      requires from < to <= buf.Length
      modifies this, buf
      ensures n == Count(old(answers), to - from, |old(data)|)
      ensures answers == Later(old(answers))
      ensures n <= 0 ==> data == old(data) && buf[..] == old(buf[..])
      ensures n > 0 ==> data == old(data)[n..]
      ensures n > 0 ==> buf[..from + n] == old(buf[..from]) + old(data)[..n] && buf[from + n..] == old(buf[from + n..])
    {
      n := Count(answers, to - from, |data|);
      answers := Later(answers);
      if n > 0 {
        forall i | 0 <= i < n {
          buf[from + i] := data[i];
        }
        data := data[n..];
      }
    }
  }

  /**
   Terminates for every script. The stream grows by the bytes moved, in order; the result is 0 exactly when
   they are the whole buffer.
   */
  method SendAll(s: Stream, buf: array<byte>, len: nat) returns (r: int)
    requires len <= buf.Length
    modifies s
    ensures var t := Loop(old(s.answers), len, len);
            && s.data == old(s.data) + buf[..t.moved]
            && s.answers == t.rest
            && r == (if t.moved == len then 0 else -1)
  {
    ghost var before, goal := s.data, Loop(s.answers, len, len);
    var sent := 0;
    while sent < len
      invariant 0 <= sent <= len
      invariant s.data == before + buf[..sent]
      invariant goal == After(sent, Loop(s.answers, len - sent, len - sent))
      decreases |s.answers|, len - sent
    {
      var n := s.Send(buf, sent, len);
      if n <= 0 {
        if n == EINTR {
          continue;
        }
        return -1;
      }
      SentMore(before, buf[..], sent, n);
      sent := sent + n;
    }
    return 0;
  }

  lemma SentMore(before: seq<byte>, buf: seq<byte>, sent: nat, n: nat)
    requires sent + n <= |buf|
    ensures before + buf[..sent] + buf[sent..sent + n] == before + buf[..sent + n]
  {
  }

  lemma ReceivedMore(data: seq<byte>, got: nat, n: nat)
    requires got + n <= |data|
    ensures data[..got] + data[got..][..n] == data[..got + n]
    ensures data[got..][n..] == data[got + n..]
  {
  }

  lemma UntouchedMore(was: seq<byte>, now: seq<byte>, next: seq<byte>, got: nat, n: nat)
    requires got + n <= |was| == |now| == |next|
    requires now[got..] == was[got..] && next[got + n..] == now[got + n..]
    ensures next[got + n..] == was[got + n..]
  {
    assert now[got + n..] == now[got..][n..] && was[got + n..] == was[got..][n..];
  }

  /** The receiver's counterpart: the bytes received leave the stream and fill the buffer, in order. */
  method RecvAll(s: Stream, buf: array<byte>, len: nat) returns (r: int)
    requires len <= buf.Length
    modifies s, buf
    ensures var t := Loop(old(s.answers), len, |old(s.data)|);
            && s.data == old(s.data)[t.moved..]
            && buf[..t.moved] == old(s.data)[..t.moved]
            && buf[t.moved..] == old(buf[..])[t.moved..]
            && s.answers == t.rest
            && r == (if t.moved == len then 0 else -1)
  {
    ghost var was, sentData := buf[..], s.data;
    ghost var goal := Loop(s.answers, len, |s.data|);
    var got := 0;
    while got < len
      invariant 0 <= got <= len && got <= |sentData|
      invariant s.data == sentData[got..]
      invariant buf[..got] == sentData[..got]
      invariant buf[..][got..] == was[got..]
      invariant goal == After(got, Loop(s.answers, len - got, |s.data|))
      decreases |s.answers|, len - got
    {
      ghost var now := buf[..];
      var n := s.Recv(buf, got, len);
      if n <= 0 {
        if n == EINTR {
          continue;
        }
        return -1;
      }
      ReceivedMore(sentData, got, n);
      UntouchedMore(was, now, buf[..], got, n);
      got := got + n;
    }
    return 0;
  }

  /** Sending under any script and then receiving under any other gives the buffer back, if neither refuses. */
  method SendThenRecv(buf: array<byte>, into: array<byte>, sends: seq<Answer>, receives: seq<Answer>)
    returns (sent: int, received: int)
    requires into != buf && into.Length == buf.Length
    requires NeverRefused(sends) && NeverRefused(receives)
    modifies into
    ensures sent == 0 && received == 0 && into[..] == buf[..]
  {
    NeverRefusedMovesAll(sends, buf.Length, buf.Length);
    NeverRefusedMovesAll(receives, buf.Length, buf.Length);
    var s := new Stream([], sends);
    sent := SendAll(s, buf, buf.Length);
    assert s.data == buf[..buf.Length] == buf[..];
    s.answers := receives;
    received := RecvAll(s, into, buf.Length);
  }
}
