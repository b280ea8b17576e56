/** Building a new set of endpoints from nothing, step by step, and handing it to the producer. */
module Renewal {
  import opened Kernel
  import opened Endpoints

  /** The channels were made after object number `least`: nobody has used them. */
  predicate FreshEnds(least: nat, v: OS, f: Ends) {
    && (f.data in v.open && v.open[f.data].Ours? ==> v.open[f.data].pair >= least)
    && (f.bufReady in v.open && v.open[f.bufReady].EventFd? ==> v.open[f.bufReady].id >= least)
    && (f.fence in v.open && v.open[f.fence].Ours? ==> v.open[f.fence].pair >= least)
  }

  /** From no endpoints in `o`, the endpoints `f` have been opened so far. */
  ghost predicate Opening(o: OS, ctrl: int, v: OS, f: Ends) {
    && EndsOk(v, ctrl, f) && Sound(v) && OthersKept(o, ctrl, NO_ENDS, v, f)
    && SameTraffic(o, v) && FreshEnds(o.nextId, v, f) && Blank(v, f) && v.hellos == o.hellos
  }

  lemma OpeningStart(o: OS, ctrl: int)
    requires EndsOk(o, ctrl, NO_ENDS) && Sound(o)
    ensures Opening(o, ctrl, o, NO_ENDS)
  {
  }

  lemma OpeningBufReady(o: OS, ctrl: int, v: OS, f: Ends, fd: int)
    requires Opening(o, ctrl, v, f) && f.bufReady == -1 && fd >= 0 && fd !in v.open
    ensures Opening(o, ctrl, Opened(v, fd, EventFd(v.nextId)), f.(bufReady := fd))
  {
    AddBufReady(v, ctrl, f, fd);
    AddBufReadyKept(v, ctrl, f, fd);
    OpenedSound(v, fd, EventFd(v.nextId));
  }

  lemma OpeningShm(o: OS, ctrl: int, v: OS, f: Ends, w: OS, g: Ends)
    requires Opening(o, ctrl, v, f) && f.shm == -1 && f.address == 0 && ShmStep(v, f, w, g)
    ensures Opening(o, ctrl, w, g)
  {
    ShmOk(v, ctrl, f, w, g);
  }

  lemma OpeningSpent(o: OS, ctrl: int, v: OS, f: Ends, w: OS)
    requires Opening(o, ctrl, v, f) && Spent(v, w)
    ensures Opening(o, ctrl, w, f)
  {
    SpentOk(v, ctrl, f, w);
  }

  lemma OpeningPairs(o: OS, ctrl: int, v: OS, f: Ends, data: int, fence: int, audio: int)
    requires Opening(o, ctrl, v, f) && f.data == f.fence == f.audio == -1 && NewFds(v, data, fence, audio)
    ensures Opening(o, ctrl, Connected(v, data, fence, audio), f.(data := data, fence := fence, audio := audio))
  {
    ConnectOk(v, ctrl, f, data, fence, audio);
    ConnectSound(v, data, fence, audio);
    ConnectKept(v, ctrl, f, data, fence, audio);
  }

  /** The latest hello is for the endpoints in place. */
  predicate Current(os: OS, e: Ends) {
    os.hellos != [] && Announces(os, e, os.hellos[|os.hellos| - 1])
  }

  lemma FourShut(o0: map<int, Object>, o1: map<int, Object>, o2: map<int, Object>, a: int, b: int, c: int, d: int)
    requires o1 - {a} - {b} == o0 && o2 - {c} - {d} == o1 && c !in o1 && d !in o1 && a in o1 && b in o1
    ensures o2 - {a} - {b} - {c} - {d} == o0
  {
    assert o2 - {a} - {b} - {c} - {d} == o2 - {c} - {d} - {a} - {b};
  }

  /** The producer's ends closed on our side, ours stay. */
  lemma PairsClosed(o: OS, a: int, b: int, c: int, x: int, y: int, z: int)
    requires NewFds(o, a, b, c) && NewFds(o, x, y, z) && {a, b, c} !! {x, y, z}
    ensures var p := Paired(Paired(Paired(o, a, x), b, y), c, z);
            p.(open := p.open - {x} - {y} - {z}) == Connected(o, a, b, c)
  {
    var p := Paired(Paired(Paired(o, a, x), b, y), c, z);
    assert p.open - {x} - {y} - {z} == Connected(o, a, b, c).open;
  }

  lemma HelloContents(o: OS, e: Ends, a: int, b: int, c: int, x: int, y: int, z: int)
    requires NewFds(o, a, b, c) && NewFds(o, x, y, z) && {a, b, c} !! {x, y, z}
    requires OpenOr(o, e.bufReady) && OpenOr(o, e.shm)
    ensures var p := Paired(Paired(Paired(o, a, x), b, y), c, z).open;
            && {x, y, z} <= p.Keys
            && (e.bufReady in p && e.shm in p && Sound(o) ==>
                  e.bufReady in o.open && e.shm in o.open
                  && Hello(p[e.bufReady], p[y], p[x], p[e.shm], p[z]) == HelloFor(o, e))
  {
  }

  /** What send_hello_fds does: no pair, or three pairs and perhaps a delivered hello. */
  predicate HelloStep(v: OS, f: Ends, r: int, w: OS, g: Ends) {
    || (r == -1 && Spent(v, w) && g == f)
    || (NewFds(v, g.data, g.fence, g.audio) && g == f.(data := g.data, fence := g.fence, audio := g.audio)
        && HelloSent(v, f, r, w, Connected(v, g.data, g.fence, g.audio)))
  }

  predicate HelloSent(v: OS, f: Ends, r: int, w: OS, c: OS) {
    || (r == -1 && w == c)
    || (r == 0 && f.bufReady in v.open && f.shm in v.open && w == c.(hellos := v.hellos + [HelloFor(v, f)]))
  }

  /** The endpoints that replaced the old ones; the producer has been told of all of them or of none. */
  ghost predicate Renewed(o: OS, ctrl: int, v: OS, f: Ends, delivered: bool) {
    && EndsOk(v, ctrl, f) && Sound(v) && OthersKept(o, ctrl, NO_ENDS, v, f)
    && SameTraffic(o, v) && FreshEnds(o.nextId, v, f) && Blank(v, f)
    && (!delivered ==> v.hellos == o.hellos)
    && (delivered ==> |v.hellos| == |o.hellos| + 1 && v.hellos[..|o.hellos|] == o.hellos && Current(v, f))
  }

  // ---------- which steps of a set-up were taken ----------

  predicate HasMemory(k: Setup) { k.memfd && k.ftruncate && k.mmap }

  predicate HasPairs(k: Setup) { HasMemory(k) && k.pairs >= 3 }

  predicate Delivers(k: Setup) { k.eventfd && HasPairs(k) && k.hello }

  /** Each endpoint is there if and only if the syscalls it takes have succeeded. */
  predicate Follows(k: Setup, f: Ends) {
    && (f.bufReady >= 0 <==> k.eventfd)
    && (f.shm >= 0 <==> HasMemory(k)) && (f.address > 0 <==> HasMemory(k))
    && (f.data >= 0 <==> HasPairs(k)) && (f.fence >= 0 <==> HasPairs(k)) && (f.audio >= 0 <==> HasPairs(k))
  }

  /** The producer's ends go with the three pairs just made. */
  lemma NewEndsAnnounced(v: OS, ctrl: int, f: Ends, g: Ends)
    requires EndsOk(v, ctrl, f) && Sound(v) && f.bufReady in v.open && f.shm in v.open
    requires NewFds(v, g.data, g.fence, g.audio) && g == f.(data := g.data, fence := g.fence, audio := g.audio)
    ensures Announces(Connected(v, g.data, g.fence, g.audio), g, HelloFor(v, f))
  {
  }

  lemma ToldSound(v: OS, h: Hello)
    requires Sound(v) && Exists(v, h.bufReady) && Exists(v, h.fence)
    ensures Sound(v.(hellos := v.hellos + [h]))
  {
  }

  lemma HelloDelivered(o: OS, ctrl: int, v: OS, f: Ends, h: Hello)
    requires Opening(o, ctrl, v, f) && Announces(v, f, h)
    ensures Renewed(o, ctrl, v.(hellos := v.hellos + [h]), f, true)
  {
    var w := v.(hellos := v.hellos + [h]);
    assert w.hellos[..|o.hellos|] == o.hellos;
    assert Exists(v, v.open[f.bufReady]) && Exists(v, v.open[f.fence]);
    ToldSound(v, h);
  }

  lemma HelloRenews(o: OS, ctrl: int, v: OS, f: Ends, r: int, w: OS, g: Ends)
    requires Opening(o, ctrl, v, f) && f.data == f.fence == f.audio == -1 && HelloStep(v, f, r, w, g)
    ensures Renewed(o, ctrl, w, g, r == 0)
  {
    if r == -1 && Spent(v, w) && g == f {
      OpeningSpent(o, ctrl, v, f, w);
    } else {
      OpeningPairs(o, ctrl, v, f, g.data, g.fence, g.audio);
      if r == 0 {
        NewEndsAnnounced(v, ctrl, f, g);
        HelloDelivered(o, ctrl, Connected(v, g.data, g.fence, g.audio), g, HelloFor(v, f));
      }
    }
  }
}
