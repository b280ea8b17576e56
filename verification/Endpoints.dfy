/** The endpoints of a display context: what its descriptor fields own, and how they agree with the producer. */
module Endpoints {
  import opened Kernel

  /** The five descriptor fields replaced at each fallback, -1 when absent, and the mapping's address, 0 when absent. */
  datatype Ends = Ends(data: int, bufReady: int, fence: int, shm: int, audio: int, address: nat)

  const NO_ENDS := Ends(-1, -1, -1, -1, -1, 0)

  function Used(fd: int): set<int> { if fd >= 0 then {fd} else {} }

  /** The descriptors owned by a context: its non-negative fields. */
  function OwnedFds(ctrl: int, e: Ends): set<int> {
    Used(ctrl) + Used(e.data) + Used(e.bufReady) + Used(e.fence) + Used(e.shm) + Used(e.audio)
  }

  predicate Differ(a: int, b: int) { a >= 0 ==> a != b }

  predicate Distinct(ctrl: int, e: Ends) {
    && Differ(e.data, ctrl) && Differ(e.bufReady, ctrl) && Differ(e.fence, ctrl) && Differ(e.shm, ctrl)
    && Differ(e.audio, ctrl)
    && Differ(e.data, e.bufReady) && Differ(e.data, e.fence) && Differ(e.data, e.shm) && Differ(e.data, e.audio)
    && Differ(e.bufReady, e.fence) && Differ(e.bufReady, e.shm) && Differ(e.bufReady, e.audio)
    && Differ(e.fence, e.shm) && Differ(e.fence, e.audio) && Differ(e.shm, e.audio)
  }

  predicate OpenOr(os: OS, fd: int) { fd == -1 || (fd >= 0 && fd in os.open) }

  /** Every field is -1 or open and refers to an object of its kind; the mapping is that of shm. */
  predicate EndsOk(os: OS, ctrl: int, e: Ends) {
    && ctrl >= 0 && ctrl in os.open
    && OpenOr(os, e.data) && OpenOr(os, e.bufReady) && OpenOr(os, e.fence) && OpenOr(os, e.shm) && OpenOr(os, e.audio)
    && Distinct(ctrl, e)
    && (e.data >= 0 ==> os.open[e.data].Ours?)
    && (e.bufReady >= 0 ==> os.open[e.bufReady].EventFd?)
    && (e.fence >= 0 ==> os.open[e.fence].Ours?)
    && (e.shm >= 0 ==> os.open[e.shm].Memory?)
    && (e.audio >= 0 ==> os.open[e.audio].Ours?)
    && (e.address > 0 ==> e.shm >= 0 && e.address in os.maps && os.maps[e.address] == os.open[e.shm])
    && (e.address == 0 ==> e.shm < 0)
  }

  /** The producer holds the other ends of all five, and shm is mapped. */
  predicate Announces(os: OS, e: Ends, h: Hello) {
    && {e.data, e.bufReady, e.fence, e.shm, e.audio} <= os.open.Keys && e.address > 0
    && os.open[e.data].Ours? && os.open[e.fence].Ours? && os.open[e.audio].Ours?
    && h == Hello(os.open[e.bufReady], Theirs(os.open[e.fence].pair), Theirs(os.open[e.data].pair),
                  os.open[e.shm], Theirs(os.open[e.audio].pair))
  }

  // ---------- replacing the endpoints ----------

  /** All of them closed and unmapped. */
  function Dropped(os: OS, e: Ends): OS {
    os.(open := os.open - OwnedFds(-1, e), maps := OthersMaps(os, e))
  }

  /** The descriptors and mappings that are not the context's. */
  function OthersFds(os: OS, ctrl: int, e: Ends): map<int, Object> {
    os.open - OwnedFds(ctrl, e)
  }

  function OthersMaps(os: OS, e: Ends): map<nat, Object> {
    if e.address > 0 then os.maps - {e.address} else os.maps
  }

  /** What only the producer or a transfer changes. */
  predicate SameTraffic(os: OS, v: OS) {
    && v.cells == os.cells && v.signals == os.signals && v.fences == os.fences && v.taken == os.taken
    && v.answered == os.answered && v.inbox == os.inbox && os.nextId <= v.nextId
  }

  /** Everybody else's descriptors and mappings are as they were. */
  predicate OthersKept(os: OS, ctrl: int, e: Ends, v: OS, f: Ends) {
    OthersFds(v, ctrl, f) == OthersFds(os, ctrl, e) && OthersMaps(v, f) == OthersMaps(os, e)
  }

  lemma DropOk(os: OS, ctrl: int, e: Ends)
    requires EndsOk(os, ctrl, e)
    ensures EndsOk(Dropped(os, e), ctrl, NO_ENDS)
  {
  }

  lemma DropSound(os: OS, e: Ends)
    requires Sound(os)
    ensures Sound(Dropped(os, e))
  {
  }

  lemma MinusTwice(m: map<int, Object>, a: set<int>, b: set<int>)
    ensures m - a - b == m - (a + b)
  {
  }

  lemma DropKeeps(os: OS, ctrl: int, e: Ends)
    ensures OthersKept(os, ctrl, e, Dropped(os, e), NO_ENDS)
  {
    MinusTwice(os.open, OwnedFds(-1, e), Used(ctrl));
    assert OwnedFds(-1, e) + Used(ctrl) == OwnedFds(ctrl, e);
    assert OwnedFds(ctrl, NO_ENDS) == Used(ctrl);
  }

  /** The open descriptors after closing one field. */
  function Shut(open: map<int, Object>, fd: int): map<int, Object> {
    open - Used(fd)
  }

  lemma ShutAll(open: map<int, Object>, e: Ends)
    ensures Shut(Shut(Shut(Shut(Shut(open, e.data), e.bufReady), e.fence), e.audio), e.shm) == open - OwnedFds(-1, e)
  {
    var a, b, c, d, s := Used(e.data), Used(e.bufReady), Used(e.fence), Used(e.audio), Used(e.shm);
    MinusTwice(open, a, b);
    MinusTwice(open, a + b, c);
    MinusTwice(open, a + b + c, d);
    MinusTwice(open, a + b + c + d, s);
    assert OwnedFds(-1, e) == a + b + c + d + s;
  }

  // ---------- adding endpoints ----------

  lemma AddedKept(open: map<int, Object>, owned: set<int>, fd: int, obj: Object)
    requires fd !in open
    ensures open[fd := obj] - (owned + {fd}) == open - owned
  {
  }

  lemma OpenedSound(os: OS, fd: int, obj: Object)
    requires Sound(os) && fd >= 0 && (obj == EventFd(os.nextId) || obj == Memory(os.nextId))
    ensures Sound(Opened(os, fd, obj))
  {
  }

  lemma AddBufReady(os: OS, ctrl: int, e: Ends, fd: int)
    requires EndsOk(os, ctrl, e) && e.bufReady == -1 && fd >= 0 && fd !in os.open
    ensures EndsOk(Opened(os, fd, EventFd(os.nextId)), ctrl, e.(bufReady := fd))
  {
  }

  lemma AddBufReadyKept(os: OS, ctrl: int, e: Ends, fd: int)
    requires e.bufReady == -1 && fd >= 0 && fd !in os.open
    ensures OthersKept(os, ctrl, e, Opened(os, fd, EventFd(os.nextId)), e.(bufReady := fd))
  {
    AddedKept(os.open, OwnedFds(ctrl, e), fd, EventFd(os.nextId));
    assert OwnedFds(ctrl, e.(bufReady := fd)) == OwnedFds(ctrl, e) + {fd};
  }

  /** memfd, its mapping, and 0 in its word. */
  function Mapped(os: OS, fd: int, address: nat): OS {
    Opened(os, fd, Memory(os.nextId)).(maps := os.maps[address := Memory(os.nextId)],
                                       memory := os.memory[os.nextId := 0])
  }

  lemma AddShm(os: OS, ctrl: int, e: Ends, fd: int, address: nat)
    requires EndsOk(os, ctrl, e) && e.shm == -1 && e.address == 0 && fd >= 0 && fd !in os.open
    requires address > 0
    ensures EndsOk(Mapped(os, fd, address), ctrl, e.(shm := fd, address := address))
  {
  }

  lemma AddShmKept(os: OS, ctrl: int, e: Ends, fd: int, address: nat)
    requires e.shm == -1 && e.address == 0 && fd >= 0 && fd !in os.open
    requires address > 0 && address !in os.maps
    ensures OthersKept(os, ctrl, e, Mapped(os, fd, address), e.(shm := fd, address := address))
  {
    AddedKept(os.open, OwnedFds(ctrl, e), fd, Memory(os.nextId));
    assert OwnedFds(ctrl, e.(shm := fd, address := address)) == OwnedFds(ctrl, e) + {fd};
  }

  /** A kernel object made and dropped again leaves only its number used up. */
  function Bumped(os: OS): OS {
    os.(nextId := os.nextId + 1)
  }

  lemma BumpedOk(os: OS, ctrl: int, e: Ends)
    requires EndsOk(os, ctrl, e) && Sound(os)
    ensures EndsOk(Bumped(os), ctrl, e) && Sound(Bumped(os)) && OthersKept(os, ctrl, e, Bumped(os), e)
  {
  }

  lemma MappedSound(os: OS, address: nat, obj: Object, memory: map<nat, nat>)
    requires Sound(os) && address > 0
    ensures Sound(os.(maps := os.maps[address := obj], memory := memory))
  {
  }

  /** Opening a descriptor and closing it again. */
  lemma OpenedShut(open: map<int, Object>, fd: int, obj: Object)
    requires fd !in open
    ensures open[fd := obj] - {fd} == open
  {
  }

  /** The shared word is 0. */
  predicate Blank(os: OS, e: Ends) {
    e.address > 0 ==>
      && e.address in os.maps && os.maps[e.address].Memory?
      && os.maps[e.address].id in os.memory && os.memory[os.maps[e.address].id] == 0
  }

  /** What create_shm does, whichever way it ends. */
  predicate ShmStep(os: OS, e: Ends, v: OS, f: Ends) {
    || (f == e && (v == os || v == Bumped(os)))
    || (f.shm >= 0 && f.shm !in os.open && f.address > 0 && f.address !in os.maps
        && v == Mapped(os, f.shm, f.address) && f == e.(shm := f.shm, address := f.address))
  }

  lemma ShmOk(os: OS, ctrl: int, e: Ends, v: OS, f: Ends)
    requires EndsOk(os, ctrl, e) && Sound(os) && e.shm == -1 && e.address == 0
    requires ShmStep(os, e, v, f)
    ensures EndsOk(v, ctrl, f) && Sound(v) && OthersKept(os, ctrl, e, v, f)
    ensures SameTraffic(os, v) && v.hellos == os.hellos && Blank(v, f)
  {
    BumpedOk(os, ctrl, e);
    if f != e {
      AddShm(os, ctrl, e, f.shm, f.address);
      AddShmKept(os, ctrl, e, f.shm, f.address);
      OpenedSound(os, f.shm, Memory(os.nextId));
      MappedSound(Opened(os, f.shm, Memory(os.nextId)), f.address, Memory(os.nextId), v.memory);
    }
  }

  // ---------- the three socket pairs ----------

  lemma PairShut(open: map<int, Object>, a: int, x: Object, b: int, y: Object)
    requires a !in open && b !in open && a != b
    ensures open[a := x][b := y] - {a} - {b} == open
    ensures open[a := x][b := y] - {b} == open[a := x]
  {
  }

  /** Only object numbers have been used up. */
  predicate Spent(os: OS, v: OS) {
    os.nextId <= v.nextId && v == os.(nextId := v.nextId)
  }

  lemma SpentOk(os: OS, ctrl: int, e: Ends, v: OS)
    requires EndsOk(os, ctrl, e) && Sound(os) && Spent(os, v)
    ensures EndsOk(v, ctrl, e) && Sound(v) && OthersKept(os, ctrl, e, v, e)
  {
  }

  /** Our ends of the three pairs are open; the others have been closed. */
  function Connected(os: OS, data: int, fence: int, audio: int): OS {
    os.(open := os.open[data := Ours(os.nextId)][fence := Ours(os.nextId + 1)][audio := Ours(os.nextId + 2)],
        nextId := os.nextId + 3)
  }

  predicate NewFds(os: OS, a: int, b: int, c: int) {
    a >= 0 && b >= 0 && c >= 0 && a != b && a != c && b != c && a !in os.open && b !in os.open && c !in os.open
  }

  /** What the producer gets: our eventfd and memory, and its own ends of the three pairs. */
  function HelloFor(os: OS, e: Ends): Hello
    requires e.bufReady in os.open && e.shm in os.open
  {
    Hello(os.open[e.bufReady], Theirs(os.nextId + 1), Theirs(os.nextId), os.open[e.shm], Theirs(os.nextId + 2))
  }

  lemma ConnectOk(os: OS, ctrl: int, e: Ends, data: int, fence: int, audio: int)
    requires EndsOk(os, ctrl, e) && e.data == e.fence == e.audio == -1 && NewFds(os, data, fence, audio)
    ensures EndsOk(Connected(os, data, fence, audio), ctrl, e.(data := data, fence := fence, audio := audio))
  {
  }

  lemma ConnectSound(os: OS, data: int, fence: int, audio: int)
    requires Sound(os) && NewFds(os, data, fence, audio)
    ensures Sound(Connected(os, data, fence, audio))
  {
  }

  lemma ConnectKept(os: OS, ctrl: int, e: Ends, data: int, fence: int, audio: int)
    requires e.data == e.fence == e.audio == -1 && NewFds(os, data, fence, audio)
    ensures OthersKept(os, ctrl, e, Connected(os, data, fence, audio), e.(data := data, fence := fence, audio := audio))
  {
    var o := os.open;
    var o1 := o[data := Ours(os.nextId)];
    var o2 := o1[fence := Ours(os.nextId + 1)];
    var owned := OwnedFds(ctrl, e);
    AddedKept(o, owned, data, Ours(os.nextId));
    AddedKept(o1, owned + {data}, fence, Ours(os.nextId + 1));
    AddedKept(o2, owned + {data} + {fence}, audio, Ours(os.nextId + 2));
    assert OwnedFds(ctrl, e.(data := data, fence := fence, audio := audio)) == owned + {data} + {fence} + {audio};
  }
}
