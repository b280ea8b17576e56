/**
 The display context as the library keeps it, its fields updated in place: its endpoints, the two transitions,
 and the calls. Each call takes the step that Calls describes, given how its syscalls come out.
 */
module DisplayContext {
  import opened SocketUtils
  import opened Wire
  import opened InputFraming
  import opened Kernel
  import opened Endpoints
  import opened Renewal
  import opened Ledger
  import opened WriteGate
  import opened Context
  import opened Calls
  import opened Runs

  class DisplayCtx {
    var os: OS
    const ctrlFd: int
    var ends: Ends             // data_fd, buf_ready_efd, fence_fd, shm_fd, audio_fd and shm_ptr
    var fallback: bool
    var bufferPending: bool
    var storedFds: seq<int>
    var storedInfos: seq<BufInfo>
    var books: Books           // services, resources, services_sent_mask and data_needs_lock
    var fallbackCalls: nat
    var exitCalls: nat

    ghost const others: map<int, Object>
    ghost const otherMaps: map<nat, Object>
    ghost var log: seq<Msg>
    ghost var queued: seq<int>
    ghost var missed: nat

    /** The whole state as a value. */
    ghost function V(): Ctx
      reads this
    {
      Ctx(os, ctrlFd, ends, fallback, bufferPending, missed, queued, log, storedInfos, storedFds, books,
          fallbackCalls, exitCalls, others, otherMaps)
    }

    /** A context on a control connection nobody has used yet. */
    constructor (os: OS, ctrlFd: int)
      ensures V() == NewCtx(os, ctrlFd)
    {
      this.os, this.ctrlFd := os, ctrlFd;
      others, otherMaps := os.open - Used(ctrlFd), os.maps;
      ends, fallback, bufferPending := NO_ENDS, true, false;
      storedFds, storedInfos, books := [], [], NO_BOOKS;
      fallbackCalls, exitCalls := 0, 0;
      log, queued, missed := [], [], 0;
    }

    // ---------- resources and the write gate ----------

    /** arm_data_lock. */
    method ArmDataLock()
      modifies this`books
      ensures books == Rearmed(old(books))
    {
      books := books.(gate := Arm(|books.services|), recorded := {});
    }

    /** allocate_services; `ok` is whether malloc succeeds. */
    method AllocateServices(types: seq<u32>, ok: bool)
      modifies this`books
      ensures Registered(old(V()), types, ok, V())
    {
      if ok {
        books := books.(services := types, resources := EmptySlots(|types|));
        ArmDataLock();
      } else {
        books := books.(services := [], resources := []);
      }
    }

    /** The service's allocate_resource gives `kind` and `fds`, told apart from everything before. */
    method AllocateResource(kind: int, fds: seq<int>) returns (r: Resources)
      modifies this`books
      ensures r == Resources(old(books).allocations, kind, fds)
      ensures books == old(books).(allocations := r.id + 1, given := old(books).given + HandedOut(r))
    {
      r := Resources(books.allocations, kind, fds);
      books := books.(allocations := r.id + 1, given := books.given + HandedOut(r));
    }

    /** The service's free_resource: only of what was allocated and not freed yet. */
    method FreeResource(r: Resources)
      requires r.id in books.given && r.id !in books.freed
      modifies this`books
      ensures books == old(books).(freed := old(books).freed + {r.id})
    {
      books := books.(freed := books.freed + {r.id});
    }

    /** free_resources: every slot is emptied, what was in it freed. */
    method FreeResources()
      requires LedgerOk(books.resources, books.given, books.freed)
      modifies this`books
      ensures books == old(books).(resources := books.resources, freed := old(books).given)
      ensures |books.resources| == |old(books).resources| && AllEmpty(books.resources)
    {
      ghost var b := books;
      var i := 0;
      while i < |books.resources|
        invariant 0 <= i <= |books.resources| == |b.resources|
        invariant forall j | 0 <= j < i :: books.resources[j].kind == UNALLOCATED
        invariant LedgerOk(books.resources, b.given, books.freed)
        invariant books == b.(resources := books.resources, freed := books.freed)
      {
        if books.resources[i].kind != UNALLOCATED {
          MayFree(books.resources, b.given, books.freed, i);
          SlotFreed(books.resources, b.given, books.freed, i);
          FreeResource(books.resources[i]);
          books := books.(resources := books.resources[i := NO_RESOURCES]);
        }
        i := i + 1;
      }
      EmptyFreed(books.resources, b.given, books.freed);
    }

    // ---------- opening and closing the endpoints ----------

    /** `if (fd >= 0) close(fd)`. */
    method CloseField(fd: int)
      requires fd < 0 || fd in os.open
      modifies this`os
      ensures os == old(os).(open := Shut(old(os).open, fd))
    {
      if fd >= 0 {
        os := Close(os, fd);
      }
      assert fd < 0 ==> Shut(old(os).open, fd) == old(os).open;
    }

    /** munmap and close whatever is there, as enter_fallback, disconnect and a failed connect do. */
    method CloseEnds()
      requires EndsOk(os, ctrlFd, ends)
      modifies this`os, this`ends
      ensures ends == NO_ENDS && os == Dropped(old(os), old(ends))
    {
      ghost var before, e := os, ends;
      CloseField(ends.data);
      CloseField(ends.bufReady);
      CloseField(ends.fence);
      CloseField(ends.audio);
      if ends.address > 0 {
        os := Munmap(os, ends.address);
      }
      CloseField(ends.shm);
      ends := NO_ENDS;
      ShutAll(before.open, e);
    }

    /** All of memfd, ftruncate and mmap, or nothing left of them. */
    method CreateShm(k: Setup) returns (r: int)
      requires ends.shm == -1 && ends.address == 0
      modifies this`os, this`ends
      ensures ShmStep(old(os), old(ends), os, ends)
      ensures r == (if ends.shm >= 0 then 0 else -1) && (ends.shm >= 0 <==> HasMemory(k))
    {
      ghost var before := os;
      var v, fd := MemfdCreate(os, k.memfd);
      if fd < 0 {
        return -1;
      }
      OpenedShut(before.open, fd, Memory(before.nextId));
      os, ends := v, ends.(shm := fd);
      var t := Ftruncate(os, ends.shm, k.ftruncate);
      if t < 0 {
        os := Close(os, ends.shm);
        ends := ends.(shm := -1);
        return -1;
      }
      var address;
      v, address := Mmap(os, ends.shm, k.mmap);
      os, ends := v, ends.(address := address);
      if ends.address == 0 {
        os := Close(os, ends.shm);
        ends := ends.(shm := -1);
        return -1;
      }
      os := Store(os, ends.address, 0);
      return 0;
    }

    /** The socketpair calls of send_hello_fds: all three pairs, or none left open. */
    method OpenPairs(pairs: nat)
      returns (ok: bool, data: int, fence: int, audio: int, theirData: int, theirFence: int, theirAudio: int)
      modifies this`os
      ensures ok <==> pairs >= 3
      ensures !ok ==> Spent(old(os), os)
      ensures ok ==> NewFds(old(os), data, fence, audio) && NewFds(old(os), theirData, theirFence, theirAudio)
                     && {data, fence, audio} !! {theirData, theirFence, theirAudio}
      ensures ok ==> os == Paired(Paired(Paired(old(os), data, theirData), fence, theirFence), audio, theirAudio)
    {
      data, fence, audio, theirData, theirFence, theirAudio := -1, -1, -1, -1, -1, -1;
      ghost var o0 := os;
      var v;
      v, data, theirData := Socketpair(os, pairs > 0);
      if data < 0 {
        return false, data, fence, audio, theirData, theirFence, theirAudio;
      }
      os := v;
      ghost var o1 := os;
      v, fence, theirFence := Socketpair(os, pairs > 1);
      if fence < 0 {
        PairShut(o0.open, data, Ours(o0.nextId), theirData, Theirs(o0.nextId));
        os := Close(os, data);
        os := Close(os, theirData);
        return false, data, fence, audio, theirData, theirFence, theirAudio;
      }
      os := v;
      v, audio, theirAudio := Socketpair(os, pairs > 2);
      if audio < 0 {
        PairShut(o0.open, data, Ours(o0.nextId), theirData, Theirs(o0.nextId));
        PairShut(o1.open, fence, Ours(o1.nextId), theirFence, Theirs(o1.nextId));
        FourShut(o0.open, o1.open, os.open, data, theirData, fence, theirFence);
        os := Close(os, data);
        os := Close(os, theirData);
        os := Close(os, fence);
        os := Close(os, theirFence);
        return false, data, fence, audio, theirData, theirFence, theirAudio;
      }
      os := v;
      return true, data, fence, audio, theirData, theirFence, theirAudio;
    }

    /**
     send_hello_fds: the producer gets its ends of three new pairs, or the pairs are ours alone, or there are none.
     */
    method SendHelloFds(k: Setup) returns (r: int)
      requires EndsOk(os, ctrlFd, ends) && Sound(os) && ends.data == ends.fence == ends.audio == -1
      modifies this`os, this`ends
      ensures HelloStep(old(os), old(ends), r, os, ends) && (ends.data >= 0 <==> k.pairs >= 3)
      ensures r == 0 <==> k.pairs >= 3 && k.hello && old(ends).bufReady >= 0 && old(ends).shm >= 0
    {
      ghost var before, e := os, ends;
      var ok, data, fence, audio, theirData, theirFence, theirAudio := OpenPairs(k.pairs);
      if !ok {
        return -1;
      }
      ends := ends.(data := data, fence := fence, audio := audio);
      PairsClosed(before, data, fence, audio, theirData, theirFence, theirAudio);
      var v;
      v, r := SendHello(os, ctrlFd, ends.bufReady, theirFence, theirData, ends.shm, theirAudio, k.hello);
      os := v;
      HelloContents(before, e, data, fence, audio, theirData, theirFence, theirAudio);
      os := Close(os, theirData);
      os := Close(os, theirFence);
      os := Close(os, theirAudio);
    }

    /** eventfd, create_shm and send_hello_fds of enter_fallback: whichever fails, nothing is left half open. */
    method OpenEnds(k: Setup)
      requires ends == NO_ENDS && EndsOk(os, ctrlFd, NO_ENDS) && Sound(os)
      modifies this`os, this`ends
      ensures Renewed(old(os), ctrlFd, os, ends, Delivers(k)) && Follows(k, ends)
    {
      ghost var o := os;
      OpeningStart(o, ctrlFd);
      var v, fd := Eventfd(os, k.eventfd);
      if fd >= 0 {
        OpeningBufReady(o, ctrlFd, o, NO_ENDS, fd);
      }
      os, ends := v, ends.(bufReady := fd);
      ghost var os1, e1 := os, ends;
      var shm := CreateShm(k);
      OpeningShm(o, ctrlFd, os1, e1, os, ends);
      if shm == 0 {
        ghost var os2, e2 := os, ends;
        var r := SendHelloFds(k);
        HelloRenews(o, ctrlFd, os2, e2, r, os, ends);
      }
    }

    // ---------- the two transitions ----------

    /** The session's resources, pending frame, descriptors and mapping go. */
    method TearDown()
      requires Closable(os, ctrlFd, ends, books)
      modifies this`os, this`ends, this`fallback, this`bufferPending, this`books
      ensures fallback && !bufferPending && ends == NO_ENDS && os == Dropped(old(os), old(ends))
      ensures EndsOk(os, ctrlFd, NO_ENDS) && Sound(os)
      ensures books == old(books).(resources := books.resources, freed := old(books).given)
      ensures |books.resources| == |old(books).resources| && AllEmpty(books.resources)
    {
      fallback := true;
      FreeResources();
      bufferPending := false;
      DropOk(os, ctrlFd, ends);
      DropSound(os, ends);
      CloseEnds();
    }

    /** All of it torn down, new endpoints in its place, the gate armed, and the callback. */
    method Replace(k: Setup)
      requires Closable(os, ctrlFd, ends, books)
      modifies this
      ensures Renewed(Dropped(old(os), old(ends)), ctrlFd, os, ends, Delivers(k)) && Follows(k, ends)
      ensures Cleared(old(books), books)
      ensures fallback && !bufferPending && missed == 0 && queued == [] && log == []
      ensures storedInfos == old(storedInfos) && storedFds == old(storedFds)
      ensures fallbackCalls == old(fallbackCalls) + 1 && exitCalls == old(exitCalls)
    {
      TearDown();
      OpenEnds(k);
      ArmDataLock();
      fallbackCalls := fallbackCalls + 1;
      missed, queued, log := 0, [], [];
    }

    /** Nothing if the context is in fallback already. */
    method EnterFallback(k: Setup)
      requires !fallback ==> Closable(os, ctrlFd, ends, books)
      modifies this
      ensures HungUp(old(V()), k, V())
    {
      if !fallback {
        Replace(k);
      }
    }

    // ---------- sending ----------

    /** `fd >= 0 ? send_all(fd, ...) : -1`, when `room` bytes can be moved. */
    method SendOn(cells: seq<Cell>, room: nat) returns (ok: bool)
      modifies this`os
      ensures ok <==> ends.data >= 0 && HasData(old(V())) && |cells| <= room
      ensures ends.data >= 0 ==> V() == Wrote(old(V()), UpTo(cells, room))
      ensures ends.data < 0 ==> V() == old(V())
    {
      ok := false;
      if ends.data >= 0 {
        var v;
        v, ok := SendCells(os, ends.data, cells, room);
        os := v;
      }
    }

    /** The same, ending the session when it fails. */
    method SendOrFall(cells: seq<Cell>, room: nat, k: Setup) returns (ok: bool)
      requires !fallback && Closable(os, ctrlFd, ends, books)
      modifies this
      ensures ok <==> HasData(old(V())) && |cells| <= room
      ensures ok ==> V() == Wrote(old(V()), cells)
      ensures !ok ==> Fell(Wrote(old(V()), UpTo(cells, room)), k, V())
    {
      ghost var s := V();
      ok := SendOn(cells, room);
      if !ok {
        WroteClosable(s, UpTo(cells, room));
        EnterFallback(k);
      }
    }

    /** A message that goes out with one send. */
    method SendEvent(cells: seq<Cell>, ghost m: Msg, a: Answers) returns (r: int)
      requires !fallback && Closable(os, ctrlFd, ends, books)
      requires Fits(m) && cells == Head(m) && cells != [] && Tail(m) == []
      modifies this
      ensures Sending(old(V()), m, a, V()) && r == if fallback then -1 else 0
    {
      var ok := SendOrFall(cells, a.first, a.setup);
      assert PartOf(m, a) == UpTo(cells, a.first);
      if !ok {
        return -1;
      }
      assert Bytes(m) == cells;
      log := log + Logged(m);
      return 0;
    }

    /** Two sends, one after the other. */
    method SendTwo(x: seq<Cell>, y: seq<Cell>, a: Answers) returns (ok: bool)
      requires !fallback && Closable(os, ctrlFd, ends, books) && x != []
      modifies this
      ensures ok <==> HasData(old(V())) && |x| <= a.first && |y| <= a.second
      ensures ok ==> V() == Wrote(old(V()), x + y)
      ensures !ok ==> Fell(Wrote(old(V()), InTwo(x, y, a)), a.setup, V())
    {
      ghost var s := V();
      ok := SendOrFall(x, a.first, a.setup);
      if ok {
        WroteClosable(s, x);
        WroteTwice(s, x, UpTo(y, a.second));
        ok := SendOrFall(y, a.second, a.setup);
      }
    }

    /** A message that takes two sends. */
    method SendBoth(x: seq<Cell>, y: seq<Cell>, ghost m: Msg, a: Answers) returns (r: int)
      requires !fallback && Closable(os, ctrlFd, ends, books)
      requires Fits(m) && x == Head(m) && y == Tail(m) && x != []
      modifies this
      ensures Sending(old(V()), m, a, V()) && r == if fallback then -1 else 0
    {
      var ok := SendTwo(x, y, a);
      if !ok {
        return -1;
      }
      log := log + Logged(m);
      return 0;
    }

    /** push_input_event. */
    method PushInputEvent(ev: Event, a: Answers) returns (r: int)
      requires !fallback ==> Closable(os, ctrlFd, ends, books)
      modifies this
      ensures PushedInput(old(V()), Plain(ev), a, V(), r)
    {
      if fallback {
        return 0;
      }
      r := SendEvent(EventCells(ev, []), Plain(ev), a);
    }

    /** push_input_event_with_length. */
    method PushInputEventWithLength(ev: Event, payload: seq<byte>, a: Answers) returns (r: int)
      requires !fallback ==> Closable(os, ctrlFd, ends, books)
      modifies this
      ensures PushedInput(old(V()), WithPayload(ev, payload), a, V(), r)
    {
      if fallback {
        return 0;
      }
      if !a.memory {
        return -1;
      }
      r := SendEvent(EventCells(ev, payload), WithPayload(ev, payload), a);
    }

    /** push_input_event_with_fds: the event, and its descriptors if there are any. */
    method PushInputEventWithFds(ev: Event, fds: seq<int>, a: Answers)
      requires !fallback ==> Closable(os, ctrlFd, ends, books)
      modifies this
      ensures exists r :: PushedInput(old(V()), FdsMsg(ev, fds), a, V(), r)
    {
      ghost var s := V();
      var r := 0;
      if !fallback {
        r := SendFds(ev, fds, a);
      }
      assert PushedInput(s, FdsMsg(ev, fds), a, V(), r);
    }

    method SendFds(ev: Event, fds: seq<int>, a: Answers) returns (r: int)
      requires !fallback && Closable(os, ctrlFd, ends, books)
      modifies this
      ensures Sending(old(V()), FdsMsg(ev, fds), a, V()) && r == if fallback then -1 else 0
    {
      if fds == [] {
        r := SendEvent(EventCells(ev, []), Plain(ev), a);
      } else {
        r := SendBoth(EventCells(ev, []), Put(EncodeHeader(FDS_HEADER), fds), Resource(ev, fds), a);
      }
    }

    /** push_dmabufs_internal. */
    method PushDmabufsInternal(a: Answers) returns (r: int)
      requires !fallback && Closable(os, ctrlFd, ends, books)
      requires |storedInfos| == |storedFds| <= MAX_BUFS
      modifies this
      ensures Pushed(old(V()), a, V()) && r == (if fallback then -1 else 0)
    {
      if storedFds == [] {
        return 0;
      }
      r := SendBoth(Put(EncodeHeader(BufsHeader(|storedInfos|)), storedFds), Put(EncodeInfos(storedInfos), []),
                    BufsReady(storedInfos, storedFds), a);
    }

    // ---------- leaving fallback, tables and frames ----------

    /** try_exit_fallback: the next control header, if there is one; FDS_READY starts the session. */
    method TryExitFallback(a: Answers) returns (won: bool)
      requires Closable(os, ctrlFd, ends, books)
      requires |storedInfos| == |storedFds| <= MAX_BUFS
      modifies this
      ensures if old(fallback) then TriedExit(old(V()), a, V()) else V() == old(V())
      ensures won <==> old(fallback) && Leaves(old(V()), a)
    {
      if !fallback {
        return false;
      }
      var v, got, msg := RecvCtrl(os, a.polled);
      os := v;
      if !got || !msg.Ready? {
        return false;
      }
      ExitFallback(a);
      return true;
    }

    /** The flip, the table, and the callback. */
    method ExitFallback(a: Answers)
      requires fallback && Closable(os, ctrlFd, ends, books)
      requires |storedInfos| == |storedFds| <= MAX_BUFS
      modifies this
      ensures exitCalls == old(exitCalls) + 1
      ensures Pushed(old(V()).(fallback := false, books := Rearmed(old(books))), a, V().(exitCalls := old(exitCalls)))
    {
      fallback := false;
      ArmDataLock();
      ghost var u := V();
      var r := PushDmabufsInternal(a);
      PushedCalls(u, a, V());
      exitCalls := exitCalls + 1;
    }

    /** push_dmabufs: at most MAX_BUFS are stored; a session does not outlive it. */
    method PushDmabufs(fds: seq<int>, infos: seq<BufInfo>, a: Answers) returns (r: int)
      requires Closable(os, ctrlFd, ends, books) && |infos| == |fds|
      modifies this
      ensures PushedTable(old(V()), infos, fds, a, V(), r)
    {
      ghost var s := V();
      var count := |fds|;
      if count > MAX_BUFS {
        count := MAX_BUFS;
      }
      storedFds := fds[..count];
      storedInfos := infos[..count];
      assert V() == s.(infos := infos[..Clamped(|infos|)], fds := fds[..Clamped(|fds|)]);
      if fallback {
        return 0;
      }
      r := PushAndLeave(a);
    }

    method PushAndLeave(a: Answers) returns (r: int)
      requires !fallback && Closable(os, ctrlFd, ends, books)
      requires |storedInfos| == |storedFds| <= MAX_BUFS
      modifies this
      ensures Tabling(old(V()), a, V(), r)
    {
      ghost var s := V();
      r := PushDmabufsInternal(a);
      ghost var v := V();
      PushedClosable(s, a, v);
      EnterFallback(a.setup);
      assert TableSent(s, a, v, V(), r);
    }

    /** select_dmabuf. */
    method SelectDmabuf(idx: int, a: Answers) returns (r: int)
      requires Good(V())
      modifies this
      ensures Selecting(old(V()), idx, a, V(), r)
    {
      if fallback {
        var won := TryExitFallback(a);
        ghost var u := V();
        TriedExitGood(old(V()), a, u);
        GoodUsable(u);
        r := Choose(idx);
        assert TriedExit(old(V()), a, u) && Chose(u, idx, V(), r);
      } else {
        GoodUsable(V());
        r := Choose(idx);
      }
    }

    /** select_dmabuf once fallback has been tried. */
    method Choose(idx: int) returns (r: int)
      requires Usable(V())
      modifies this`os, this`bufferPending, this`missed
      ensures Chose(old(V()), idx, V(), r)
    {
      if fallback {
        return 0;
      }
      if idx < 0 || idx >= |storedFds| {
        return -1;
      }
      os := Store(os, ends.address, idx);
      os := EventfdWrite(os, ends.bufReady);
      missed := if bufferPending then missed + 1 else missed;
      bufferPending := true;
      return 0;
    }

    /** refresh_done. */
    method RefreshDone(a: Answers) returns (r: int)
      requires bufferPending ==> !fallback && Closable(os, ctrlFd, ends, books)
      modifies this
      ensures Refreshed(old(V()), a, V(), r)
    {
      if !bufferPending {
        return -1;
      }
      var v, msg := RecvFence(os, ends.fence, a.report);
      if msg.Late? || msg.Closed? {
        GiveUp(msg, a.setup);
        return -1;
      }
      os := v;
      bufferPending := false;
      if msg.Failed? {
        missed := missed + 1;
        return -1;
      }
      queued := queued + [msg.fence];
      return msg.fence;
    }

    /** No message in time, or none any more. */
    method GiveUp(msg: FenceMsg, k: Setup)
      requires !fallback && Closable(os, ctrlFd, ends, books)
      modifies this
      ensures Fell(old(V()), k, V())
    {
      if msg.Closed? {
        bufferPending := false;
      }
      EnterFallback(k);
    }

    // ---------- resource requests ----------

    /** The loop of handle_resource_request over the services. */
    method FindService(service: u32) returns (i: nat)
      ensures i == ServiceIndex(books.services, service)
    {
      i := 0;
      while i < |books.services| && books.services[i] != service
        invariant i <= |books.services|
        invariant ServiceIndex(books.services, service) == i + ServiceIndex(books.services[i..], service)
      {
        assert books.services[i..][1..] == books.services[i + 1..];
        i := i + 1;
      }
    }

    /** A new allocation for slot i; the previous one, if any, is freed. */
    method Allot(i: nat, kind: int, fds: seq<int>) returns (res: Resources)
      requires i < |books.resources| && Booked(books)
      modifies this`books
      ensures res == Resources(old(books).allocations, kind, fds) && books == Allotted(old(books), i, res)
    {
      ghost var b := books;
      res := AllocateResource(kind, fds);
      if books.resources[i].kind != UNALLOCATED {
        MayFree(b.resources, b.given, b.freed, i);
        FreeResource(books.resources[i]);
      }
      books := books.(resources := books.resources[i := res]);
    }

    /** The update of the gate under data_lock. */
    method Record(i: nat)
      requires i < |books.services|
      modifies this`books
      ensures books == Recorded(old(books), i)
    {
      if |books.services| > 0 && |books.services| < 32 {
        books := books.(gate := WriteGate.Record(|books.services|, books.gate, i), recorded := books.recorded + {i});
      }
    }

    /** The reply, and its record if the session is still there. */
    method ReplyTo(i: nat, ev: Event, fds: seq<int>, a: Answers)
      requires !fallback ==> Closable(os, ctrlFd, ends, books)
      requires i < |books.services| && WellFormed(FdsMsg(ev, fds)) && IsReply(FdsMsg(ev, fds), books.services[i])
      modifies this
      ensures Replying(old(V()), i, FdsMsg(ev, fds), a, V())
    {
      ghost var s, m := V(), FdsMsg(ev, fds);
      PushInputEventWithFds(ev, fds, a);
      if !fallback {
        Record(i);
        assert SentOne(s, m, V().(books := s.books));
      }
    }

    /**
     handle_resource_request: `kind` and `fds` are what the service's allocator gives; `w2` and `w3` are the words of
     the reply that the source leaves as they are.
     */
    method HandleResourceRequest(service: u32, kind: int, fds: seq<int>, w2: u32, w3: u32, a: Answers)
      requires Booked(books) && (!fallback ==> Closable(os, ctrlFd, ends, books)) && |fds| < 0x8000_0000
      modifies this
      ensures Requested(old(V()), service, Resources(old(books).allocations, kind, fds), Reply(service, fds, w2, w3), a,
                        V())
    {
      ghost var s := V();
      var i := FindService(service);
      if i == |books.services| {
        return;
      }
      var res := Allot(i, kind, fds);
      AllottedBooked(s.books, i, res);
      var m := Reply(service, fds, w2, w3);
      ReplyTo(i, m.ev, fds, a);
    }

    // ---------- the beginning and the end ----------

    /** Every descriptor the context has, the control connection's too, and the mapping. */
    method CloseAll()
      requires EndsOk(os, ctrlFd, ends)
      modifies this`os, this`ends
      ensures ends == NO_ENDS && os.open == OthersFds(old(os), ctrlFd, old(ends))
      ensures os.maps == OthersMaps(old(os), old(ends))
    {
      DropKeeps(os, ctrlFd, ends);
      CloseEnds();
      CloseField(ctrlFd);
    }

    /** connect_to_deamon_with_fd: a context in fallback that has said hello, or nothing of it left. */
    method Connect(k: Setup) returns (r: int)
      requires V() == NewCtx(os, ctrlFd) && (ctrlFd >= 0 ==> NewConnection(os, ctrlFd))
      modifies this`os, this`ends
      ensures r == if ctrlFd >= 0 && Delivers(k) then 0 else -1
      ensures r == 0 ==> Begun(old(os), ctrlFd, V())
      ensures r == -1 ==> ends == NO_ENDS && os.open == old(os).open - Used(ctrlFd) && os.maps == old(os).maps
    {
      ghost var o := os;
      if ctrlFd < 0 {
        return -1;
      }
      OpeningStart(o, ctrlFd);
      assert OthersFds(o, ctrlFd, NO_ENDS) == o.open - Used(ctrlFd);
      r := OpenOrGiveUp(k);
    }

    /** The three steps of the connection, in order, each given up for good when it fails. */
    method OpenOrGiveUp(k: Setup) returns (r: int)
      requires ends == NO_ENDS && Opening(os, ctrlFd, os, ends)
      modifies this`os, this`ends
      ensures r == if Delivers(k) then 0 else -1
      ensures r == 0 ==> Renewed(old(os), ctrlFd, os, ends, true)
      ensures r == -1 ==> ends == NO_ENDS && os.open == OthersFds(old(os), ctrlFd, NO_ENDS) && os.maps == old(os).maps
    {
      ghost var o := os;
      var v, fd := Eventfd(os, k.eventfd);
      if fd < 0 {
        CloseAll();
        return -1;
      }
      OpeningBufReady(o, ctrlFd, o, NO_ENDS, fd);
      os, ends := v, ends.(bufReady := fd);
      ghost var os1, e1 := os, ends;
      r := CreateShm(k);
      OpeningShm(o, ctrlFd, os1, e1, os, ends);
      if r < 0 {
        CloseAll();
        return -1;
      }
      ghost var os2, e2 := os, ends;
      r := SendHelloFds(k);
      HelloRenews(o, ctrlFd, os2, e2, r, os, ends);
      if r < 0 {
        CloseAll();
        return -1;
      }
    }

    /** disconnect: nothing of the context stays open, mapped or allocated. */
    method Disconnect()
      requires Good(V())
      modifies this`os, this`ends, this`books
      ensures ends == NO_ENDS && os.open == others && os.maps == otherMaps
      ensures AllEmpty(books.resources) && books.freed == books.given == old(books).given
    {
      CloseAll();
      FreeResources();
    }
  }
}
