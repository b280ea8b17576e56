/** The resources a display context holds for its services, against everything its allocators ever handed out. */
module Ledger {
  import opened Wire
  import opened InputFraming

  const UNALLOCATED := -1

  /** struct resources as an allocator returned it; `id` tells allocations apart. */
  datatype Resources = Resources(id: nat, kind: int, fds: seq<int>)

  const NO_RESOURCES := Resources(0, UNALLOCATED, [])

  predicate Held(res: seq<Resources>, i: int) {
    0 <= i < |res| && res[i].kind != UNALLOCATED
  }

  /** The allocations in the slots. */
  ghost function Live(res: seq<Resources>): set<nat> {
    set i | 0 <= i < |res| && Held(res, i) :: res[i].id
  }

  /** Every allocation is freed or is the single entry of its slot, never both. */
  ghost predicate LedgerOk(res: seq<Resources>, given: set<nat>, freed: set<nat>) {
    && (forall i, j | 0 <= i < j < |res| && Held(res, i) && Held(res, j) :: res[i].id != res[j].id)
    && Live(res) !! freed
    && given == Live(res) + freed
  }

  predicate AllEmpty(res: seq<Resources>) {
    forall i | 0 <= i < |res| :: res[i].kind == UNALLOCATED
  }

  function EmptySlots(n: nat): (res: seq<Resources>)
    ensures |res| == n && AllEmpty(res)
  {
    seq(n, _ => NO_RESOURCES)
  }

  lemma EmptyFreed(res: seq<Resources>, given: set<nat>, freed: set<nat>)
    requires LedgerOk(res, given, freed) && AllEmpty(res)
    ensures freed == given
  {
    assert Live(res) == {};
  }

  /** Empty slots in place of empty slots. */
  lemma EmptyReplaced(res: seq<Resources>, after: seq<Resources>, given: set<nat>, freed: set<nat>)
    requires LedgerOk(res, given, freed) && AllEmpty(res) && AllEmpty(after)
    ensures LedgerOk(after, given, freed)
  {
    assert Live(res) == {} && Live(after) == {};
  }

  /** What is in a slot may be freed: it was allocated, and not freed yet. */
  lemma MayFree(res: seq<Resources>, given: set<nat>, freed: set<nat>, i: nat)
    requires LedgerOk(res, given, freed) && Held(res, i)
    ensures res[i].id in given && res[i].id !in freed
  {
    assert res[i].id in Live(res);
  }

  /** Slot i gives up its allocation. */
  lemma SlotFreed(res: seq<Resources>, given: set<nat>, freed: set<nat>, i: nat)
    requires LedgerOk(res, given, freed) && Held(res, i)
    ensures LedgerOk(res[i := NO_RESOURCES], given, freed + {res[i].id})
  {
    var after := res[i := NO_RESOURCES];
    assert Live(after) == Live(res) - {res[i].id} by {
      forall id | id in Live(res) && id != res[i].id
        ensures id in Live(after)
      {
        var j :| 0 <= j < |res| && Held(res, j) && res[j].id == id;
        assert Held(after, j);
      }
      forall id | id in Live(after)
        ensures id in Live(res) && id != res[i].id
      {
        var j :| 0 <= j < |after| && Held(after, j) && after[j].id == id;
        assert Held(res, j) && j != i;
      }
    }
    assert res[i].id in Live(res);
  }

  /** What the allocator hands out: with type -1, nothing. */
  function HandedOut(r: Resources): set<nat> {
    if r.kind != UNALLOCATED then {r.id} else {}
  }

  /** An empty slot takes a new allocation. */
  lemma SlotFilled(res: seq<Resources>, given: set<nat>, freed: set<nat>, i: nat, r: Resources)
    requires LedgerOk(res, given, freed) && i < |res| && !Held(res, i) && r.id !in given
    ensures LedgerOk(res[i := r], given + HandedOut(r), freed)
  {
    var after := res[i := r];
    assert forall j | 0 <= j < |res| && Held(res, j) :: res[j].id in Live(res);
    assert Live(after) == Live(res) + HandedOut(r) by {
      forall id | id in Live(res)
        ensures id in Live(after)
      {
        var j :| 0 <= j < |res| && Held(res, j) && res[j].id == id;
        assert Held(after, j);
      }
      assert r.kind != UNALLOCATED ==> Held(after, i);
    }
  }

  /** handle_resource_request on slot i: the previous allocation, if any, makes room for the new one. */
  lemma SlotReplaced(res: seq<Resources>, given: set<nat>, freed: set<nat>, i: nat, r: Resources)
    requires LedgerOk(res, given, freed) && i < |res| && r.id !in given
    ensures LedgerOk(res[i := r], given + HandedOut(r), freed + HandedOut(res[i]))
  {
    if Held(res, i) {
      SlotFreed(res, given, freed, i);
      SlotFilled(res[i := NO_RESOURCES], given, freed + {res[i].id}, i, r);
      assert res[i := NO_RESOURCES][i := r] == res[i := r];
    } else {
      SlotFilled(res, given, freed, i, r);
    }
  }

  // ---------- replies ----------

  /** A reply to a request for this service: its RESOURCE event, with its descriptors if there are any. */
  predicate IsReply(m: Msg, service: u32) {
    (m.Plain? || m.Resource?) && m.ev.kind == INPUT_TYPE_RESOURCE && m.ev.w0 == service
  }

  function Reply(service: u32, fds: seq<int>, w2: u32, w3: u32): (m: Msg)
    requires |fds| < 0x8000_0000
    ensures WellFormed(m) && IsReply(m, service)
  {
    var ev := Event(INPUT_TYPE_RESOURCE, service, |fds|, w2, w3);
    if |fds| > 0 then Resource(ev, fds) else Plain(ev)
  }

  /** Every recorded service has been sent a reply in this session. */
  ghost predicate Replied(log: seq<Msg>, services: seq<u32>, recorded: set<nat>) {
    forall j | j in recorded :: j < |services| && exists k :: 0 <= k < |log| && IsReply(log[k], services[j])
  }

  lemma RepliedMore(log: seq<Msg>, services: seq<u32>, recorded: set<nat>, m: Msg)
    requires Replied(log, services, recorded)
    ensures Replied(log + [m], services, recorded)
  {
    forall j | j in recorded
      ensures exists k :: 0 <= k < |log + [m]| && IsReply((log + [m])[k], services[j])
    {
      var k :| 0 <= k < |log| && IsReply(log[k], services[j]);
      assert IsReply((log + [m])[k], services[j]);
    }
  }

  lemma RepliedNow(log: seq<Msg>, services: seq<u32>, recorded: set<nat>, m: Msg, i: nat)
    requires Replied(log, services, recorded) && i < |services| && IsReply(m, services[i])
    ensures Replied(log + [m], services, recorded + {i})
  {
    RepliedMore(log, services, recorded, m);
    assert IsReply((log + [m])[|log|], services[i]);
  }
}
