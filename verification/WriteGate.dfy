/** The write gate's 32-bit mask of services, against the set of service indices it stands for. */
module WriteGate {

  /** `1u << i`, as repeated doubling. */
  function Bit(i: nat): bv32
    requires i < 32
  {
    if i == 0 then 1 else Bit(i - 1) << 1
  }

  /** `(1u << n) - 1u`. */
  function AllBits(n: nat): bv32
    requires n < 32
  {
    Bit(n) - 1
  }

  predicate Overlaps(mask: bv32, b: bv32) {
    mask & b != 0
  }

  /** Every bit of `b` is set in `mask`. */
  predicate Includes(mask: bv32, b: bv32) {
    mask & b == b
  }

  predicate Has(mask: bv32, i: nat)
    requires i < 32
  {
    Overlaps(mask, Bit(i))
  }

  lemma DoubledOne(b: bv32)
    requires b & (b - 1) == 0
    ensures (b << 1) & ((b << 1) - 1) == 0
  {
  }

  lemma {:induction false} BitOne(i: nat)
    requires i < 32
    ensures Bit(i) & (Bit(i) - 1) == 0
  {
    if i > 0 {
      BitOne(i - 1);
      DoubledOne(Bit(i - 1));
    }
  }

  lemma {:induction false} ZeroStays(i: nat, j: nat)
    requires i <= j < 32 && Bit(i) == 0
    ensures Bit(j) == 0
  {
    if i < j {
      ZeroStays(i, j - 1);
    }
  }

  lemma TopBit()
    ensures Bit(31) == 0x8000_0000
  {
    assert Bit(8) == 0x100;
    assert Bit(16) == 0x1_0000;
    assert Bit(24) == 0x100_0000;
  }

  /** One bit is set, and no shift below 32 loses it. */
  lemma BitSet(i: nat)
    requires i < 32
    ensures Bit(i) != 0 && Bit(i) & (Bit(i) - 1) == 0
  {
    BitOne(i);
    if Bit(i) == 0 {
      ZeroStays(i, 31);
      TopBit();
    }
  }

  lemma OrIncludes(mask: bv32, b: bv32)
    ensures Includes(mask | b, b)
  {
  }

  lemma OrKeeps(mask: bv32, all: bv32, b: bv32)
    ensures Includes(mask, all) ==> Includes(mask | b, all)
  {
  }

  lemma OneMore(b: bv32)
    requires b & (b - 1) == 0
    ensures (b << 1) - 1 == (b - 1) | b
  {
  }

  lemma AllBitsNext(n: nat)
    requires n < 31
    ensures AllBits(n + 1) == AllBits(n) | Bit(n)
  {
    BitSet(n);
    OneMore(Bit(n));
  }

  /** `(1u << j) - 1u` has every lower bit. */
  lemma {:induction false} LowerBits(i: nat, j: nat)
    requires i < j < 32
    ensures Includes(AllBits(j), Bit(i))
  {
    AllBitsNext(j - 1);
    var low, b := AllBits(j - 1), Bit(j - 1);
    if i == j - 1 {
      OrIncludes(low, b);
    } else {
      LowerBits(i, j - 1);
      OrKeeps(low, Bit(i), b);
    }
  }

  lemma Apart(low: bv32, b: bv32, c: bv32)
    requires Includes(low, b) && c & low == 0
    ensures b & c == 0 && c & b == 0
  {
  }

  lemma BitsDistinct(i: nat, j: nat)
    requires i < 32 && j < 32 && i != j
    ensures Bit(i) & Bit(j) == 0
  {
    if i < j {
      LowerBits(i, j);
      BitOne(j);
      Apart(AllBits(j), Bit(i), Bit(j));
    } else {
      LowerBits(j, i);
      BitOne(i);
      Apart(AllBits(i), Bit(j), Bit(i));
    }
  }

  lemma OrOther(mask: bv32, b: bv32, c: bv32)
    requires b & c == 0
    ensures Overlaps(mask | b, c) == Overlaps(mask, c)
  {
  }

  lemma OrOwn(mask: bv32, b: bv32)
    requires b != 0
    ensures Overlaps(mask | b, b)
  {
  }

  lemma RecordKeeps(mask: bv32, i: nat, j: nat)
    requires i < 32 && j < 32 && i != j
    ensures Overlaps(mask | Bit(i), Bit(j)) == Overlaps(mask, Bit(j))
  {
    BitsDistinct(i, j);
    BitSet(i);
    OrOther(mask, Bit(i), Bit(j));
  }

  lemma RecordSets(mask: bv32, i: nat)
    requires i < 32
    ensures Has(mask | Bit(i), i)
  {
    BitSet(i);
    OrOwn(mask, Bit(i));
  }

  /** `mask |= 1u << i` adds exactly index i. */
  lemma RecordAdds(mask: bv32, i: nat, j: nat)
    requires i < 32 && j < 32
    ensures Has(mask | Bit(i), j) <==> Has(mask, j) || i == j
  {
    if i == j {
      RecordSets(mask, i);
    } else {
      RecordKeeps(mask, i, j);
    }
  }

  lemma IncludesEach(mask: bv32, b: bv32, c: bv32)
    requires Includes(mask, b | c)
    ensures Includes(mask, b) && Includes(mask, c)
  {
  }

  lemma IncludesBoth(mask: bv32, b: bv32, c: bv32)
    requires Includes(mask, b) && Includes(mask, c)
    ensures Includes(mask, b | c)
  {
  }

  lemma IncludesBit(mask: bv32, b: bv32)
    requires b != 0 && b & (b - 1) == 0
    ensures Includes(mask, b) == Overlaps(mask, b)
  {
  }

  lemma IncludesStep(mask: bv32, all: bv32, b: bv32)
    requires b != 0 && b & (b - 1) == 0
    ensures Includes(mask, all | b) == (Includes(mask, all) && Overlaps(mask, b))
  {
    IncludesBit(mask, b);
    if Includes(mask, all | b) {
      IncludesEach(mask, all, b);
    }
    if Includes(mask, all) && Includes(mask, b) {
      IncludesBoth(mask, all, b);
    }
  }

  /** The test against n + 1 bits is the test against n bits and the one for index n. */
  lemma IncludesNext(mask: bv32, n: nat)
    requires n < 31
    ensures Includes(mask, AllBits(n + 1)) == (Includes(mask, AllBits(n)) && Has(mask, n))
  {
    AllBitsNext(n);
    BitSet(n);
    IncludesStep(mask, AllBits(n), Bit(n));
  }

  /** The all-sent test holds exactly when every index below n is in the mask. */
  lemma {:induction false} AllSentTest(mask: bv32, n: nat)
    requires n < 32
    ensures Includes(mask, AllBits(n)) <==> forall j: nat | j < n :: Has(mask, j)
  {
    if n == 0 {
      ZeroBits(mask);
    } else {
      AllSentTest(mask, n - 1);
      IncludesNext(mask, n - 1);
    }
  }

  lemma ZeroBits(mask: bv32)
    ensures Includes(mask, AllBits(0))
  {
  }

  /** The mask stands for the set of recorded services. */
  ghost predicate Represents(mask: bv32, recorded: set<nat>) {
    forall j: nat | j < 32 :: Has(mask, j) <==> j in recorded
  }

  lemma EmptyMask()
    ensures Represents(0, {})
  {
  }

  lemma RecordRepresents(mask: bv32, recorded: set<nat>, i: nat)
    requires i < 32 && Represents(mask, recorded)
    ensures Represents(mask | Bit(i), recorded + {i})
  {
    forall j: nat | j < 32
      ensures Has(mask | Bit(i), j) <==> j in recorded + {i}
    {
      RecordAdds(mask, i, j);
    }
  }

  /** Every service has been recorded. */
  ghost predicate AllRecorded(services: nat, recorded: set<nat>) {
    forall j: nat | j < services :: j in recorded
  }

  /** When data_fd writers have to take data_lock, by the set. */
  ghost predicate Locked(services: nat, recorded: set<nat>) {
    services >= 32 || (services > 0 && !AllRecorded(services, recorded))
  }

  /** services_sent_mask and data_needs_lock. */
  datatype Gate = Gate(mask: bv32, needsLock: bool)

  /** arm_data_lock. */
  function Arm(services: nat): Gate { Gate(0, services > 0) }

  /** The test of the update under data_lock, on the new mask. */
  function AfterTest(services: nat, mask: bv32, needsLock: bool): Gate
    requires services < 32
  {
    if Includes(mask, AllBits(services)) then Gate(mask, false) else Gate(mask, needsLock)
  }

  /** The update under data_lock once service i has been answered. */
  function Record(services: nat, g: Gate, i: nat): Gate
    requires i < services < 32
  {
    AfterTest(services, g.mask | Bit(i), g.needsLock)
  }

  /** The gate agrees with the set of services recorded since it was armed. */
  ghost predicate Stands(services: nat, g: Gate, recorded: set<nat>) {
    Represents(g.mask, recorded) && g.needsLock == Locked(services, recorded)
  }

  /** The 32-bit test asks whether every service has been recorded. */
  lemma GateRefinesSet(services: nat, mask: bv32, recorded: set<nat>)
    requires services < 32 && Represents(mask, recorded)
    ensures Includes(mask, AllBits(services)) <==> AllRecorded(services, recorded)
  {
    AllSentTest(mask, services);
  }

  lemma AfterTestStands(services: nat, mask: bv32, needsLock: bool, recorded: set<nat>, i: nat)
    requires i < services < 32 && Represents(mask, recorded + {i}) && needsLock == Locked(services, recorded)
    ensures Stands(services, AfterTest(services, mask, needsLock), recorded + {i})
  {
    GateRefinesSet(services, mask, recorded + {i});
    assert AllRecorded(services, recorded) ==> AllRecorded(services, recorded + {i});
  }

  /** The update keeps the gate closed exactly as long as a service has not been recorded. */
  lemma RecordStands(services: nat, g: Gate, recorded: set<nat>, i: nat)
    requires Stands(services, g, recorded) && i < services < 32
    ensures Stands(services, Record(services, g, i), recorded + {i})
  {
    RecordRepresents(g.mask, recorded, i);
    AfterTestStands(services, g.mask | Bit(i), g.needsLock, recorded, i);
  }

  /** Arming forgets every record: the gate is closed unless there is no service. */
  lemma ArmStands(services: nat)
    ensures Stands(services, Arm(services), {})
  {
    EmptyMask();
    var none: set<nat> := {};
    if services > 0 {
      assert 0 !in none;
    }
  }
}
