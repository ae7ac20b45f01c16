/**
 * Size classes of data blocks: how a request is rounded, which bucket a freed
 * block goes to, and which buckets a request is served from.
 */
module SizeClass {
  import opened Layout

  function Pow2(n: nat): (r: nat)
    ensures r >= 1
  {
    if n == 0 then 1 else 2 * Pow2(n - 1)
  }

  /** __builtin_ctzl: the number of trailing zero bits. */
  function Ctz(x: nat): nat
    requires x > 0
  {
    if x % 2 == 1 then 0 else 1 + Ctz(x / 2)
  }

  /** LONG_BIT - __builtin_clzl: the number of significant bits. */
  function BitLength(x: nat): nat {
    if x == 0 then 0 else 1 + BitLength(x / 2)
  }

  /** __builtin_popcountl: the number of one bits. */
  function PopCount(x: nat): nat {
    if x == 0 then 0 else x % 2 + PopCount(x / 2)
  }

  /**
   * `1 << n` on a 32-bit int: bit 31 is the sign, and the count of the shift is
   * taken modulo 32, as on x86.
   */
  function IntShift(n: nat): int {
    if n % 32 == 31 then -0x8000_0000 else Pow2(n % 32)
  }

  /** The rounding in alloc_data_slots. */
  function RoundUp(slots: nat): int {
    if PopCount(slots) > 1 then IntShift(BitLength(slots)) else slots
  }

  lemma Pow2Values()
    ensures Pow2(2) == 4 && Pow2(30) == 0x4000_0000 && Pow2(31) == 0x8000_0000
  {
    assert Pow2(4) == 16;
    assert Pow2(8) == 256;
    assert Pow2(12) == 0x1000;
    assert Pow2(16) == 0x1_0000;
    assert Pow2(20) == 0x10_0000;
    assert Pow2(24) == 0x100_0000;
    assert Pow2(28) == 0x1000_0000;
  }

  lemma {:induction false} Pow2Monotone(m: nat, n: nat)
    requires m <= n
    ensures Pow2(m) <= Pow2(n)
    ensures m < n ==> 2 * Pow2(m) <= Pow2(n)
  {
    if m < n {
      Pow2Monotone(m, n - 1);
    }
  }

  lemma {:induction false} BitLengthSpan(x: nat)
    ensures x < Pow2(BitLength(x))
    ensures x > 0 ==> BitLength(x) > 0 && Pow2(BitLength(x) - 1) <= x
  {
    if x > 0 {
      BitLengthSpan(x / 2);
    }
  }

  lemma {:induction false} PopCountPositive(x: nat)
    ensures PopCount(x) == 0 <==> x == 0
  {
    if x > 0 {
      PopCountPositive(x / 2);
    }
  }

  /** Exactly the powers of two have one bit set. */
  lemma {:induction false} OneBit(x: nat)
    ensures PopCount(x) == 1 <==> x > 0 && x == Pow2(BitLength(x) - 1)
  {
    if x > 0 {
      if x % 2 == 1 {
        PopCountPositive(x / 2);
        BitLengthSpan(x / 2);
      } else {
        OneBit(x / 2);
      }
    }
  }

  lemma {:induction false} CtzPow2(n: nat)
    ensures Ctz(Pow2(n)) == n
  {
    if n > 0 {
      CtzPow2(n - 1);
    }
  }

  lemma IntShiftSmall(n: nat)
    ensures n <= 30 ==> IntShift(n) == Pow2(n)
    ensures n >= 31 ==> IntShift(n) < Pow2(n - 1)
  {
    if n >= 31 && n % 32 != 31 {
      hide Pow2;
      Pow2Monotone(n % 32, 30);
      Pow2Monotone(31, n - 1);
      Pow2Values();
    }
  }

  /** A request that is not a power of two is shifted to the next one, if that fits into an int. */
  lemma RoundUpCases(slots: nat)
    requires slots > 0
    ensures var len := BitLength(slots);
            && len > 0 && Pow2(len - 1) <= slots < Pow2(len)
            && RoundUp(slots) == if slots == Pow2(len - 1) then slots else IntShift(len)
  {
    BitLengthSpan(slots);
    OneBit(slots);
    PopCountPositive(slots);
  }

  ghost predicate IsPow2(x: int) {
    exists n :: 0 <= n && x == Pow2(n)
  }

  lemma {:induction false} PowersBetween(n: nat, m: nat)
    requires Pow2(m) <= Pow2(n) < Pow2(m + 1)
    ensures n == m
  {
    if n < m {
      Pow2Monotone(n, m);
    } else if n > m {
      Pow2Monotone(m + 1, n);
    }
  }

  /**
   * The rounding yields at least the request exactly for requests of at most
   * 2^30 slots and for powers of two: above that the shift overflows its int.
   * Where it does, it is the least power of two that is at least the request,
   * and less than twice it.
   */
  lemma RoundUpIsLeastPower(slots: nat)
    requires slots > 0
    ensures slots <= 0x4000_0000 || IsPow2(slots) <==> RoundUp(slots) >= slots
    ensures RoundUp(slots) >= slots ==> IsPow2(RoundUp(slots)) && RoundUp(slots) < 2 * slots
    ensures RoundUp(slots) >= slots ==> forall n: nat :: Pow2(n) >= slots ==> Pow2(n) >= RoundUp(slots)
  {
    var len := BitLength(slots);
    hide PopCount, BitLength, RoundUp, IntShift;
    RoundUpCases(slots);
    IntShiftSmall(len);
    Pow2Values();
    if IsPow2(slots) {
      var n :| 0 <= n && slots == Pow2(n);
      PowersBetween(n, len - 1);
    } else if len <= 30 {
      Pow2Monotone(len, 30);
      LeastPower(slots, len);
    } else {
      Pow2Monotone(30, len - 1);
      assert slots != Pow2(30);
    }
  }

  lemma LeastPower(slots: nat, len: nat)
    requires len > 0 && Pow2(len - 1) < slots < Pow2(len)
    ensures forall n: nat :: Pow2(n) >= slots ==> Pow2(n) >= Pow2(len)
  {
    forall n: nat | Pow2(n) >= slots ensures Pow2(n) >= Pow2(len) {
      if n < len {
        Pow2Monotone(n, len - 1);
      } else {
        Pow2Monotone(len, n);
      }
    }
  }

  // ------------------------------------------------------------ buckets

  /** The buckets that requests of at most 2^30 slots use. */
  const CLASSES := 29

  /** Capacity of the blocks in bucket i. */
  function Capacity(i: nat): nat {
    Pow2(i + 2)
  }

  /** The bucket free_data_slots picks from a block's header. */
  function BucketOf(count: nat): int
    requires count > 0
  {
    Ctz(count) - 2
  }

  /** The slot of bucket i in the header of the object. */
  function BucketSlot(i: int): int {
    MEM_BKT_START + 2 * i
  }

  /** The header lookup_freed_data writes into a block it took from the bucket at `slot`: an int again. */
  function RestoredHeader(slot: int): int
    requires MEM_BKT_START <= slot
  {
    IntShift((slot - MEM_BKT_START) / 2 + 2)
  }

  /** The order in which find_first_fit tries the buckets: three of them from the request's own on. */
  function FitCandidates(count: int): seq<nat> {
    if count < 4 || Ctz(count) < 2 then [] else
    var i := Ctz(count) - 2;
    seq(if i + 3 <= MEM_SLOTS then 3 else if i <= MEM_SLOTS then MEM_SLOTS - i else 0, k requires k >= 0 => i + k)
  }

  /**
   * Freeing a block and taking it back restores the header that the link of the
   * free stack overwrote, exactly for blocks of at most 2^30 slots.
   */
  lemma HeaderRestored(i: nat)
    requires i < MEM_SLOTS
    ensures BucketOf(Capacity(i)) == i
    ensures RestoredHeader(BucketSlot(BucketOf(Capacity(i)))) == Capacity(i) <==> i < CLASSES
    ensures MEM_BKT_START <= BucketSlot(i) && BucketSlot(i) + 1 < BASE
  {
    hide Pow2, Ctz, IntShift;
    CtzPow2(i + 2);
    IntShiftSmall(i + 2);
    Pow2Monotone(i + 1, i + 2);
  }

  /** The class of a rounded request. */
  lemma RoundedExponent(slots: nat) returns (n: nat)
    requires 4 <= slots <= 0x4000_0000
    ensures 2 <= n <= 30 && RoundUp(slots) == Pow2(n) && Ctz(Pow2(n)) == n
    ensures slots <= Pow2(n) < 2 * slots
  {
    RoundUpIsLeastPower(slots);
    n :| 0 <= n && RoundUp(slots) == Pow2(n);
    CtzPow2(n);
    hide RoundUp, Ctz;
    Pow2Values();
    assert Pow2(0) == 1 && Pow2(1) == 2;
    if n > 30 {
      Pow2Monotone(31, n);
    }
  }

  lemma CandidateAt(n: nat, k: nat)
    requires 2 <= n <= 30 && k < |FitCandidates(Pow2(n))|
    ensures k < 3 && FitCandidates(Pow2(n))[k] == n - 2 + k
  {
    CtzPow2(n);
  }

  lemma CapacityAt(n: nat, k: nat)
    requires 2 <= n && k < 3
    ensures Pow2(n) <= Capacity(n - 2 + k) <= 4 * Pow2(n)
  {
    assert Pow2(n + 1) == 2 * Pow2(n) && Pow2(n + 2) == 4 * Pow2(n);
  }

  /** A reused block is large enough for the request and less than eight times as large. */
  lemma ReusedCapacity(slots: nat, k: nat)
    requires 4 <= slots <= 0x4000_0000
    requires k < |FitCandidates(RoundUp(slots))|
    ensures var i := FitCandidates(RoundUp(slots))[k]; i < MEM_SLOTS && slots <= Capacity(i) < 8 * slots
  {
    var n := RoundedExponent(slots);
    hide RoundUp, Ctz, Pow2, Capacity, FitCandidates;
    CandidateAt(n, k);
    CapacityAt(n, k);
  }

  /**
   * A request is served from exactly the buckets whose blocks are large enough
   * for it and less than eight times as large, the smallest first.
   */
  lemma FitIff(slots: nat, i: nat)
    requires 4 <= slots <= 0x4000_0000
    ensures i in FitCandidates(RoundUp(slots)) <==> slots <= Capacity(i) < 8 * slots
    ensures forall j, k :: 0 <= j < k < |FitCandidates(RoundUp(slots))| ==>
              FitCandidates(RoundUp(slots))[j] < FitCandidates(RoundUp(slots))[k]
  {
    hide Pow2, RoundUp, Ctz, FitCandidates, Capacity;
    var n := RoundedExponent(slots);
    ThreeCandidates(n);
    FitClass(n, slots, i);
  }

  lemma FitClass(n: nat, slots: nat, i: nat)
    requires n >= 2 && slots <= Pow2(n) < 2 * slots
    ensures n - 2 <= i <= n <==> slots <= Capacity(i) < 8 * slots
  {
    hide Pow2;
    PowTwice(n);
    if i + 2 < n {
      Pow2Monotone(i + 2, n);
    } else if i > n {
      Pow2Monotone(n + 2, i + 2);
    } else {
      Pow2Monotone(n, i + 2);
      Pow2Monotone(i + 2, n + 2);
    }
  }

  lemma ThreeCandidates(n: nat)
    requires 2 <= n <= 30
    ensures FitCandidates(Pow2(n)) == [n - 2, n - 1, n]
  {
    hide Pow2, Ctz;
    CtzPow2(n);
    Pow2Monotone(2, n);
    Pow2Values();
    var fit := FitCandidates(Pow2(n));
    assert |fit| == 3 && fit[0] == n - 2 && fit[1] == n - 1 && fit[2] == n;
  }

  lemma PowTwice(n: nat)
    ensures Pow2(n + 1) == 2 * Pow2(n) && Pow2(n + 2) == 4 * Pow2(n)
  {
  }

  /** The rounded size of a request is itself the capacity of a bucket in the header. */
  lemma RoundedClass(slots: nat)
    requires 4 <= slots <= 0x4000_0000
    ensures RoundUp(slots) > 0 && 0 <= BucketOf(RoundUp(slots)) < CLASSES
    ensures RoundUp(slots) == Capacity(BucketOf(RoundUp(slots)))
  {
    var n := RoundedExponent(slots);
  }

  /** The header of a block of bucket i comes back when the block is reused. */
  ghost predicate ComesBack(i: nat) {
    RestoredHeader(BucketSlot(i)) == Capacity(i)
  }

  /**
   * Requests of at most 2^30 slots are exactly those that are rounded to no less
   * than they ask for, and whose block, once freed, comes back with its header.
   */
  lemma ServedIff(slots: nat)
    requires slots >= 4
    ensures slots <= 0x4000_0000 <==>
              RoundUp(slots) >= slots && exists i: nat :: RoundUp(slots) == Capacity(i) && ComesBack(i)
  {
    hide RoundUp, Ctz, ComesBack, Capacity;
    if slots <= 0x4000_0000 {
      RoundUpIsLeastPower(slots);
      RoundedClass(slots);
      SmallClass(BucketOf(RoundUp(slots)));
    } else if RoundUp(slots) >= slots {
      forall i: nat | RoundUp(slots) == Capacity(i) ensures !ComesBack(i) {
        SmallClass(i);
      }
    }
  }

  lemma SmallClass(i: nat)
    ensures ComesBack(i) <==> i < CLASSES
    ensures Capacity(i) <= 0x4000_0000 <==> i < CLASSES
  {
    hide Pow2, IntShift;
    IntShiftSmall(i + 2);
    Pow2Values();
    if i < CLASSES {
      Pow2Monotone(i + 2, 30);
    } else {
      Pow2Monotone(31, i + 2);
      Pow2Monotone(i + 1, i + 2);
    }
  }
}
