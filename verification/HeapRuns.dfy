/**
 * Runs of the allocator of data blocks, one call after the other: a block is
 * carved only when no freed one fits, so that requests of one size never carve
 * more blocks than are in hand at once.
 */
module HeapRuns {
  import opened Layout
  import opened SizeClass
  import opened Image
  import opened ImageOps
  import opened ImageContents
  import opened SharedMemory
  import opened QueueSteps

  /** A request for a data block, or a block in hand given back. */
  datatype Req = Ask(slots: nat) | Free(i: nat)

  ghost predicate WellFormed(r: Req) {
    r.Ask? ==> 8 <= r.slots <= 0x4000_0000
  }

  /** What one call has done to the heap: a new block is carved only if no freed one fits. */
  ghost predicate Served(r: Req, q: Image, q': Image) {
    match r
    case Ask(slots) =>
      || (Unmoved(q, q') && q'.blk == q.blk && q'.stacks == q.stacks)
      || exists d :: Given(q, q', d, slots)
    case Free(_) => q' == q || exists d :: TakenBack(q, q', d)
  }

  ghost predicate Given(q: Image, q': Image, d: int, slots: nat) {
    && GainedData(q, q', d, slots)
    && if NoFit(q, RoundUp(slots)) then CarvedOff(q, q', d, RoundUp(slots)) else Reused(q, q', RoundUp(slots), d)
  }

  ghost predicate TakenBack(q: Image, q': Image, d: int) {
    && d in HeldBlocks(q) && HeaderOk(q, d) && Released(q, q', d)
    && W(q, d, 0) > 0 && q' == Push(q, Bucket(BucketOf(W(q, d, 0))), d)
  }

  ghost predicate Trace(reqs: seq<Req>, images: seq<Image>) {
    && |images| == |reqs| + 1 && images[0] == NewImage()
    && (forall i :: 0 <= i < |images| ==> Ok(images[i]))
    && forall i, j :: 0 <= i && j == i + 1 && j < |images| ==> Served(reqs[i], images[i], images[j])
  }

  lemma TraceNext(reqs: seq<Req>, images: seq<Image>, r: Req, q: Image)
    requires Trace(reqs, images) && Served(r, images[|reqs|], q) && Ok(q)
    ensures Trace(reqs + [r], images + [q])
  {
    hide Served, NewImage, Ok;
  }

  /** The blocks in hand. */
  ghost predicate InHand(q: Image, hand: seq<int>) {
    && HeldBlocks(q) == (set d | d in hand) && |HeldBlocks(q)| == |hand|
    && forall d :: d in hand ==> d in q.place && q.place[d] == Held && HeaderOk(q, d)
  }

  lemma HandSame(q: Image, q': Image, hand: seq<int>)
    requires InHand(q, hand) && Unmoved(q, q')
    ensures InHand(q', hand)
  {
    hide Fifo, LifoItems, Pending, Spare, InUse, NodeBlocks, SettingsSame, HeaderOk;
    forall d | d in hand ensures d in q'.place && q'.place[d] == Held && HeaderOk(q', d) {
      assert d in HeldBlocks(q) && d in HeldBlocks(q');
      HeaderCopied(q, q', d);
    }
  }

  lemma HandGains(q: Image, q': Image, hand: seq<int>, d: int, slots: nat)
    requires InHand(q, hand) && GainedData(q, q', d, slots)
    ensures InHand(q', hand + [d])
  {
    hide Fifo, LifoItems, Pending, Spare, InUse, NodeBlocks, SettingsSame, HeaderOk, W, Len;
    assert HeldBlocks(q') == (set e | e in hand + [d]);
    forall e | e in hand + [d] ensures e in q'.place && q'.place[e] == Held && HeaderOk(q', e) {
      if e != d {
        assert e in hand && e in HeldBlocks(q) && e in HeldBlocks(q');
        HeaderCopied(q, q', e);
      }
    }
  }

  lemma HandGives(q: Image, q': Image, hand: seq<int>, i: nat)
    requires InHand(q, hand) && i < |hand| && Released(q, q', hand[i])
    ensures InHand(q', hand[..i] + hand[i + 1..])
  {
    hide Fifo, LifoItems, Pending, Spare, InUse, NodeBlocks, SettingsSame, HeaderOk;
    var rest := hand[..i] + hand[i + 1..];
    Distinct(hand, i);
    assert forall d :: d in hand <==> d in rest || d == hand[i];
    assert HeldBlocks(q') == (set d | d in rest);
    forall d | d in rest ensures d in q'.place && q'.place[d] == Held && HeaderOk(q', d) {
      assert d in HeldBlocks(q) && d in HeldBlocks(q');
      HeaderCopied(q, q', d);
    }
  }

  /** In a sequence of as many elements as its set has, none occurs twice. */
  lemma Distinct(hand: seq<int>, i: nat)
    requires i < |hand| && |set d | d in hand| == |hand|
    ensures hand[i] !in hand[..i] + hand[i + 1..]
  {
    var rest := hand[..i] + hand[i + 1..];
    if hand[i] in rest {
      assert forall d :: d in hand <==> d in rest;
      assert (set d | d in hand) == (set d | d in rest);
      SetSize(rest);
    }
  }

  lemma {:induction false} SetSize(s: seq<int>)
    ensures |set d | d in s| <= |s|
  {
    if s == [] {
      assert (set d | d in s) == {};
    } else {
      var k := |s| - 1;
      SetSize(s[..k]);
      assert (set d | d in s) == (set d | d in s[..k]) + {s[k]};
    }
  }

  /** One call. */
  method Serve(base: Base, hand: seq<int>, r: Req) returns (hand': seq<int>)
    requires base.Valid() && InHand(base.q, hand) && WellFormed(r)
    modifies base, base.mem
    ensures base.Valid() && (base.mem == old(base.mem) || fresh(base.mem))
    ensures InHand(base.q, hand') && Served(r, old(base.q), base.q)
  {
    hide Fits, Ok, InHand, GainedData, Unmoved, Released, HeaderOk, RoundUp, NoFit, Reused, CarvedOff, W, Push;
    ghost var q0 := base.q;
    hand' := hand;
    if r.Ask? {
      var slot := base.AllocDataSlots(r.slots);
      if slot == 0 {
        HandSame(q0, base.q, hand);
      } else {
        HandGains(q0, base.q, hand, slot, r.slots);
        assert Given(q0, base.q, slot, r.slots);
        hand' := hand + [slot];
      }
    } else if r.i < |hand| {
      HandHas(q0, hand, r.i);
      base.FreeDataSlots(hand[r.i]);
      HandGives(q0, base.q, hand, r.i);
      assert TakenBack(q0, base.q, hand[r.i]);
      hand' := hand[..r.i] + hand[r.i + 1..];
    }
  }

  lemma HandHas(q: Image, hand: seq<int>, i: nat)
    requires InHand(q, hand) && i < |hand|
    ensures hand[i] in q.place && q.place[hand[i]] == Held && HeaderOk(q, hand[i]) && hand[i] in HeldBlocks(q)
  {
    hide HeaderOk;
    var d := hand[i];
    assert d in hand;
    assert d in HeldBlocks(q);
  }

  /** A new heap, and any requests one after the other. */
  method RunHeap(reqs: seq<Req>) returns (base: Base, hand: seq<int>, ghost images: seq<Image>)
    requires forall r :: r in reqs ==> WellFormed(r)
    ensures fresh(base) && base.Valid() && InHand(base.q, hand)
    ensures Trace(reqs, images) && images[|reqs|] == base.q
  {
    hide Fits, Ok, InHand, Served, WellFormed, Trace, NewImage;
    base := new Base();
    hand, images := [], [base.q];
    NoRequests(base.q);
    for k := 0 to |reqs|
      invariant fresh(base) && fresh(base.mem) && base.Valid() && InHand(base.q, hand)
      invariant |images| == k + 1 && images[k] == base.q && Trace(reqs[..k], images)
    {
      hand := Serve(base, hand, reqs[k]);
      TraceNext(reqs[..k], images, reqs[k], base.q);
      assert reqs[..k + 1] == reqs[..k] + [reqs[k]];
      images := images + [base.q];
    }
    assert reqs[..|reqs|] == reqs;
  }

  lemma NoRequests(q: Image)
    requires q == NewImage() && Ok(q)
    ensures Trace([], [q]) && InHand(q, [])
  {
    hide NewImage, Ok, HeldBlocks;
    NewQueue();
    assert (set d | d in []) == HeldBlocks(q);
  }

  // ------------------------------------------------------------ requests of one size

  /** Every request is for the class of 2^n slots. */
  ghost predicate OfClass(reqs: seq<Req>, n: nat) {
    forall r :: r in reqs && r.Ask? ==> RoundUp(r.slots) == Pow2(n)
  }

  /** Every block carved is a dummy, in hand, or in the bucket of the class; those in hand are of the class. */
  ghost predicate ClassOk(q: Image, n: nat) {
    && 3 <= n <= 30
    && |q.blk.Keys| == 3 + |HeldBlocks(q)| + |Stack(q, Bucket(n - 2))|
    && Stack(q, Bucket(n - 1)) == [] && Stack(q, Bucket(n)) == []
    && HeldOf(q, n)
  }

  ghost predicate HeldOf(q: Image, n: nat) {
    forall d :: d in HeldBlocks(q) ==> d in q.blk && W(q, d, 0) == Pow2(n)
  }

  ghost function MostInHand(images: seq<Image>): nat {
    if images == [] then 0
    else Max(MostInHand(images[..|images| - 1]), |HeldBlocks(images[|images| - 1])|)
  }

  lemma ClassCandidates(q: Image, n: nat)
    requires 3 <= n <= 30 && Stack(q, Bucket(n - 1)) == [] && Stack(q, Bucket(n)) == []
    ensures NoFit(q, Pow2(n)) <==> Stack(q, Bucket(n - 2)) == []
    ensures forall i :: FirstFit(q, Pow2(n), i) ==> i == n - 2
  {
    CtzPow2(n);
    Pow2Monotone(2, n);
    Candidates(Pow2(n));
    hide Pow2, Ctz;
    var c := FitCandidates(Pow2(n));
    assert |c| == 3 && c[0] == n - 2 && c[1] == n - 1 && c[2] == n;
  }

  /** What a gain means for the blocks in hand. */
  lemma GainedHand(q: Image, q': Image, d: int, slots: nat, n: nat)
    requires GainedData(q, q', d, slots) && HeldOf(q, n) && Len(q', d) == Pow2(n)
    ensures d !in HeldBlocks(q) && HeldBlocks(q') == HeldBlocks(q) + {d} && HeldOf(q', n)
    ensures |HeldBlocks(q')| == |HeldBlocks(q)| + 1
  {
    hide Fifo, LifoItems, Pending, Spare, InUse, NodeBlocks, SettingsSame, Pow2, Capacity, HeldBlocks, Len, W;
    assert W(q', d, 0) == Len(q', d);
    hide HeaderOk;
    forall e | e in HeldBlocks(q') ensures e in q'.blk && W(q', e, 0) == Pow2(n) {
      if e != d {
        assert e in HeldBlocks(q);
        SameWord(q, q', e);
      } else {
        GainedThere(q, q', d, slots);
      }
    }
  }

  lemma GainedThere(q: Image, q': Image, d: int, slots: nat)
    requires GainedData(q, q', d, slots)
    ensures d in q'.blk
  {
    hide Capacity;
  }

  lemma SameWord(q: Image, q': Image, e: int)
    requires e in q.blk && e in q'.blk && q'.blk[e] == q.blk[e]
    ensures W(q', e, 0) == W(q, e, 0)
  {
  }

  lemma CarveClass(q: Image, q': Image, d: int, slots: nat, n: nat)
    requires ClassOk(q, n) && GainedData(q, q', d, slots) && CarvedOff(q, q', d, Pow2(n))
    ensures ClassOk(q', n) && |q'.blk.Keys| == |q.blk.Keys| + 1 && |HeldBlocks(q')| == |HeldBlocks(q)| + 1
  {
    hide GainedData, HeldOf, Pow2, HeldBlocks, H, Len;
    GainedHand(q, q', d, slots, n);
    SameStacks(q, q');
  }

  lemma SameStacks(q: Image, q': Image)
    requires q'.stacks == q.stacks
    ensures forall k :: Stack(q', k) == Stack(q, k)
  {
  }

  lemma TakeClass(q: Image, q': Image, d: int, slots: nat, n: nat)
    requires ClassOk(q, n) && Ok(q) && GainedData(q, q', d, slots) && TopTaken(q, q', d, n - 2)
    ensures ClassOk(q', n) && q'.blk.Keys == q.blk.Keys && |HeldBlocks(q')| == |HeldBlocks(q)| + 1
  {
    hide GainedData, HeldOf, Pow2, HeldBlocks, H, Len;
    TopSize(q, n - 2);
    hide Ok;
    GainedHand(q, q', d, slots, n);
  }

  lemma TopSize(q: Image, i: nat)
    requires Ok(q) && i < CLASSES && Stack(q, Bucket(i)) != []
    ensures var s := Stack(q, Bucket(i)); Len(q, s[|s| - 1]) == Pow2(i + 2)
  {
    hide W, H, Len, Pow2, ListsOk, PlacesOk, Tiled;
    assert StackOk(q, Bucket(i));
  }

  lemma BackClass(q: Image, q': Image, d: int, n: nat)
    requires ClassOk(q, n) && TakenBack(q, q', d)
    ensures ClassOk(q', n) && q'.blk.Keys == q.blk.Keys && |HeldBlocks(q')| == |HeldBlocks(q)| - 1
  {
    hide Push, Pow2, HeldBlocks, W, H, Len, HeaderOk, Released, Ctz;
    assert W(q, d, 0) == Pow2(n);
    CtzPow2(n);
    assert BucketOf(Pow2(n)) == n - 2;
    PushKeys(q, Bucket(n - 2), d);
    ReleasedHand(q, q', d, n);
  }

  lemma ReleasedHand(q: Image, q': Image, d: int, n: nat)
    requires Released(q, q', d) && HeldOf(q, n) && d in HeldBlocks(q)
    ensures |HeldBlocks(q')| == |HeldBlocks(q)| - 1 && HeldOf(q', n)
  {
    hide Fifo, LifoItems, Pending, Spare, InUse, NodeBlocks, SettingsSame, Pow2, HeldBlocks, W;
    assert HeldBlocks(q) == HeldBlocks(q') + {d};
    forall e | e in HeldBlocks(q') ensures e in q'.blk && W(q', e, 0) == Pow2(n) {
      assert e in HeldBlocks(q);
      SameWord(q, q', e);
    }
  }

  lemma PushKeys(q: Image, k: StackId, b: int)
    requires k.Bucket?
    ensures Push(q, k, b).blk.Keys == q.blk.Keys && Push(q, k, b).stacks == q.stacks[k := Stack(q, k) + [b]]
  {
    hide H;
  }

  lemma ClassStep(q: Image, q': Image, r: Req, n: nat)
    requires ClassOk(q, n) && Ok(q) && Served(r, q, q') && (r.Ask? ==> RoundUp(r.slots) == Pow2(n))
    ensures ClassOk(q', n)
    ensures if q'.blk.Keys == q.blk.Keys then |HeldBlocks(q')| <= |q.blk.Keys| - 3
            else |q'.blk.Keys| == |q.blk.Keys| + 1 && |HeldBlocks(q')| == |q'.blk.Keys| - 3
  {
    hide Ok, GainedData, Unmoved, HeldBlocks, HeldOf, H, W, Len, Pow2, RoundUp, TakenBack, CarvedOff, TopTaken, NoFit,
         FirstFit;
    ClassCandidates(q, n);
    if q' == q {
    } else if r.Ask? {
      if d :| Given(q, q', d, r.slots) {
        if Stack(q, Bucket(n - 2)) == [] {
          CarveClass(q, q', d, r.slots, n);
          CarvedGrows(q, q', d, Pow2(n));
        } else {
          var i :| FirstFit(q, Pow2(n), i) && TopTaken(q, q', d, i);
          TakeClass(q, q', d, r.slots, n);
        }
      } else {
        SameClass(q, q', n);
      }
    } else {
      var d :| TakenBack(q, q', d);
      BackClass(q, q', d, n);
    }
  }

  lemma CarvedGrows(q: Image, q': Image, d: int, n: int)
    requires CarvedOff(q, q', d, n)
    ensures q'.blk.Keys != q.blk.Keys
  {
    assert d in q'.blk.Keys;
  }

  lemma SameClass(q: Image, q': Image, n: nat)
    requires ClassOk(q, n) && Unmoved(q, q') && q'.blk == q.blk && q'.stacks == q.stacks
    ensures ClassOk(q', n) && HeldBlocks(q') == HeldBlocks(q)
  {
    hide Fifo, LifoItems, Pending, Spare, InUse, NodeBlocks, SettingsSame, Pow2, HeldSame;
    hide HeldBlocks;
  }

  lemma NewClass(n: nat)
    requires 3 <= n <= 30
    ensures ClassOk(NewImage(), n) && |NewImage().blk.Keys| == 3 && HeldBlocks(NewImage()) == {}
  {
    hide Pow2, W, HeldBlocks, H, Len;
    NewQueue();
    var q := NewImage();
    assert q.blk.Keys == {HDR_END, HDR_END + 4, HDR_END + 8};
  }

  lemma LastImage(reqs: seq<Req>, images: seq<Image>)
    requires Trace(reqs, images) && reqs != []
    ensures var k := |reqs| - 1;
            && |images| == k + 2 && Trace(reqs[..k], images[..k + 1])
            && Ok(images[k]) && Served(reqs[k], images[k], images[k + 1])
  {
    hide Served, NewImage, Ok;
    var k := |reqs| - 1;
    var j := k + 1;
    assert Served(reqs[k], images[k], images[j]);
  }

  /**
   * Requests of one class, in any order with the releases: the data blocks ever
   * carved are exactly as many as were in hand at once at some time.
   */
  lemma {:induction false} CarvedAsNeeded(reqs: seq<Req>, images: seq<Image>, n: nat)
    requires Trace(reqs, images) && OfClass(reqs, n) && 3 <= n <= 30
    ensures |images[|reqs|].blk.Keys| == 3 + MostInHand(images) && ClassOk(images[|reqs|], n)
  {
    hide Ok, HeldBlocks, ClassOk, NewImage, Served, RoundUp, Pow2;
    if reqs == [] {
      NewClass(n);
      assert images == [NewImage()] && images[..0] == [];
    } else {
      var k := |reqs| - 1;
      LastImage(reqs, images);
      hide Trace;
      assert reqs[k] in reqs && forall r :: r in reqs[..k] ==> r in reqs;
      CarvedAsNeeded(reqs[..k], images[..k + 1], n);
      ClassStep(images[k], images[k + 1], reqs[k], n);
      assert images[..|images| - 1] == images[..k + 1];
    }
  }
}
