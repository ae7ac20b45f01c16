/**
 * The shared object as one process sees it: an array of words, which is
 * remapped when the object grows, with the lock-free heap in it.  Every method
 * is the C function of that name, run by one process at a time.
 */
module SharedMemory {
  import opened Layout
  import opened SizeClass
  import opened Image
  import opened ImageOps
  import opened ImageFrame
  import opened ImageProof
  import opened ImageStacks
  import opened ImageContents
  import opened ImagePrivate
  import Growth

  // ------------------------------------------------------------ the array and its image

  /**
   * The mapping, the published size and the announced size are whole pages, each
   * within the next, and at most one of the two gaps is open; some space is
   * always left.
   */
  ghost predicate Sized(m: seq<int>, q: Image) {
    && |m| % PAGE_SLOTS == 0 && H(q, SIZE) % PAGE_SLOTS == 0 && H(q, EXPAND_SIZE) % PAGE_SIZE == 0
    && |m| <= H(q, SIZE) && H(q, SIZE) * 8 <= H(q, EXPAND_SIZE)
    && (|m| < H(q, SIZE) ==> H(q, EXPAND_SIZE) == H(q, SIZE) * 8)
    && H(q, DATA_ALLOC) < |m|
  }

  /** The words of the array are those of the image; the space not yet carved is zero. */
  ghost predicate Fits(m: seq<int>, q: Image) {
    && Tiled(q) && Sized(m, q)
    && (forall i :: 0 <= i < HDR_END ==> m[i] == H(q, i))
    && (forall b, j :: b in q.blk && 0 <= j < Len(q, b) ==> m[b + j] == W(q, b, j))
    && (forall x :: H(q, DATA_ALLOC) <= x < |m| ==> m[x] == 0)
  }

  predicate Fixed(i: int) {
    i == SIZE || i == EXPAND_SIZE || i == DATA_ALLOC
  }

  lemma SameShape(q: Image, q': Image)
    requires Tiled(q) && q'.blk.Keys == q.blk.Keys && q'.place.Keys == q.place.Keys && |q'.h| == |q.h|
    requires H(q', DATA_ALLOC) == H(q, DATA_ALLOC) && forall c :: Len(q', c) == Len(q, c)
    ensures Tiled(q')
  {
    hide H, Len;
    forall c | c in q'.blk ensures Abuts(q', c) {
      assert Abuts(q, c);
    }
  }

  lemma PutWEffect(q: Image, b: int, j: int, v: int)
    ensures var q' := PutW(q, b, j, v);
            && q' == q.(blk := q'.blk) && q'.blk.Keys == q.blk.Keys
            && (forall c :: Len(q', c) == Len(q, c))
            && (b in q.blk && 0 <= j < Len(q, b) ==>
                 forall c, i :: W(q', c, i) == if c == b && i == j then v else W(q, c, i))
  {
  }

  lemma PutWShape(q: Image, b: int, j: int, v: int)
    requires Tiled(q)
    ensures Tiled(PutW(q, b, j, v)) && PutW(q, b, j, v).blk.Keys == q.blk.Keys && PutW(q, b, j, v).h == q.h
    ensures forall c :: Len(PutW(q, b, j, v), c) == Len(q, c)
    ensures b in q.blk && 0 <= j < Len(q, b) ==>
              forall c, i :: W(PutW(q, b, j, v), c, i) == if c == b && i == j then v else W(q, c, i)
  {
    PutWEffect(q, b, j, v);
    SameHeader(q, PutW(q, b, j, v));
    hide PutW, W, H, Len, Tiled;
    SameShape(q, PutW(q, b, j, v));
  }

  lemma PutHShape(q: Image, i: int, v: int)
    requires Tiled(q) && i != DATA_ALLOC
    ensures Tiled(PutH(q, i, v)) && PutH(q, i, v).blk == q.blk
    ensures 0 <= i < HDR_END ==> forall x :: H(PutH(q, i, v), x) == if x == i then v else H(q, x)
  {
    hide PutH, W, H, Len;
    assert |q.h| == HDR_END;
    var q' := PutH(q, i, v);
    if 0 <= i < HDR_END {
      PutHEffect(q, i, v);
    } else {
      PutHBeyond(q, i, v);
    }
    SameBlocks(q, q');
    hide Tiled;
    SameShape(q, q');
  }

  lemma PutHBeyond(q: Image, i: int, v: int)
    requires !(0 <= i < |q.h|)
    ensures PutH(q, i, v) == q
  {
  }

  /** Two words of the array are the same word only if they are the same word of the same block. */
  lemma WordsDiffer(q: Image, b: int, i: int, c: int, j: int)
    requires Tiled(q) && b in q.blk && c in q.blk && 0 <= i < Len(q, b) && 0 <= j < Len(q, c) && b + i == c + j
    ensures b == c && i == j
  {
    hide Len, H, Abuts;
  }

  lemma StoreFits(m: seq<int>, q: Image, b: int, j: int, v: int)
    requires Fits(m, q) && b in q.blk && 0 <= j < Len(q, b)
    ensures b + j < |m| && Fits(m[b + j := v], PutW(q, b, j, v))
  {
    var q' := PutW(q, b, j, v);
    PutWShape(q, b, j, v);
    assert HDR_END <= b && b + Len(q, b) <= H(q, DATA_ALLOC);
    SameHeader(q, q');
    hide PutW, W, H, Len, Tiled;
    var m' := m[b + j := v];
    forall c, i | c in q'.blk && 0 <= i < Len(q', c) ensures m'[c + i] == W(q', c, i) {
      assert m[c + i] == W(q, c, i);
      if c + i == b + j {
        WordsDiffer(q, b, j, c, i);
      }
    }
  }

  lemma StoreHeaderFits(m: seq<int>, q: Image, i: int, v: int)
    requires Fits(m, q) && 0 <= i < HDR_END && !Fixed(i)
    ensures i < |m| && Fits(m[i := v], PutH(q, i, v))
  {
    var q' := PutH(q, i, v);
    PutHShape(q, i, v);
    SameBlocks(q, q');
    assert forall b :: b in q.blk ==> HDR_END <= b && b + Len(q, b) <= H(q, DATA_ALLOC);
    assert HDR_END <= H(q, DATA_ALLOC);
    hide PutH, W, H, Len, Tiled;
    forall c, j | c in q'.blk && 0 <= j < Len(q', c) ensures m[i := v][c + j] == W(q', c, j) {
      assert m[c + j] == W(q, c, j);
    }
  }

  // ------------------------------------------------------------ growing

  /** Only the two size words differ. */
  ghost predicate Grown(q: Image, q': Image) {
    && |q'.h| == |q.h| && q' == q.(h := q'.h)
    && forall x :: x != SIZE && x != EXPAND_SIZE ==> H(q', x) == H(q, x)
  }

  /** The values a process may give to one of the two size words. */
  predicate SizeFor(n: nat, q: Image, i: int, v: int) {
    if i == SIZE then n <= v && v * 8 == H(q, EXPAND_SIZE) && v % PAGE_SLOTS == 0
    else i == EXPAND_SIZE && n == H(q, SIZE) && H(q, SIZE) * 8 <= v && v % PAGE_SIZE == 0
  }

  lemma SizeFits(m: seq<int>, q: Image, i: int, v: int)
    requires Fits(m, q) && SizeFor(|m|, q, i, v)
    ensures i < |m| && Fits(m[i := v], PutH(q, i, v)) && Grown(q, PutH(q, i, v))
  {
    var q' := PutH(q, i, v);
    PutHShape(q, i, v);
    SameBlocks(q, q');
    assert forall b :: b in q.blk ==> HDR_END <= b && b + Len(q, b) <= H(q, DATA_ALLOC);
    assert HDR_END <= H(q, DATA_ALLOC);
    hide PutH, W, H, Len, Tiled;
    forall c, j | c in q'.blk && 0 <= j < Len(q', c) ensures m[i := v][c + j] == W(q', c, j) {
      assert m[c + j] == W(q, c, j);
    }
  }

  lemma MayAnnounce(n: nat, q: Image, size: int)
    requires n == H(q, SIZE) && size > H(q, SIZE) * 8 && size % PAGE_SIZE == 0
    ensures SizeFor(n, q, EXPAND_SIZE, size)
    ensures |q.h| == HDR_END ==>
              H(PutH(q, EXPAND_SIZE, size), EXPAND_SIZE) == size && H(PutH(q, EXPAND_SIZE, size), SIZE) == H(q, SIZE)
  {
  }

  /** The announced size, in slots. */
  lemma MayPublish(n: nat, q: Image)
    requires n <= H(q, SIZE) && H(q, SIZE) * 8 <= H(q, EXPAND_SIZE) && H(q, EXPAND_SIZE) % PAGE_SIZE == 0
    ensures SizeFor(n, q, SIZE, H(q, EXPAND_SIZE) / 8)
    ensures |q.h| == HDR_END ==>
              var q' := PutH(q, SIZE, H(q, EXPAND_SIZE) / 8);
              H(q', SIZE) * 8 == H(q, EXPAND_SIZE) && H(q', EXPAND_SIZE) == H(q, EXPAND_SIZE)
  {
    var e := H(q, EXPAND_SIZE);
    assert e == PAGE_SIZE * (e / PAGE_SIZE);
    assert e / 8 == PAGE_SLOTS * (e / PAGE_SIZE);
  }

  lemma GrownSteps(q: Image, q1: Image, q': Image)
    requires q == q1 || Grown(q, q1)
    requires q1 == q' || Grown(q1, q')
    ensures Grown(q, q')
  {
  }

  /** A larger mapping shows the same words and zeros behind them. */
  lemma RemapFits(m: seq<int>, q: Image, m': seq<int>)
    requires Fits(m, q) && |m| <= |m'| == H(q, SIZE)
    requires forall i :: 0 <= i < |m'| ==> m'[i] == if i < |m| then m[i] else 0
    ensures Fits(m', q)
  {
    assert forall b :: b in q.blk ==> HDR_END <= b && b + Len(q, b) <= H(q, DATA_ALLOC);
    hide W, H, Len, Tiled;
    forall c, j | c in q.blk && 0 <= j < Len(q, c) ensures m'[c + j] == W(q, c, j) {
      assert m[c + j] == W(q, c, j);
    }
  }

  lemma GrownKeeps(q: Image, q': Image)
    requires Ok(q) && Grown(q, q')
    ensures Ok(q') && Fifo(q') == Fifo(q) && LifoItems(q') == LifoItems(q) && Pending(q') == Pending(q)
    ensures Spare(q') == Spare(q) && InUse(q') == InUse(q)
    ensures HeldBlocks(q') == HeldBlocks(q) && NodeBlocks(q') == NodeBlocks(q)
    ensures HeldSame(q, q') && SettingsSame(q, q')
  {
    SameBlocks(q, q');
    assert q.blk.Keys == q.place.Keys;
    assert Stores(q, q', {}) && HeldSame(q, q') && SettingsSame(q, q') by {
      hide H, W, Len, Ok;
    }
    hide Stores;
    StoresKeep(q, q', {});
  }

  /** The CAS on DATA_ALLOC and the store of the size make the start of the free space a block. */
  lemma CarveFits(m: seq<int>, q: Image, n: nat)
    requires Fits(m, q) && n >= NODE_SIZE && n % NODE_SIZE == 0 && H(q, DATA_ALLOC) + n < |m|
    ensures HDR_END <= H(q, DATA_ALLOC)
    ensures Fits(m[DATA_ALLOC := H(q, DATA_ALLOC) + n][H(q, DATA_ALLOC) := n], Carve(q, n))
  {
    var a, q' := H(q, DATA_ALLOC), Carve(q, n);
    CarveFacts(q, n);
    CarvedTiled(q, q', n);
    CarvedLens(q, q', a, n);
    assert forall b :: b in q.blk ==> HDR_END <= b && b + Len(q, b) <= a;
    assert HDR_END <= a;
    hide Carve, W, H, Len, Tiled, SameBlock;
    var m' := m[DATA_ALLOC := a + n][a := n];
    forall c, j | c in q'.blk && 0 <= j < Len(q', c) ensures m'[c + j] == W(q', c, j) {
      if c != a {
        assert m[c + j] == W(q, c, j);
        SameBlockWords(q, q', c);
      }
    }
  }

  // ------------------------------------------------------------ what the allocators promise

  /**
   * The queue is as it was; the block `n` is in hand as well; the settings and the
   * other blocks in hand are unchanged.
   */
  ghost predicate Gained(q: Image, q': Image, n: int) {
    && Fifo(q') == Fifo(q) && LifoItems(q') == LifoItems(q) && Pending(q') == Pending(q) && InUse(q') == InUse(q)
    && n !in HeldBlocks(q) && HeldBlocks(q') == HeldBlocks(q) + {n} && n in q'.place && q'.place[n] == Held
    && HeldSame(q, q') && SettingsSame(q, q')
  }

  /** A node comes from the pool; only if the pool has none is a new one carved. */
  ghost predicate GainedNode(q: Image, q': Image, n: int) {
    && Gained(q, q', n)
    && Len(q', n) == NODE_SIZE && W(q', n, EVENT_OFFSET) == 0 && W(q', n, VALUE_OFFSET) == 0
    && (if Spare(q) > 0 then NodeBlocks(q') == NodeBlocks(q) && Spare(q') == Spare(q) - 1
        else n !in NodeBlocks(q) && NodeBlocks(q') == NodeBlocks(q) + {n} && Spare(q') == 0)
  }

  /** A data block large enough, with its capacity in its header and zeros where the request is. */
  ghost predicate GainedData(q: Image, q': Image, d: int, slots: nat) {
    && Gained(q, q', d)
    && HeaderOk(q', d) && slots <= Len(q', d) && (forall j :: 0 < j < slots ==> W(q', d, j) == 0)
    && NodeBlocks(q') == NodeBlocks(q) && Spare(q') == Spare(q)
  }

  /** Nothing but the sizes has changed. */
  ghost predicate Unmoved(q: Image, q': Image) {
    && Fifo(q') == Fifo(q) && LifoItems(q') == LifoItems(q) && Pending(q') == Pending(q)
    && Spare(q') == Spare(q) && InUse(q') == InUse(q)
    && HeldBlocks(q') == HeldBlocks(q) && NodeBlocks(q') == NodeBlocks(q) && HeldSame(q, q') && SettingsSame(q, q')
  }

  lemma GrownUnmoved(q: Image, q': Image)
    requires Ok(q) && Grown(q, q')
    ensures Ok(q') && Unmoved(q, q')
  {
    hide Ok, Grown, Fifo, LifoItems, Pending, Spare, InUse, HeldBlocks, NodeBlocks, HeldSame, SettingsSame;
    GrownKeeps(q, q');
  }

  lemma GrownThenCarved(q: Image, g: Image, n: nat)
    requires Ok(q) && Grown(q, g) && n >= NODE_SIZE && n % NODE_SIZE == 0
    ensures Ok(Carve(g, n)) && CarveContents(q, Carve(g, n), H(q, DATA_ALLOC), n)
  {
    hide Ok, Grown, Fifo, LifoItems, Pending, Spare, InUse, H, W, Len, Carve, NodeBlocks, HeldBlocks, HeldSame,
         SettingsSame;
    GrownAlloc(q, g);
    GrownUnmoved(q, g);
    CarveKeeps(g, n);
    SameTwice(q, g, Carve(g, n));
  }

  lemma SameTwice(q: Image, q1: Image, q': Image)
    requires HeldSame(q, q1) && HeldSame(q1, q') && HeldBlocks(q) * HeldBlocks(q') <= HeldBlocks(q1)
    requires SettingsSame(q, q1) && SettingsSame(q1, q')
    ensures HeldSame(q, q') && SettingsSame(q, q')
  {
    hide H, HeldBlocks, Setting;
  }

  lemma CarvedNode(q: Image, q': Image, n: int)
    requires CarveContents(q, q', n, NODE_SIZE) && Spare(q) == 0 && n in q'.place
    ensures GainedNode(q, q', n)
  {
    assert n in HeldBlocks(q');
    hide Fifo, LifoItems, Pending, Spare, InUse, H, W, Len, NodeBlocks, HeldSame, SettingsSame;
  }

  /** The words lo..hi of a block are set to zero. */
  ghost predicate Zeroed(q: Image, q': Image, b: int, lo: int, hi: int) {
    && q' == q.(blk := q'.blk) && q'.blk.Keys == q.blk.Keys
    && (forall c :: Len(q', c) == Len(q, c))
    && (forall c :: c in q.blk && c != b ==> q'.blk[c] == q.blk[c])
    && (forall j :: W(q', b, j) == if lo <= j < hi then 0 else W(q, b, j))
  }

  lemma ZeroedMore(q: Image, q1: Image, q': Image, b: int, lo: int, i: int)
    requires Zeroed(q, q1, b, lo, i) && b in q1.blk && lo <= i < Len(q1, b) && q' == PutW(q1, b, i, 0)
    ensures Zeroed(q, q', b, lo, i + 1)
  {
    PutWEffect(q1, b, i, 0);
    assert forall c :: c in q.blk && c != b ==> q'.blk[c] == q.blk[c];
    hide PutW, W, Len;
  }

  lemma ZeroedNone(q: Image, b: int, lo: int)
    ensures Zeroed(q, q, b, lo, lo)
  {
  }

  lemma ZeroedLen(q: Image, q': Image, b: int, lo: int, hi: int)
    requires Zeroed(q, q', b, lo, hi) && b in q.blk
    ensures b in q'.blk && Len(q', b) == Len(q, b)
  {
  }

  lemma ZeroedKeeps(q: Image, q': Image, b: int, lo: int, hi: int)
    requires Ok(q) && Zeroed(q, q', b, lo, hi) && b in q.place && q.place[b] == Held
    ensures Ok(q')
    ensures Fifo(q') == Fifo(q) && LifoItems(q') == LifoItems(q) && Pending(q') == Pending(q)
    ensures Spare(q') == Spare(q) && InUse(q') == InUse(q)
    ensures HeldBlocks(q') == HeldBlocks(q) && NodeBlocks(q') == NodeBlocks(q) && SettingsSame(q, q')
    ensures forall c :: c in HeldBlocks(q) && c != b ==> c in q.blk && c in q'.blk && q'.blk[c] == q.blk[c]
  {
    hide Ok, Fifo, LifoItems, Pending, Spare, InUse, W, Len, NodeBlocks;
    OkParts(q, Items);
    SameHeader(q, q');
    assert Stores(q, q', {b});
    StoresKeep(q, q', {b});
  }

  lemma NoneBehind(q: Image, l: ListId)
    requires Ok(q)
    ensures Empty(q, l) <==> Behind(Get(q, l)) == []
  {
    hide Ok, ListOk, PlacesOk, StackOk, H;
    OkParts(q, l);
    if Empty(q, l) {
      EndsMeet(q, l);
    } else {
      FrontNodes(q, l);
    }
  }

  lemma EndsMeet(q: Image, l: ListId)
    requires ListOk(q, l) && Empty(q, l)
    ensures Get(q, l).front == |Get(q, l).log| - 1
  {
    var c := Get(q, l);
    assert q.place[c.log[c.front]] == OnList(l, c.front) && q.place[c.log[|c.log| - 1]] == OnList(l, |c.log| - 1);
    hide H, W, Len;
  }

  lemma PoolNode(q: Image, q1: Image, q': Image, n: int)
    requires Ok(q1) && n == H(q, FREE_HEAD) && RemoveContents(q, q1, Free) && InHand(q, q1, Free) &&
            Zeroed(q1, q', n, 0, NODE_SIZE)
    ensures Ok(q') && GainedNode(q, q', n)
  {
    hide Ok, Fifo, LifoItems, Pending, Spare, InUse, H, W, Len, NodeBlocks, HeldSame, SettingsSame, HeldBlocks;
    ZeroedKeeps(q1, q', n, 0, NODE_SIZE);
    assert n !in HeldBlocks(q) && HeldBlocks(q1) == HeldBlocks(q) + {n};
    HeldTwice(q, q1, q', n);
    ZeroedNode(q1, q', n);
  }

  lemma HeldTwice(q: Image, q1: Image, q': Image, b: int)
    requires HeldSame(q, q1) && SettingsSame(q, q1) && SettingsSame(q1, q') && b !in HeldBlocks(q) &&
            HeldBlocks(q) <= HeldBlocks(q1)
    requires forall c :: c in HeldBlocks(q1) && c != b ==> c in q1.blk && c in q'.blk && q'.blk[c] == q1.blk[c]
    ensures HeldSame(q, q') && SettingsSame(q, q')
  {
    hide H, HeldBlocks, Setting;
  }

  lemma ZeroedNode(q: Image, q': Image, n: int)
    requires Zeroed(q, q', n, 0, NODE_SIZE) && CanAdd(q, Free, n)
    ensures CanAdd(q', Free, n) && W(q', n, EVENT_OFFSET) == 0 && W(q', n, VALUE_OFFSET) == 0
  {
    hide W, Len;
  }

  // ------------------------------------------------------------ freed blocks

  /** The queue is as it was; the block `d` is no longer in hand. */
  ghost predicate Released(q: Image, q': Image, d: int) {
    && Fifo(q') == Fifo(q) && LifoItems(q') == LifoItems(q) && Pending(q') == Pending(q)
    && Spare(q') == Spare(q) && InUse(q') == InUse(q)
    && HeldBlocks(q') == HeldBlocks(q) - {d} && NodeBlocks(q') == NodeBlocks(q)
    && HeldSame(q, q') && SettingsSame(q, q')
  }

  /** free_data_slots picks the bucket of the block's class. */
  lemma FreeBucket(q: Image, d: int)
    requires HeaderOk(q, d) && d in q.place && q.place[d] == Held
    ensures W(q, d, 0) > 0
    ensures var i := BucketOf(W(q, d, 0));
            0 <= i < MEM_SLOTS && CanPush(q, Bucket(i), d) && TopSlot(Bucket(i)) == BucketSlot(i)
  {
    var i :| 0 <= i < CLASSES && Len(q, d) == Capacity(i);
    HeaderRestored(i);
    hide Pow2, Ctz, Capacity;
  }

  lemma StoresInEitherOrder(q: Image, b: int, lo: int, hi: int)
    requires Len(q, b) >= 2
    ensures PutW(PutW(q, b, 1, hi), b, 0, lo) == PutPair(q, b, lo, hi)
  {
    var w := q.blk[b];
    assert w[1 := hi][0 := lo] == w[0 := lo][1 := hi];
  }

  /** The stores of a push, without the history. */
  function PushStores(q: Image, k: StackId, b: int): Image {
    var top, cnt := H(q, TopSlot(k)), H(q, TopSlot(k) + 1);
    PutHPair(PutPair(q, b, top, cnt), TopSlot(k), b, cnt + 1)
  }

  lemma PushHistory(q: Image, k: StackId, b: int)
    requires CanPush(q, k, b)
    ensures Push(q, k, b).h == PushStores(q, k, b).h && Push(q, k, b).blk == PushStores(q, k, b).blk
    ensures Push(q, k, b).place.Keys == q.place.Keys == PushStores(q, k, b).place.Keys
  {
    hide H, W, Len, PutPair, PutHPair, HeaderOk, TopSlot;
    var top, cnt := H(q, TopSlot(k)), H(q, TopSlot(k) + 1);
    PutPairHistory(q, b, top, cnt);
    PutHPairHistory(PutPair(q, b, top, cnt), TopSlot(k), b, cnt + 1);
  }

  lemma PushSlots(q: Image, k: StackId, b: int)
    requires Ok(q) && CanPush(q, k, b)
    ensures b in q.blk && Len(q, b) >= NODE_SIZE && |q.h| == HDR_END
    ensures 0 <= TopSlot(k) < HDR_END - 1 && !Fixed(TopSlot(k)) && !Fixed(TopSlot(k) + 1)
  {
    SlotsDiffer(Items, Items, k);
    assert Plain(SIZE) && Plain(EXPAND_SIZE) && Plain(DATA_ALLOC);
    hide H, W, ListsOk, StacksOk, PlacesOk, Abuts, HeaderOk, TopSlot;
  }

  lemma PushReleased(q: Image, q': Image, k: StackId, d: int)
    requires PushContents(q, q', k, d) && k != Lifo
    ensures Released(q, q', d)
  {
    hide Fifo, LifoItems, Pending, Spare, InUse, HeldBlocks, NodeBlocks, HeldSame, SettingsSame;
  }

  /** A bucket is empty when its word is zero. */
  lemma BucketWord(q: Image, i: int)
    requires Ok(q) && 0 <= i < MEM_SLOTS
    ensures H(q, BucketSlot(i)) == 0 <==> Stack(q, Bucket(i)) == []
    ensures MEM_BKT_START <= BucketSlot(i) && BucketSlot(i) + 1 < BASE && BucketSlot(i) == TopSlot(Bucket(i))
    ensures |q.h| == HDR_END
    ensures !Fixed(BucketSlot(i)) && !Fixed(BucketSlot(i) + 1)
  {
    assert StackOk(q, Bucket(i));
    var c := Stack(q, Bucket(i));
    if c != [] {
      TopBlock(q, Bucket(i));
    }
    hide W, ListsOk, StacksOk, PlacesOk, Abuts;
  }

  /** The block on top of a non-empty bucket, and what popping it and restoring its header does. */
  lemma BucketTop(q: Image, i: int)
    requires Ok(q) && 0 <= i < MEM_SLOTS && Stack(q, Bucket(i)) != []
    ensures i < CLASSES
    ensures var top := H(q, BucketSlot(i));
            top in q.blk && Len(q, top) == Capacity(i) && top >= HDR_END && top + Len(q, top) <= H(q, DATA_ALLOC)
    ensures Capacity(i) >= NODE_SIZE
  {
    BucketWord(q, i);
    assert StackOk(q, Bucket(i));
    TopBlock(q, Bucket(i));
    Pow2Monotone(2, i + 2);
    assert Pow2(2) == 4;
    hide W, H, ListsOk, StacksOk, PlacesOk, Abuts, Capacity;
  }

  function PopStores(q: Image, k: StackId): Image {
    PutHPair(q, TopSlot(k), W(q, H(q, TopSlot(k)), 0), H(q, TopSlot(k) + 1) + 1)
  }

  lemma PopHistory(q: Image, k: StackId)
    requires Ok(q) && ValidId(k) && Stack(q, k) != []
    ensures var q1 := PopStores(q, k);
            && Pop(q, k).h == q1.h && Pop(q, k).blk == q1.blk && Pop(q, k).place.Keys == q1.place.Keys == q.place.Keys
  {
    OkParts(q, Items);
    assert StackOk(q, k);
    hide W, H, Len, PutHPair, TopSlot, StackOk, Ok, PlacesOk, Queued, HeaderOk;
    TopBlock(q, k);
    assert TopSlot(Lifo) == STACK_HEAD by {
      TopOfLifo();
    }
    if k == Lifo {
      TopData(q);
    }
    PutHPairHistory(q, TopSlot(k), W(q, H(q, TopSlot(k)), 0), H(q, TopSlot(k) + 1) + 1);
  }

  lemma TopOfLifo()
    ensures TopSlot(Lifo) == STACK_HEAD
  {
  }

  /** A block of class i is in hand as well, with its header restored; the object has not grown. */
  ghost predicate Taken(q: Image, q': Image, d: int, i: int) {
    && 0 <= i < CLASSES && Gained(q, q', d) && HeaderOk(q', d) && Len(q', d) == Capacity(i)
    && NodeBlocks(q') == NodeBlocks(q) && Spare(q') == Spare(q) && H(q', DATA_ALLOC) == H(q, DATA_ALLOC)
  }

  /** The topmost block of bucket i has been taken; no block was carved, and no other stack has changed. */
  ghost predicate TopTaken(q: Image, q': Image, d: int, i: int) {
    var s := Stack(q, Bucket(i));
    && s != [] && d == s[|s| - 1] && q'.stacks == q.stacks[Bucket(i) := s[..|s| - 1]]
    && q'.blk.Keys == q.blk.Keys && H(q', DATA_ALLOC) == H(q, DATA_ALLOC) && Len(q', d) == Len(q, d)
  }

  /** A freed block has been preferred: the topmost one of the first bucket that can serve the request. */
  ghost predicate Reused(q: Image, q': Image, count: int, d: int) {
    exists i :: FirstFit(q, count, i) && TopTaken(q, q', d, i)
  }

  /** A new block has been carved where the unused space began. */
  ghost predicate CarvedOff(q: Image, q': Image, d: int, n: int) {
    && d == H(q, DATA_ALLOC) && d !in q.blk && q'.blk.Keys == q.blk.Keys + {d}
    && H(q', DATA_ALLOC) == d + n && q'.stacks == q.stacks && Len(q', d) == n
  }

  lemma PopTakesTop(q: Image, i: int, v: int)
    requires Ok(q) && 0 <= i < MEM_SLOTS && Stack(q, Bucket(i)) != []
    ensures var d := H(q, BucketSlot(i)); TopTaken(q, PutW(Pop(q, Bucket(i)), d, 0, v), d, i)
  {
    var k := Bucket(i);
    BucketWord(q, i);
    assert StackOk(q, k);
    PopKeepsAlloc(q, k);
    hide Ok, W, H, Len, PutHPair;
    PutHPairHistory(q, TopSlot(k), W(q, H(q, TopSlot(k)), 0), H(q, TopSlot(k) + 1) + 1);
    LenAside(Pop(q, k), H(q, BucketSlot(i)), v);
    SameBlocks(q, Pop(q, k));
  }

  lemma LenAside(q: Image, d: int, v: int)
    ensures Len(PutW(q, d, 0, v), d) == Len(q, d)
  {
  }

  lemma PopKeepsAlloc(q: Image, k: StackId)
    requires Ok(q) && ValidId(k) && Stack(q, k) != []
    ensures H(Pop(q, k), DATA_ALLOC) == H(q, DATA_ALLOC)
    ensures forall d, v :: H(PutW(Pop(q, k), d, 0, v), DATA_ALLOC) == H(Pop(q, k), DATA_ALLOC)
  {
    hide Ok, W, H, Len, Pop, PutW, PlacesOk;
    PopOk(q, k);
    PopsLens(q, Pop(q, k), k);
    forall d, v ensures H(PutW(Pop(q, k), d, 0, v), DATA_ALLOC) == H(Pop(q, k), DATA_ALLOC) {
      WordAside(Pop(q, k), d, v);
    }
  }

  lemma WordAside(q: Image, d: int, v: int)
    ensures H(PutW(q, d, 0, v), DATA_ALLOC) == H(q, DATA_ALLOC)
  {
  }

  lemma ZeroedTaken(q: Image, q1: Image, q': Image, d: int, i: int, lo: int, hi: int)
    requires TopTaken(q, q1, d, i) && Zeroed(q1, q', d, lo, hi)
    ensures TopTaken(q, q', d, i)
  {
    hide W, Len;
  }

  lemma ReusedIs(q: Image, q': Image, count: int, d: int, i: int)
    requires FirstFit(q, count, i) && TopTaken(q, q', d, i)
    ensures Reused(q, q', count, d)
  {
  }

  lemma CarveIsOff(q: Image, g: Image, n: nat)
    requires Ok(q) && Grown(q, g) && n >= NODE_SIZE
    ensures CarvedOff(q, Carve(g, n), H(q, DATA_ALLOC), n)
  {
    assert |q.h| == HDR_END;
    GrownAlloc(q, g);
    FreshSlot(q);
    hide Ok;
  }

  lemma FreshSlot(q: Image)
    requires Ok(q)
    ensures H(q, DATA_ALLOC) !in q.blk
  {
    hide ListsOk, StacksOk, PlacesOk, Abuts, H;
  }

  /** No bucket that a request may be served from has a block. */
  ghost predicate NoFit(q: Image, count: int) {
    forall k :: 0 <= k < |FitCandidates(count)| ==> Stack(q, Bucket(FitCandidates(count)[k])) == []
  }

  /** Bucket i is the first one in the order of the search that has a block. */
  ghost predicate FirstFit(q: Image, count: int, i: int) {
    exists k :: 0 <= k < |FitCandidates(count)| && i == FitCandidates(count)[k] && Stack(q, Bucket(i)) != []
                && forall j :: 0 <= j < k ==> Stack(q, Bucket(FitCandidates(count)[j])) == []
  }

  lemma FitIsNotNone(q: Image, count: int, i: int)
    requires FirstFit(q, count, i)
    ensures !NoFit(q, count)
  {
  }

  lemma NoCandidates(q: Image, count: int)
    requires count < 4
    ensures NoFit(q, count)
  {
  }

  lemma Candidates(count: int)
    requires count >= 4 && Ctz(count) >= 2
    ensures var first := BucketOf(count);
            && (forall k :: 0 <= k < |FitCandidates(count)| ==> FitCandidates(count)[k] == first + k)
            && |FitCandidates(count)| == if first + 3 <= MEM_SLOTS then 3
               else if first <= MEM_SLOTS then MEM_SLOTS - first else 0
  {
    hide Ctz;
  }

  lemma FoundFirst(q: Image, count: int, k: int)
    requires 0 <= k < |FitCandidates(count)| && Stack(q, Bucket(FitCandidates(count)[k])) != []
    requires forall j :: 0 <= j < k ==> Stack(q, Bucket(FitCandidates(count)[j])) == []
    ensures FirstFit(q, count, FitCandidates(count)[k])
  {
  }

  lemma FirstFitRange(q: Image, slots: int, i: int)
    requires slots >= 8 && Ctz(slots) >= 3 && FirstFit(q, slots, i)
    ensures 1 <= i < MEM_SLOTS && Stack(q, Bucket(i)) != []
  {
  }

  /** Popping a bucket and restoring the header. */
  lemma BucketTaken(q: Image, i: int)
    requires Ok(q) && 1 <= i < CLASSES && Stack(q, Bucket(i)) != []
    ensures var d, q1 := H(q, BucketSlot(i)), Pop(q, Bucket(i));
            q1.blk == q.blk && Ok(PutW(q1, d, 0, Capacity(i))) && Taken(q, PutW(q1, d, 0, Capacity(i)), d, i)
  {
    hide Ok, Fifo, LifoItems, Pending, Spare, InUse, H, W, Len, NodeBlocks, HeldSame, SettingsSame, Pop, Capacity,
         PutW, Pops;
    var k, d, q1 := Bucket(i), H(q, BucketSlot(i)), Pop(q, Bucket(i));
    var q' := PutW(q1, d, 0, Capacity(i));
    BucketWord(q, i);
    BucketTop(q, i);
    PopKeeps(q, k);
    PopOk(q, k);
    PopsLens(q, q1, k);
    PutWEffect(q1, d, 0, Capacity(i));
    assert d in HeldBlocks(q1);
    OkParts(q1, Items);
    assert forall c :: c in HeldBlocks(q1) ==> c in q1.blk;
    ClassAtLeast8(i);
    assert HeaderOk(q', d);
    PutWStores(q1, d, Capacity(i));
    StoresKeep(q1, q', {d});
    SameHeader(q1, q');
    assert SettingsSame(q1, q') by {
      SameSettings(q1, q');
    }
    hide HeldBlocks;
    HeldTwice(q, q1, q', d);
  }

  lemma ClassAtLeast8(i: nat)
    requires i >= 1
    ensures Capacity(i) >= 8
  {
    Pow2Monotone(3, i + 2);
    Pow2Values();
  }

  lemma RestoredIs(i: nat)
    requires i < CLASSES
    ensures RestoredHeader(BucketSlot(i)) == Capacity(i)
  {
    HeaderRestored(i);
  }

  lemma SameSettings(q: Image, q': Image)
    requires q'.h == q.h
    ensures SettingsSame(q, q')
  {
  }

  lemma PopsLens(q: Image, q': Image, k: StackId)
    requires Pops(q, q', k) && ValidId(k)
    ensures (forall b :: Len(q', b) == Len(q, b)) && q'.blk == q.blk && H(q', DATA_ALLOC) == H(q, DATA_ALLOC)
  {
    SlotsDiffer(Items, Items, k);
    assert Plain(DATA_ALLOC);
    SameBlocks(q, q');
    hide W, H, Len;
  }

  lemma PutWStores(q: Image, d: int, v: int)
    ensures Stores(q, PutW(q, d, 0, v), {d})
    ensures forall c :: c in HeldBlocks(q) && c != d ==> c in q.blk ==> PutW(q, d, 0, v).blk[c] == q.blk[c]
  {
    SameHeader(q, PutW(q, d, 0, v));
    hide H;
  }

  lemma FitCapacity(q: Image, n: nat, i: int)
    requires 3 <= n <= 30 && FirstFit(q, Pow2(n), i)
    ensures i >= 0 && Pow2(n) <= Capacity(i) <= 4 * Pow2(n)
  {
    var k :| 0 <= k < |FitCandidates(Pow2(n))| && i == FitCandidates(Pow2(n))[k];
    hide Pow2, FitCandidates, Capacity, Ctz;
    CandidateAt(n, k);
    CapacityAt(n, k);
  }

  /** The memset behind the header. */
  lemma TakenData(q: Image, q1: Image, q': Image, d: int, i: int, slots: nat)
    requires Ok(q1) && Taken(q, q1, d, i) && slots <= Capacity(i) && Zeroed(q1, q', d, 1, slots)
    ensures Ok(q') && GainedData(q, q', d, slots) && Len(q', d) == Capacity(i)
  {
    hide Ok, Fifo, LifoItems, Pending, Spare, InUse, H, W, Len, NodeBlocks, HeldSame, SettingsSame, HeldBlocks,
         Capacity, HeaderOk;
    ZeroedKeeps(q1, q', d, 1, slots);
    HeldTwice(q, q1, q', d);
    ZeroedHeader(q1, q', d, slots);
  }

  lemma ZeroedHeader(q: Image, q': Image, d: int, hi: int)
    requires Zeroed(q, q', d, 1, hi) && HeaderOk(q, d)
    ensures HeaderOk(q', d) && Len(q', d) == Len(q, d) && forall j :: 0 < j < hi ==> W(q', d, j) == 0
  {
    hide W, Len, Capacity;
  }

  /** A new block of a size class. */
  lemma CarvedData(q: Image, q': Image, d: int, n: nat)
    requires 3 <= n <= 30 && CarveContents(q, q', d, Pow2(n)) && d in q'.place && d in q'.blk
    ensures GainedData(q, q', d, Pow2(n)) && Len(q', d) == Pow2(n)
  {
    hide Fifo, LifoItems, Pending, Spare, InUse, H, W, Len, NodeBlocks, HeldSame, SettingsSame, Pow2;
    Pow2Monotone(3, n);
    Pow2Values();
    Pow2Of3();
    assert d in HeldBlocks(q');
    assert Pow2(n) == Capacity(n - 2);
    assert HeaderOk(q', d);
  }

  lemma Pow2Of3()
    ensures Pow2(3) == 8
  {
  }

  lemma SmallerRequest(q: Image, q': Image, d: int, slots: nat, more: nat)
    requires GainedData(q, q', d, more) && slots <= more
    ensures GainedData(q, q', d, slots)
  {
    hide Gained, W, Len, HeaderOk, NodeBlocks, Spare;
  }

  /** Requests of at least eight slots are rounded to a power of two of at least eight, less than twice as large. */
  lemma RoundedRequest(slots: nat) returns (n: nat)
    requires 8 <= slots <= 0x4000_0000
    ensures 3 <= n <= 30 && RoundUp(slots) == Pow2(n) && slots <= Pow2(n) < 2 * slots && Pow2(n) % NODE_SIZE == 0 &&
            Ctz(Pow2(n)) == n
  {
    n := RoundedExponent(slots);
    hide Pow2, Ctz, RoundUp;
    Pow2Values();
    MultipleOf4(n);
  }

  lemma MultipleOf4(n: nat)
    requires n >= 2
    ensures Pow2(n) % NODE_SIZE == 0
    ensures n == 2 ==> Pow2(n) == 4
  {
    var k := Pow2(n - 2);
    assert Pow2(n - 1) == 2 * k;
    assert Pow2(n) == 4 * k;
    hide Pow2;
  }

  lemma GrownSameBlocks(q: Image, q': Image)
    requires Grown(q, q')
    ensures q'.blk == q.blk && q'.stacks == q.stacks
  {
  }

  lemma GrownAlloc(q: Image, q': Image)
    requires Grown(q, q')
    ensures H(q', DATA_ALLOC) == H(q, DATA_ALLOC)
  {
  }

  lemma CarvePlace(q: Image, n: nat)
    requires n > 0
    ensures H(q, DATA_ALLOC) in Carve(q, n).place
  {
  }

  /** The history fields are not in memory. */
  lemma HistoryFits(m: seq<int>, q: Image, q': Image)
    requires Fits(m, q) && q'.h == q.h && q'.blk == q.blk && q'.place.Keys == q.place.Keys
    ensures Fits(m, q')
  {
    SameBlocks(q, q');
    SameHeader(q, q');
    SameShape(q, q');
    hide W, H, Len, Tiled;
  }

  // ------------------------------------------------------------ what add_end and remove_front find

  /**
   * After its two private stores, add_end finds the tail at the last node, which
   * carries its own slot and generation.
   */
  lemma TailIsLast(q: Image, l: ListId, n: int)
    requires Ok(q) && CanAdd(q, l, n)
    ensures !Fixed(ID_CNTR)
    ensures var gen, last := H(q, ID_CNTR), H(q, TailSlot(l));
            var q0 := PutH(q, ID_CNTR, gen + 1);
            var q1 := PutPair(q0, n, n, gen);
            && n in q0.blk && Len(q0, n) == NODE_SIZE && last in q1.blk && Len(q1, last) == NODE_SIZE
            && H(q1, TailSlot(l)) == last && W(q1, last, 0) == last && W(q1, last, 1) == H(q1, TailSlot(l) + 1)
    ensures 0 <= TailSlot(l) < HDR_END - 1 && !Fixed(TailSlot(l)) && !Fixed(TailSlot(l) + 1)
  {
    hide H, W, Len, Ok, PutH, ListOk, PutPair, PlacesOk, StackOk;
    var gen, last := H(q, ID_CNTR), H(q, TailSlot(l));
    OkParts(q, l);
    LastLink(q, l);
    SlotsDiffer(l, l, Lifo);
    assert Plain(ID_CNTR) && Plain(SIZE) && Plain(EXPAND_SIZE) && Plain(DATA_ALLOC);
    var q0 := PutH(q, ID_CNTR, gen + 1);
    PutHEffect(q, ID_CNTR, gen + 1);
    SameBlocks(q, q0);
    PutPairEffect(q0, n, n, gen);
    SameHeader(q0, PutPair(q0, n, n, gen));
  }

  lemma LastLink(q: Image, l: ListId)
    requires Ok(q)
    ensures var last := H(q, TailSlot(l));
            last in q.blk && Len(q, last) == NODE_SIZE && W(q, last, 0) == last &&
              W(q, last, 1) == H(q, TailSlot(l) + 1)
    ensures |q.h| == HDR_END && H(q, TailSlot(l)) in q.place && q.place[H(q, TailSlot(l))].OnList?
  {
    OkParts(q, l);
    hide H, W, Len, PlacesOk, StackOk, StacksOk;
    LastNode(q, l);
  }

  /** The stores of add_end leave the history to be brought up to date. */
  lemma AddHistory(q: Image, l: ListId, n: int)
    requires CanAdd(q, l, n)
    ensures AddEnd(q, l, n).h == AddStores(q, l, n).h && AddEnd(q, l, n).blk == AddStores(q, l, n).blk
    ensures AddEnd(q, l, n).place.Keys == q.place.Keys == AddStores(q, l, n).place.Keys
  {
    hide H, W, Len, HeaderOk, PutPair, PutHPair, PutH;
    PutsKeepPlaces(q, l, n);
  }

  lemma PutsKeepPlaces(q: Image, l: ListId, n: int)
    ensures AddStores(q, l, n) == q.(h := AddStores(q, l, n).h, blk := AddStores(q, l, n).blk)
  {
    var gen, last := H(q, ID_CNTR), H(q, TailSlot(l));
    var q0 := PutH(q, ID_CNTR, gen + 1);
    var q1 := PutPair(q0, n, n, gen);
    var q2 := PutPair(q1, last, n, gen);
    assert q0 == q.(h := q0.h);
    hide H, W, PutH, PutPair, PutHPair;
    PutPairHistory(q0, n, n, gen);
    PutPairHistory(q1, last, n, gen);
    PutHPairHistory(q2, TailSlot(l), n, gen);
  }

  lemma PutPairHistory(q: Image, b: int, lo: int, hi: int)
    ensures PutPair(q, b, lo, hi) == q.(blk := PutPair(q, b, lo, hi).blk)
  {
  }

  lemma PutHPairHistory(q: Image, i: int, lo: int, hi: int)
    ensures PutHPair(q, i, lo, hi) == q.(h := PutHPair(q, i, lo, hi).h)
  {
  }

  /** What remove_front finds at the head of a list. */
  lemma HeadIsFirst(q: Image, l: ListId)
    requires Ok(q)
    ensures 0 <= HeadSlot(l) < HDR_END - 1 && 0 <= TailSlot(l) < HDR_END - 1 && !Fixed(HeadSlot(l))
    ensures !Fixed(HeadSlot(l) + 1)
    ensures var ref := H(q, HeadSlot(l));
            ref in q.blk && ref >= HDR_END && Len(q, ref) == NODE_SIZE && |q.h| == HDR_END
  {
    SlotsDiffer(l, l, Lifo);
    OkParts(q, l);
    hide H, W, PlacesOk, StackOk, StacksOk;
    assert Plain(SIZE) && Plain(EXPAND_SIZE) && Plain(DATA_ALLOC);
    var c := Get(q, l);
    assert Len(q, c.log[c.front]) == NODE_SIZE && c.log[c.front] in q.place;
  }

  /** The stores of remove_front, without the history. */
  function RemoveStores(q: Image, l: ListId): Image {
    var ref := H(q, HeadSlot(l));
    PutPair(PutHPair(q, HeadSlot(l), W(q, ref, 0), H(q, HeadSlot(l) + 1) + 1), ref, 0, 0)
  }

  lemma RemoveHistory(q: Image, l: ListId)
    requires Ok(q) && !Empty(q, l)
    ensures RemoveFront(q, l).h == RemoveStores(q, l).h && RemoveFront(q, l).blk == RemoveStores(q, l).blk
    ensures RemoveFront(q, l).place.Keys == q.place.Keys == RemoveStores(q, l).place.Keys
  {
    hide H, W, Len, PutPair, PutHPair, HeaderOk, ListOk, PlacesOk, StackOk, Ok, Empty, HeadSlot, Queued;
    var ref := H(q, HeadSlot(l));
    PutHPairHistory(q, HeadSlot(l), W(q, ref, 0), H(q, HeadSlot(l) + 1) + 1);
    PutPairHistory(PutHPair(q, HeadSlot(l), W(q, ref, 0), H(q, HeadSlot(l) + 1) + 1), ref, 0, 0);
    OkParts(q, l);
    FrontNodes(q, l);
    assert HeadSlot(Items) == HEAD by {
      hide H;
      HeadOfItems();
    }
    if l == Items {
      FrontData(q);
    }
  }

  lemma EmptyIff(q: Image, l: ListId)
    ensures Empty(q, l) <==> H(q, HeadSlot(l)) == H(q, TailSlot(l))
  {
  }

  lemma HeadOfItems()
    ensures HeadSlot(Items) == HEAD
  {
  }

  /** The removed node is zeroed, and an item's data block is in hand with its words. */
  ghost predicate InHand(q: Image, q': Image, l: ListId) {
    var ref := H(q, HeadSlot(l));
    var next := W(q, ref, 0);
    && CanAdd(q', Free, ref) && W(q', ref, 0) == 0 && W(q', ref, 1) == 0
    && (l == Items ==>
          var d := W(q, next, VALUE_OFFSET);
          d != ref && d in q'.place && q'.place[d] == Held && HeaderOk(q', d) && d in q.blk && d in q'.blk &&
              q'.blk[d] == q.blk[d])
  }

  lemma RemovedInHand(q: Image, l: ListId)
    requires Ok(q) && !Empty(q, l)
    ensures InHand(q, RemoveFront(q, l), l)
  {
    hide Ok, RemoveFront, H, W, Len, PlacesOk, StackOk, ListOk, Empty, HeaderOk, Queued, Removes, Touches, HeadSlot;
    var q' := RemoveFront(q, l);
    RemoveFrontOk(q, l);
    OkParts(q, l);
    FrontNodes(q, l);
    RemovesTouches(q, q', l);
    HeadOfItems();
    var ref := H(q, HeadSlot(l));
    assert CanAdd(q', Free, ref) && W(q', ref, 0) == 0 && W(q', ref, 1) == 0 by {
      RemovedNode(q, q', l);
    }
    if l == Items {
      FrontData(q);
      var d := W(q, W(q, ref, 0), VALUE_OFFSET);
      HeaderKept(q, q', d, {ref}, RemPlaces(q, l), {HeadSlot(l), HeadSlot(l) + 1});
      SameWords(q, q', d, {ref}, RemPlaces(q, l), {HeadSlot(l), HeadSlot(l) + 1});
      assert q'.place[d] == Held by {
        RemovedNode(q, q', l);
      }
    }
  }

  lemma RemovedNode(q: Image, q': Image, l: ListId)
    requires Removes(q, q', l) && Len(q, H(q, HeadSlot(l))) == NODE_SIZE && H(q, HeadSlot(l)) in q.place
    ensures var ref := H(q, HeadSlot(l));
            && ref in q'.place && q'.place[ref] == Held && Len(q', ref) == NODE_SIZE && W(q', ref, 0) == 0
            && W(q', ref, 1) == 0
            && (l == Items ==> var d := W(q, W(q, ref, 0), VALUE_OFFSET); d in q'.place && q'.place[d] == Held)
  {
    hide H, W, Len, HeadSlot;
  }

  // ------------------------------------------------------------ the new object

  /** The header of a newly created queue, word by word. */
  function NewHeader(i: int): int {
    if i == SIZE then PAGE_SLOTS
    else if i == EXPAND_SIZE then PAGE_SIZE
    else if i == DATA_ALLOC then HDR_END + 3 * NODE_SIZE
    else if i == ID_CNTR then 3
    else if i == FREE_HEAD || i == FREE_TAIL then HDR_END
    else if i == EVENT_HEAD || i == EVENT_TAIL then HDR_END + NODE_SIZE
    else if i == EVENT_HEAD + 1 || i == EVENT_TAIL + 1 then 1
    else if i == HEAD || i == TAIL then HDR_END + 2 * NODE_SIZE
    else if i == HEAD + 1 || i == TAIL + 1 then 2
    else 0
  }

  /** The image of a newly created queue: three lists, each with just its dummy. */
  function NewImage(): Image {
    Image(
      seq(HDR_END, i => NewHeader(i)),
      map[HDR_END := [HDR_END, 0, 0, 0],
          HDR_END + 4 := [HDR_END + 4, 1, 0, 0],
          HDR_END + 8 := [HDR_END + 8, 2, 0, 0]],
      map[HDR_END := OnList(Free, 0), HDR_END + 4 := OnList(Events, 0), HDR_END + 8 := OnList(Items, 0)],
      Chain([HDR_END + 8], 0),
      Chain([HDR_END + 4], 0),
      Chain([HDR_END], 0),
      map[])
  }

  lemma NewBlocks()
    ensures var q := NewImage();
            && q.blk.Keys == {HDR_END, HDR_END + 4, HDR_END + 8} == q.place.Keys && |q.h| == HDR_END
            && Len(q, HDR_END) == 4 && Len(q, HDR_END + 4) == 4 && Len(q, HDR_END + 8) == 4
            && H(q, DATA_ALLOC) == HDR_END + 12
  {
  }

  lemma NewAbuts(b: int)
    requires b in NewImage().blk
    ensures Abuts(NewImage(), b)
  {
    hide NewImage, H, Len;
    NewBlocks();
    assert b == HDR_END || b == HDR_END + 4 || b == HDR_END + 8;
  }

  lemma NewTiled()
    ensures Tiled(NewImage())
  {
    hide NewImage, H, Len, Abuts, Tiled;
    NewBlocks();
    var q := NewImage();
    forall b | b in q.blk ensures Abuts(q, b) {
      NewAbuts(b);
    }
    TiledIf(q);
  }

  lemma NewList(l: ListId)
    ensures ListOk(NewImage(), l)
  {
    var q := NewImage();
    match l
    case Items =>
    case Events =>
    case Free =>
  }

  lemma NewStack(k: StackId)
    requires ValidId(k)
    ensures StackOk(NewImage(), k)
  {
    var q := NewImage();
    assert Stack(q, k) == [];
    assert H(q, TopSlot(k)) == 0 by {
      assert TopSlot(k) == STACK_HEAD || (MEM_BKT_START <= TopSlot(k) < BASE);
    }
  }

  lemma NewPlaces()
    ensures PlacesOk(NewImage())
  {
  }

  /** A new queue is in order and empty. */
  lemma NewOk()
    ensures Ok(NewImage())
    ensures Fifo(NewImage()) == [] && LifoItems(NewImage()) == [] && Pending(NewImage()) == []
    ensures HeldBlocks(NewImage()) == {} && |NodeBlocks(NewImage())| == 3 && Spare(NewImage()) == 0
    ensures InUse(NewImage()) == 0
  {
    hide NewImage, ListOk, StackOk, Tiled, PlacesOk, Fifo, LifoItems, Pending, InUse, Spare, HeldBlocks, NodeBlocks;
    NewContents();
    NewSets();
    NewTiled();
    NewPlaces();
    NewList(Items);
    NewList(Events);
    NewList(Free);
    forall k | ValidId(k) ensures StackOk(NewImage(), k) {
      NewStack(k);
    }
  }

  lemma NewContents()
    ensures var q := NewImage();
            Fifo(q) == [] && LifoItems(q) == [] && Pending(q) == [] && Spare(q) == 0 && InUse(q) == 0
  {
  }

  lemma NewSets()
    ensures HeldBlocks(NewImage()) == {} && |NodeBlocks(NewImage())| == 3
  {
    var q := NewImage();
    assert HeldBlocks(q) == {};
    NewBlocks();
    hide NewImage, Len;
    assert NodeBlocks(q) == {HDR_END, HDR_END + 4, HDR_END + 8};
  }

  /**
   * What prime_list writes: a block of one node, which carries its own slot and
   * generation, at both ends of the list.
   */
  ghost predicate Primes(m: seq<int>, m': seq<int>, head: int, tail: int)
    requires |m| == |m'| == PAGE_SLOTS && HDR_END <= m[DATA_ALLOC] < PAGE_SLOTS - NODE_SIZE
    requires 0 <= head < HDR_END - 1 && 0 <= tail < HDR_END - 1
  {
    var a, gen := m[DATA_ALLOC], m[ID_CNTR];
    && m'[DATA_ALLOC] == a + NODE_SIZE && m'[ID_CNTR] == gen + 1
    && m'[head] == a && m'[head + 1] == gen && m'[tail] == a && m'[tail + 1] == gen && m'[a] == a && m'[a + 1] == gen
    && forall i :: 0 <= i < PAGE_SLOTS && i !in {DATA_ALLOC, ID_CNTR, head, head + 1, tail, tail + 1, a, a + 1} ==>
         m'[i] == m[i]
  }

  lemma NewFits(m: seq<int>)
    requires |m| == PAGE_SLOTS
    requires forall i :: 0 <= i < HDR_END ==> m[i] == NewHeader(i)
    requires m[HDR_END] == HDR_END && m[HDR_END + 1] == 0
    requires m[HDR_END + 4] == HDR_END + 4 && m[HDR_END + 5] == 1
    requires m[HDR_END + 8] == HDR_END + 8 && m[HDR_END + 9] == 2
    requires forall i :: HDR_END <= i < PAGE_SLOTS && (i >= HDR_END + 12 || (i - HDR_END) % 4 >= 2) ==> m[i] == 0
    ensures Fits(m, NewImage())
  {
    NewTiled();
    var q := NewImage();
    assert H(q, DATA_ALLOC) == HDR_END + 12;
    hide Tiled;
  }

  /** The whole of shared memory and the one mapping of it. */
  class Base {
    /** The current extent. */
    var mem: array<int>
    ghost var q: Image
    /** How often the operating system has refused to extend the file or to map it. */
    ghost var denied: nat

    /** A new object of one page, with the three lists primed. */
    constructor ()
      ensures Valid() && q == NewImage() && fresh(mem) && denied == 0
    {
      hide NewImage, Fits, Ok, Fifo, LifoItems, Pending, HeldBlocks, NodeBlocks, Spare, InUse;
      var page := new int[PAGE_SLOTS](i => 0);
      page[SIZE] := PAGE_SLOTS;
      page[EXPAND_SIZE] := PAGE_SIZE;
      page[DATA_ALLOC] := HDR_END;
      PrimeList(page, FREE_HEAD, FREE_TAIL);
      PrimeList(page, EVENT_HEAD, EVENT_TAIL);
      PrimeList(page, HEAD, TAIL);
      NewFits(page[..]);
      NewOk();
      mem, q, denied := page, NewImage(), 0;
    }

    /** Makes a list with a single dummy node. */
    static method PrimeList(page: array<int>, head: int, tail: int)
      requires page.Length == PAGE_SLOTS && HDR_END <= page[DATA_ALLOC] < PAGE_SLOTS - NODE_SIZE
      requires 0 <= head < HDR_END - 1 && 0 <= tail < HDR_END - 1
      requires {head, head + 1} !! {tail, tail + 1} !! {DATA_ALLOC, ID_CNTR}
      modifies page
      ensures Primes(old(page[..]), page[..], head, tail)
    {
      var slot := page[DATA_ALLOC];
      page[DATA_ALLOC] := slot + NODE_SIZE;
      page[slot] := NODE_SIZE;
      page[head] := slot;
      page[head + 1] := page[ID_CNTR];
      page[ID_CNTR] := page[ID_CNTR] + 1;
      page[tail] := slot;
      page[tail + 1] := page[head + 1];
      page[slot] := page[tail];
      page[slot + 1] := page[tail + 1];
    }

    ghost predicate Shaped()
      reads this, mem
    {
      Fits(mem[..], q)
    }

    ghost predicate Valid()
      reads this, mem
    {
      Shaped() && Ok(q)
    }

    // ---------------------------------------------------------- words

    /** A store into a block. */
    method Store(ghost b: int, slot: int, v: int)
      requires Shaped() && b in q.blk && b <= slot < b + Len(q, b)
      modifies this`q, mem
      ensures Shaped() && q == PutW(old(q), b, slot - b, v)
    {
      StoreFits(mem[..], q, b, slot - b, v);
      hide *;
      ghost var m := mem[..];
      mem[slot] := v;
      assert mem[..] == m[slot := v];
      q := PutW(q, b, slot - b, v);
    }

    method StoreHeader(i: int, v: int)
      requires Shaped() && 0 <= i < HDR_END && !Fixed(i)
      modifies this`q, mem
      ensures Shaped() && q == PutH(old(q), i, v)
    {
      StoreHeaderFits(mem[..], q, i, v);
      hide *;
      ghost var m := mem[..];
      mem[i] := v;
      assert mem[..] == m[i := v];
      q := PutH(q, i, v);
    }

    lemma HeaderWord(i: int)
      requires Shaped() && 0 <= i < HDR_END
      ensures i < mem.Length && mem[i] == H(q, i)
    {
      hide H, W, Len;
    }

    lemma BlockWord(b: int, j: int)
      requires Shaped() && b in q.blk && 0 <= j < Len(q, b)
      ensures HDR_END <= b && b + j < mem.Length && mem[b + j] == W(q, b, j)
    {
      assert b + Len(q, b) <= H(q, DATA_ALLOC);
      hide H, W, Len;
      assert mem[..][b + j] == W(q, b, j);
    }

    /** Stores into the first two words of a block. */
    method StoreLink(n: int, lo: int, hi: int)
      requires Shaped() && n in q.blk && Len(q, n) >= 2
      modifies this`q, mem
      ensures Shaped() && q == PutPair(old(q), n, lo, hi) && q.h == old(q.h)
    {
      PutWEffect(q, n, 0, lo);
      hide W, H, Len, Fits;
      Store(n, n, lo);
      Store(n, n + 1, hi);
    }

    /** DWCAS on the first two words of a node. */
    method DwcasNode(n: int, was: Pair, next: Pair) returns (ok: bool)
      requires Shaped() && n in q.blk && Len(q, n) >= 2
      modifies this`q, mem
      ensures Shaped()
      ensures ok <==> W(old(q), n, 0) == was.lo && W(old(q), n, 1) == was.hi
      ensures q == (if ok then PutPair(old(q), n, next.lo, next.hi) else old(q)) && q.h == old(q.h)
    {
      BlockWord(n, 0);
      BlockWord(n, 1);
      hide W, H, Len, Fits;
      ok := mem[n] == was.lo && mem[n + 1] == was.hi;
      if ok {
        StoreLink(n, next.lo, next.hi);
      }
    }

    /** DWCAS on two words of the header. */
    method DwcasHeader(i: int, was: Pair, next: Pair) returns (ok: bool)
      requires Shaped() && 0 <= i < HDR_END - 1 && !Fixed(i) && !Fixed(i + 1)
      modifies this`q, mem
      ensures Shaped()
      ensures ok <==> H(old(q), i) == was.lo && H(old(q), i + 1) == was.hi
      ensures q == if ok then PutHPair(old(q), i, next.lo, next.hi) else old(q)
    {
      HeaderWord(i);
      HeaderWord(i + 1);
      hide W, H, Len, Fits;
      ok := mem[i] == was.lo && mem[i + 1] == was.hi;
      if ok {
        StoreHeader(i, next.lo);
        StoreHeader(i + 1, next.hi);
      }
    }

    // ---------------------------------------------------------- lists

    /** The retry loop of add_end: undisturbed, the first round finds the tail at the last node and links. */
    method LinkLast(l: ListId, after: Pair)
      requires Shaped() && 0 <= TailSlot(l) < HDR_END - 1 && !Fixed(TailSlot(l)) && !Fixed(TailSlot(l) + 1)
      requires var last := H(q, TailSlot(l));
               last in q.blk && Len(q, last) == NODE_SIZE && W(q, last, 0) == last &&
                 W(q, last, 1) == H(q, TailSlot(l) + 1)
      modifies this`q, mem
      ensures Shaped()
      ensures q == PutHPair(PutPair(old(q), H(old(q), TailSlot(l)), after.lo, after.hi), TailSlot(l), after.lo,
                after.hi)
    {
      ghost var q1 := q;
      var tail := TailSlot(l);
      ghost var q2 := PutHPair(PutPair(q1, H(q1, tail), after.lo, after.hi), tail, after.lo, after.hi);
      hide W, H, Len, PutPair, PutHPair, Fits, TailSlot, Fixed;
      var done := false;
      while !done
        invariant Shaped()
        invariant !done ==> q == q1
        invariant done ==> q == q2
        decreases !done
      {
        HeaderWord(tail);
        HeaderWord(tail + 1);
        BlockWord(H(q, tail), 0);
        var before := Pair(mem[tail], mem[tail + 1]);
        if before.lo == mem[before.lo] {
          done := DwcasNode(before.lo, before, after);
          if done {
            SameHeader(q1, q);
            var _ := DwcasHeader(tail, before, after);
          }
        } else {
          assert false;
        }
      }
    }

    /** Appends a node to the end of a list. */
    method AddEnd(slot: int, l: ListId)
      requires Valid() && CanAdd(q, l, slot)
      modifies this`q, mem
      ensures Valid() && q == ImageOps.AddEnd(old(q), l, slot)
      ensures AddContents(old(q), q, l, slot)
    {
      ghost var q0 := q;
      hide Ok, CanAdd, AddContents, W, H, Len, ImageOps.AddEnd, PutPair, PutH, PutHPair, Setting, Plain, Fits,
           TailSlot, Fixed;
      AddEndContents(q, l, slot);
      TailIsLast(q, l, slot);
      AddHistory(q, l, slot);
      HeaderWord(ID_CNTR);
      var gen := mem[ID_CNTR];
      StoreHeader(ID_CNTR, gen + 1);
      StoreLink(slot, slot, gen);
      LinkLast(l, Pair(slot, gen));
      HistoryFits(mem[..], q, ImageOps.AddEnd(q0, l, slot));
      q := ImageOps.AddEnd(q0, l, slot);
    }

    /** Takes the node `ref` off the front of a list, if it is there and not the last one. */
    method RemoveFront(ref: int, gen: int, l: ListId) returns (r: int)
      requires Valid() && ref == H(q, HeadSlot(l)) && gen == H(q, HeadSlot(l) + 1)
      modifies this`q, mem
      ensures Valid()
      ensures Empty(old(q), l) ==> r == 0 && q == old(q)
      ensures !Empty(old(q), l) ==>
                && r == ref && r != 0 && q == ImageOps.RemoveFront(old(q), l)
                && RemoveContents(old(q), q, l) && InHand(old(q), q, l)
    {
      hide Ok, RemoveContents, InHand, W, H, Len, ImageOps.RemoveFront, PutPair, PutHPair, Fits, TailSlot, HeadSlot,
           Fixed, Empty;
      ghost var q0 := q;
      HeadIsFirst(q, l);
      HeaderWord(TailSlot(l));
      EmptyIff(q, l);
      if ref >= BASE && ref != mem[TailSlot(l)] {
        RemoveFrontContents(q, l);
        RemovedInHand(q, l);
        RemoveHistory(q, l);
        BlockWord(ref, 0);
        ghost var next := W(q, ref, 0);
        PutHPairHistory(q, HeadSlot(l), next, gen + 1);
        var ok := DwcasHeader(HeadSlot(l), Pair(ref, gen), Pair(mem[ref], gen + 1));
        if ok {
          SameBlocks(q0, q);
          StoreLink(ref, 0, 0);
          HistoryFits(mem[..], q, ImageOps.RemoveFront(q0, l));
          q := ImageOps.RemoveFront(q0, l);
          return ref;
        }
      }
      return 0;
    }

    // ---------------------------------------------------------- growing

    /** A CAS on one of the two size words. */
    method CasSize(i: int, was: int, v: int) returns (ok: bool)
      requires Shaped() && (i == SIZE || i == EXPAND_SIZE)
      requires H(q, i) == was ==> SizeFor(mem.Length, q, i, v)
      modifies this`q, mem
      ensures Shaped() && Grown(old(q), q)
      ensures ok <==> H(old(q), i) == was
      ensures q == if ok then PutH(old(q), i, v) else old(q)
    {
      HeaderWord(i);
      ok := mem[i] == was;
      if ok {
        SizeFits(mem[..], q, i, v);
        hide Fits, SizeFor, PutH, Grown, H;
        ghost var m := mem[..];
        mem[i] := v;
        assert mem[..] == m[i := v];
        q := PutH(q, i, v);
      }
    }

    /** Maps the object at its published size, if the operating system lets it. */
    method ResizeExtent() returns (ok: bool)
      requires Shaped() && mem.Length < H(q, SIZE)
      modifies this`mem, this`denied
      ensures Shaped()
      ensures ok ==> fresh(mem) && mem.Length == H(q, SIZE) && denied == old(denied)
      ensures !ok ==> mem == old(mem) && denied == old(denied) + 1
    {
      HeaderWord(SIZE);
      ok := *;
      if !ok {
        denied := denied + 1;
        return;
      }
      var was := mem;
      var next := new int[mem[SIZE]](i requires 0 <= i reads this, mem => if i < mem.Length then mem[i] else 0);
      assert forall i :: 0 <= i < next.Length ==> next[i] == if i < was.Length then was[i] else 0;
      RemapFits(mem[..], q, next[..]);
      hide Fits, H;
      mem := next;
    }

    /** The CAS that announces a larger size, unless one is announced already. */
    method Announce(slots: nat)
      requires Shaped() && slots > 0 && mem.Length == H(q, SIZE)
      modifies this`q, mem
      ensures Shaped() && Grown(old(q), q) && H(q, SIZE) == H(old(q), SIZE) && H(q, EXPAND_SIZE) > H(q, SIZE) * 8
      ensures H(old(q), EXPAND_SIZE) == H(old(q), SIZE) * 8 ==>
                (mem.Length + slots) * 8 < H(q, EXPAND_SIZE) <= (mem.Length + slots) * 8 + PAGE_SIZE
    {
      hide Fits, PutH, H, Growth.ReallocSize, SizeFor, Grown;
      ghost var q0 := q;
      Sizes();
      HeaderWord(SIZE);
      GrownSteps(q, q, q);
      Growth.ReallocGrows(mem.Length, slots);
      var size := Growth.ReallocSize(mem.Length * 8, slots);
      var prev := mem[SIZE] * 8;
      if size > prev {
        MayAnnounce(mem.Length, q, size);
        var _ := CasSize(EXPAND_SIZE, prev, size);
        Sizes();
      }
    }

    /** No expansion is under way. */
    ghost predicate Settled()
      reads this, mem
    {
      mem.Length == H(q, SIZE) && H(q, EXPAND_SIZE) == H(q, SIZE) * 8
    }

    /**
     * Announces a larger size, has the file extended, publishes the size and maps
     * it; or completes what was begun before.
     */
    method Expand(slots: nat) returns (ok: bool)
      requires Shaped() && slots > 0
      modifies this, mem
      ensures Shaped() && Grown(old(q), q)
      ensures ok ==> fresh(mem) && mem.Length > old(mem.Length) && denied == old(denied) && Settled()
      ensures ok && old(Settled()) ==> old(mem.Length) + slots < mem.Length <= old(mem.Length) + slots + PAGE_SLOTS
      ensures !ok ==> mem == old(mem) && denied == old(denied) + 1
    {
      hide Fits, PutH, H, SizeFor, Grown;
      ghost var q0 := q;
      Sizes();
      HeaderWord(SIZE);
      GrownSteps(q, q, q);
      if mem.Length != mem[SIZE] {
        ok := ResizeExtent();
        return;
      }
      Announce(slots);
      ghost var q1 := q;
      Sizes();
      HeaderWord(SIZE);
      HeaderWord(EXPAND_SIZE);
      var granted: bool := *;
      if !granted {
        denied := denied + 1;
        return false;
      }
      MayPublish(mem.Length, q);
      var _ := CasSize(SIZE, mem[SIZE], mem[EXPAND_SIZE] / 8);
      GrownSteps(q0, q1, q);
      HeaderWord(SIZE);
      ok := true;
      if mem.Length != mem[SIZE] {
        ok := ResizeExtent();
      }
    }

    lemma Sizes()
      requires Shaped()
      ensures mem.Length > HDR_END && mem.Length % PAGE_SLOTS == 0 && mem.Length <= H(q, SIZE) &&
              H(q, SIZE) * 8 <= H(q, EXPAND_SIZE)
      ensures H(q, SIZE) % PAGE_SLOTS == 0 && H(q, EXPAND_SIZE) % PAGE_SIZE == 0 && |q.h| == HDR_END
      ensures mem.Length < H(q, SIZE) ==> H(q, EXPAND_SIZE) == H(q, SIZE) * 8
    {
    }

    /**
     * Makes sure that the slots from `start` on are mapped, with one to spare;
     * the object grows only if they are not, and in at most two rounds.
     */
    method InsureFit(start: int, slots: nat) returns (ok: bool, ghost rounds: nat)
      requires Shaped() && start >= BASE && slots > 0
      modifies this, mem
      ensures Shaped() && Grown(old(q), q)
      ensures ok ==> start + slots < mem.Length && denied == old(denied)
      ensures !ok ==> denied == old(denied) + 1
      ensures mem == old(mem) || fresh(mem)
      ensures start + slots < old(mem.Length) ==> ok && mem == old(mem) && q == old(q)
      ensures start < old(mem.Length) ==> rounds <= 2
    {
      ghost var q0 := q;
      GrownSteps(q, q, q);
      hide Fits, Grown, Settled;
      ok := true;
      rounds := 0;
      while start + slots >= mem.Length
        invariant Shaped() && Grown(q0, q)
        invariant mem == old(mem) || fresh(mem)
        invariant denied == old(denied) && ok
        invariant start + slots < old(mem.Length) ==> mem == old(mem) && q == q0
        invariant rounds > 0 ==> Settled()
        invariant start < old(mem.Length) ==> rounds <= 2
        invariant mem.Length >= old(mem.Length)
        invariant (rounds > 1 && start < old(mem.Length) ==> start + slots < mem.Length)
        decreases start + slots - mem.Length
      {
        ghost var q1 := q;
        rounds := rounds + 1;
        ok := Expand(slots);
        GrownSteps(q0, q1, q);
        if !ok {
          return;
        }
      }
    }

    // ---------------------------------------------------------- allocating

    /** The CAS on DATA_ALLOC that takes the block, and the store of its size. */
    method CommitCarve(slots: nat)
      requires Shaped() && slots >= NODE_SIZE && slots % NODE_SIZE == 0 && H(q, DATA_ALLOC) + slots < mem.Length
      modifies this`q, mem
      ensures Shaped() && q == Carve(old(q), slots) && H(old(q), DATA_ALLOC) in q.place
    {
      CarveFits(mem[..], q, slots);
      CarvePlace(q, slots);
      HeaderWord(DATA_ALLOC);
      hide Fits, H, Carve;
      ghost var m := mem[..];
      var nodeAlloc := mem[DATA_ALLOC];
      mem[DATA_ALLOC] := nodeAlloc + slots;
      mem[nodeAlloc] := slots;
      assert mem[..] == m[DATA_ALLOC := nodeAlloc + slots][nodeAlloc := slots];
      q := Carve(q, slots);
    }

    /** Carves a block from the free space; fails only if the operating system does. */
    method AllocNewData(slots: nat) returns (slot: int)
      requires Valid() && slots >= NODE_SIZE && slots % NODE_SIZE == 0
      modifies this, mem
      ensures Valid() && (mem == old(mem) || fresh(mem))
      ensures slot == 0 ==> denied == old(denied) + 1 && Unmoved(old(q), q)
      ensures slot == 0 ==> q.blk == old(q).blk && q.stacks == old(q).stacks
      ensures slot != 0 ==>
                denied == old(denied) && slot >= HDR_END && slot in q.place && CarveContents(old(q), q, slot, slots)
      ensures slot != 0 ==> CarvedOff(old(q), q, slot, slots)
    {
      hide Fits, Grown, H, Ok, Unmoved, CarveContents, Carve, CarvedOff;
      ghost var q0 := q;
      HeaderWord(DATA_ALLOC);
      AllocInSpace();
      var nodeAlloc := mem[DATA_ALLOC];
      var allocEnd := nodeAlloc + slots;
      var ok, _ := InsureFit(nodeAlloc, slots);
      GrownUnmoved(q0, q);
      GrownSameBlocks(q0, q);
      if !ok {
        return 0;
      }
      Sizes();
      HeaderWord(SIZE);
      HeaderWord(DATA_ALLOC);
      GrownAlloc(q0, q);
      if allocEnd < mem[SIZE] && mem[DATA_ALLOC] == nodeAlloc {
        GrownThenCarved(q0, q, slots);
        CarveIsOff(q0, q, slots);
        CommitCarve(slots);
        return nodeAlloc;
      }
      return 0;
    }

    lemma AllocInSpace()
      requires Shaped()
      ensures HDR_END <= H(q, DATA_ALLOC) < mem.Length
    {
    }

    /** memset of words lo..hi of a block. */
    method Clear(b: int, lo: nat, hi: nat)
      requires Shaped() && b in q.blk && lo <= hi <= Len(q, b)
      modifies this`q, mem
      ensures Shaped() && Zeroed(old(q), q, b, lo, hi)
    {
      ghost var q0 := q;
      ZeroedNone(q, b, lo);
      hide Fits, PutW, W;
      for i := lo to hi
        invariant Shaped() && Zeroed(q0, q, b, lo, i)
      {
        ghost var q1 := q;
        hide Zeroed, Len;
        assert b in q.blk && Len(q, b) == Len(q0, b) by {
          ZeroedLen(q0, q, b, lo, i);
        }
        Store(b, b + i, 0);
        ZeroedMore(q0, q1, q, b, lo, i);
      }
    }

    /** Takes a node from the pool of free nodes, if there is one. */
    method ReallocPooledMem() returns (slot: int)
      requires Valid()
      modifies this, mem
      ensures Valid() && mem == old(mem) && denied == old(denied)
      ensures slot == 0 <==> Spare(old(q)) == 0
      ensures slot == 0 ==> q == old(q)
      ensures slot != 0 ==> GainedNode(old(q), q, slot)
    {
      hide Fits, Ok, H, W, Len, RemoveContents, InHand, Empty, GainedNode, Zeroed, Grown, ImageOps.RemoveFront;
      ghost var q0 := q;
      NoneBehind(q, Free);
      EmptyIff(q, Free);
      HeaderWord(FREE_HEAD);
      HeaderWord(FREE_HEAD + 1);
      HeaderWord(FREE_TAIL);
      var gen := mem[FREE_HEAD + 1];
      slot := mem[FREE_HEAD];
      if slot == mem[FREE_TAIL] {
        return 0;
      }
      slot := RemoveFront(slot, gen, Free);
      ghost var q1 := q;
      NodeInSpace(q0, q, slot);
      var ok, _ := InsureFit(slot, NODE_SIZE);
      if ok {
        Clear(slot, 0, NODE_SIZE);
        PoolNode(q0, q1, q, slot);
      }
    }

    lemma NodeInSpace(q0: Image, q1: Image, n: int)
      requires Shaped() && q1 == q && n == H(q0, FREE_HEAD) && InHand(q0, q1, Free)
      ensures n in q.blk && n >= HDR_END && n + NODE_SIZE < mem.Length && Len(q, n) == NODE_SIZE
    {
      hide W;
    }

    /** A node, from the pool or newly carved. */
    method AllocIdxSlots() returns (slot: int)
      requires Valid()
      modifies this, mem
      ensures Valid() && (mem == old(mem) || fresh(mem))
      ensures slot == 0 ==> denied == old(denied) + 1 && Unmoved(old(q), q)
      ensures slot != 0 ==> denied == old(denied) && GainedNode(old(q), q, slot)
      ensures Spare(old(q)) > 0 ==> slot != 0
    {
      hide Fits, Ok, GainedNode, CarveContents, Unmoved, Spare;
      ghost var q0 := q;
      slot := ReallocPooledMem();
      if slot == 0 {
        slot := AllocNewData(NODE_SIZE);
        if slot != 0 {
          CarvedNode(q0, q, slot);
        }
      }
    }

    // ---------------------------------------------------------- data blocks

    /** Puts a data block on the stack of its size class. */
    method FreeDataSlots(slot: int)
      requires Valid() && slot in q.place && q.place[slot] == Held && HeaderOk(q, slot)
      modifies this`q, mem
      ensures Valid() && Released(old(q), q, slot)
      ensures W(old(q), slot, 0) > 0 && q == Push(old(q), Bucket(BucketOf(W(old(q), slot, 0))), slot)
    {
      hide Fits, Ok, H, W, Len, PutW, PutPair, PutHPair, Push, CanPush, PushContents, Fixed, Ctz, HeaderOk, Released;
      ghost var q0 := q;
      FreeBucket(q, slot);
      ghost var k := Bucket(BucketOf(W(q, slot, 0)));
      PushSlots(q, k, slot);
      BlockWord(slot, 0);
      var count := mem[slot];
      var index := BucketOf(count);
      var bucket := BucketSlot(index);
      PushKeeps(q, k, slot);
      PushReleased(q, Push(q, k, slot), k, slot);
      PushHistory(q, k, slot);
      var done := false;
      while !done
        invariant Shaped()
        invariant !done ==> q == q0
        invariant done ==> q == PushStores(q0, k, slot)
        decreases !done
      {
        HeaderWord(bucket);
        HeaderWord(bucket + 1);
        var top, cnt := mem[bucket], mem[bucket + 1];
        PutWEffect(q, slot, 1, cnt);
        StoresInEitherOrder(q, slot, top, cnt);
        PutPairEffect(q, slot, top, cnt);
        Store(slot, slot + 1, cnt);
        Store(slot, slot, top);
        SameHeader(q0, q);
        done := DwcasHeader(bucket, Pair(top, cnt), Pair(slot, cnt + 1));
      }
      HistoryFits(mem[..], q, Push(q0, k, slot));
      q := Push(q0, k, slot);
    }

    /** The first of at most three buckets, from the one of the requested size on, that has a block. */
    method FindFirstFit(count: int) returns (bucket: int)
      requires Valid() && (count >= 4 ==> Ctz(count) >= 2)
      ensures bucket == 0 ==> NoFit(q, count)
      ensures bucket != 0 ==> exists i :: FirstFit(q, count, i) && bucket == BucketSlot(i)
    {
      hide Fits, Ok, H, FitCandidates, Ctz, FirstFit, Stack;
      if count < 4 {
        NoCandidates(q, count);
        return 0;
      }
      var index := BucketOf(count);
      var retries := 3;
      ghost var first := index;
      Candidates(count);
      while retries > 0 && index < MEM_SLOTS
        invariant 0 <= retries <= 3 && index == first + 3 - retries
        invariant first <= MEM_SLOTS ==> index <= MEM_SLOTS
        invariant forall k :: 0 <= k < index - first && k < |FitCandidates(count)| ==>
                    Stack(q, Bucket(FitCandidates(count)[k])) == []
        decreases retries
      {
        bucket := BucketSlot(index);
        BucketWord(q, index);
        HeaderWord(bucket);
        if mem[bucket] != 0 {
          FoundFirst(q, count, index - first);
          return;
        }
        retries := retries - 1;
        index := index + 1;
      }
      bucket := 0;
    }

    /** The retry loop of lookup_freed_data: undisturbed, the first DWCAS takes the topmost block. */
    method PopBucket(ghost i: int, bucket: int) returns (slot: int)
      requires Valid() && 1 <= i < MEM_SLOTS && bucket == BucketSlot(i) && Stack(q, Bucket(i)) != []
      modifies this`q, mem
      ensures Shaped() && q == Pop(old(q), Bucket(i)) && slot == H(old(q), bucket)
    {
      hide Fits, Ok, H, W, Len, Pop, PutHPair, Capacity, Fixed, Stack, BucketSlot;
      ghost var q0 := q;
      ghost var q1 := PopStores(q, Bucket(i));
      BucketWord(q, i);
      BucketTop(q, i);
      PopHistory(q, Bucket(i));
      var done := false;
      slot := 0;
      while !done
        invariant Shaped()
        invariant !done ==> q == q0
        invariant done ==> q == q1 && slot == H(q0, bucket)
        decreases !done
      {
        HeaderWord(bucket);
        HeaderWord(bucket + 1);
        slot := mem[bucket];
        var cnt := mem[bucket + 1];
        BlockWord(slot, 0);
        done := DwcasHeader(bucket, Pair(slot, cnt), Pair(mem[slot], cnt + 1));
      }
      HistoryFits(mem[..], q, Pop(q0, Bucket(i)));
      q := Pop(q0, Bucket(i));
    }

    /** Takes the topmost block of the first bucket that has one, and restores its header. */
    method LookupFreedData(slots: int) returns (slot: int, ghost i: int)
      requires Valid() && slots >= 8 && Ctz(slots) >= 3
      modifies this`q, mem
      ensures Valid() && slot >= 0
      ensures slot == 0 ==> q == old(q) && NoFit(q, slots)
      ensures slot != 0 ==> FirstFit(old(q), slots, i) && Taken(old(q), q, slot, i) && TopTaken(old(q), q, slot, i)
    {
      hide Fits, Ok, H, W, Len, NoFit, FirstFit, Ctz, Taken, Pop, PutW, Capacity, Stack, RestoredHeader, BucketSlot,
           TopTaken;
      ghost var q0 := q;
      var bucket := FindFirstFit(slots);
      i := 0;
      if bucket == 0 {
        return 0, 0;
      }
      i :| FirstFit(q, slots, i) && bucket == BucketSlot(i);
      FirstFitRange(q, slots, i);
      BucketWord(q, i);
      BucketTop(q, i);
      BucketTaken(q, i);
      RestoredIs(i);
      PopTakesTop(q, i, Capacity(i));
      slot := PopBucket(i, bucket);
      SameBlocks(q0, q);
      Store(slot, slot, RestoredHeader(bucket));
    }

    /** Reuses a freed block of a fitting class, cleared behind its header; the object does not grow. */
    method ReallocDataSlots(slots: nat, ghost n: nat) returns (slot: int)
      requires Valid() && 3 <= n <= 30 && slots == Pow2(n) >= 8 && Ctz(slots) == n
      modifies this, mem
      ensures Valid() && mem == old(mem) && denied == old(denied)
      ensures slot == 0 <==> NoFit(old(q), slots)
      ensures slot == 0 ==> q == old(q)
      ensures slot != 0 ==> GainedData(old(q), q, slot, slots) && Len(q, slot) <= 4 * slots
      ensures slot != 0 ==> Reused(old(q), q, slots, slot)
    {
      hide Fits, Ok, H, W, Len, NoFit, FirstFit, Ctz, Taken, Capacity, Pow2, Grown, GainedData, Zeroed,
           TopTaken, Reused;
      ghost var q0 := q;
      ghost var i;
      slot, i := LookupFreedData(slots);
      if slot > 0 {
        ghost var q1 := q;
        FitCapacity(q0, n, i);
        DataInSpace(q0, slot, i);
        var ok, _ := InsureFit(slot, slots);
        if ok {
          Clear(slot, 1, slots);
          TakenData(q0, q1, q, slot, i, slots);
          ZeroedTaken(q0, q1, q, slot, i, 1, slots);
          ReusedIs(q0, q, slots, slot, i);
          FitIsNotNone(q0, slots, i);
        }
      }
    }

    lemma DataInSpace(q0: Image, d: int, i: int)
      requires Shaped() && Taken(q0, q, d, i)
      ensures d in q.blk && d >= HDR_END && d + Capacity(i) < mem.Length && Len(q, d) == Capacity(i)
    {
      hide W, Capacity, Abuts;
    }

    /** A data block for a request: the request is rounded to a size class, and a freed block preferred to a new one. */
    method AllocDataSlots(slots: nat) returns (slot: int)
      requires Valid() && 8 <= slots <= 0x4000_0000
      modifies this, mem
      ensures Valid() && (mem == old(mem) || fresh(mem))
      ensures slot == 0 ==> denied == old(denied) + 1 && Unmoved(old(q), q)
      ensures slot == 0 ==> q.blk == old(q).blk && q.stacks == old(q).stacks
      ensures slot != 0 ==> denied == old(denied) && GainedData(old(q), q, slot, slots) && Len(q, slot) < 8 * slots
      ensures !NoFit(old(q), RoundUp(slots)) ==> slot != 0 && mem == old(mem) && Reused(old(q), q, RoundUp(slots), slot)
      ensures NoFit(old(q), RoundUp(slots)) && slot != 0 ==> CarvedOff(old(q), q, slot, RoundUp(slots))
    {
      hide Fits, Ok, W, Len, NoFit, Ctz, Pow2, GainedData, Unmoved, CarveContents, RoundUp, Reused, CarvedOff;
      ghost var q0 := q;
      ghost var n := RoundedRequest(slots);
      Pow2Of3();
      var rounded := RoundUp(slots);
      slot := ReallocDataSlots(rounded, n);
      if slot != 0 {
        SmallerRequest(q0, q, slot, slots, rounded);
        return;
      }
      slot := AllocNewData(rounded);
      if slot != 0 {
        KeysAgree();
        CarvedData(q0, q, slot, n);
        SmallerRequest(q0, q, slot, slots, rounded);
      }
    }

    lemma KeysAgree()
      requires Shaped()
      ensures q.blk.Keys == q.place.Keys
    {
    }
  }
}
