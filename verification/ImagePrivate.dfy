/**
 * Steps that no other part of the queue can see: stores into a block in hand,
 * carving a new block, changing the sizes and the settings.
 */
module ImagePrivate {
  import opened Layout
  import opened Image
  import opened ImageFrame
  import opened ImageContents

  /**
   * Blocks not in hand keep their words and their places; only header words that
   * belong to no list and no stack change.
   */
  ghost predicate Undisturbed(q: Image, q': Image) {
    && |q'.h| == |q.h| && (forall x :: !Plain(x) ==> H(q', x) == H(q, x))
    && q'.items == q.items && q'.events == q.events && q'.free == q.free && q'.stacks == q.stacks
    && (forall b :: b in q.place && q.place[b] != Held ==>
          b in q'.place && q'.place[b] == q.place[b] && SameBlock(q, q', b))
    && (forall b :: b in q'.place && q'.place[b] != Held ==> b in q.place && q.place[b] == q'.place[b])
  }

  predicate SameBlock(q: Image, q': Image, b: int) {
    Len(q', b) == Len(q, b) && (b in q'.blk <==> b in q.blk) && (b in q.blk ==> q'.blk[b] == q.blk[b])
  }

  lemma SameBlockWords(q: Image, q': Image, b: int)
    requires SameBlock(q, q', b)
    ensures forall j :: W(q', b, j) == W(q, b, j)
  {
  }

  lemma ListUndisturbed(q: Image, q': Image, l: ListId)
    requires Undisturbed(q, q') && ListOk(q, l)
    ensures ListOk(q', l)
  {
    SlotsDiffer(l, l, Lifo);
    GetLists(q);
    GetLists(q');
    var c := Get(q, l);
    assert Get(q', l) == c;
    hide W, H, Len, Plain, Get, SameBlock;
    forall i | c.front <= i < |c.log|
      ensures Len(q', c.log[i]) == Len(q, c.log[i]) && c.log[i] in q'.place && q'.place[c.log[i]] == OnList(l, i)
      ensures forall j :: W(q', c.log[i], j) == W(q, c.log[i], j)
    {
      assert q.place[c.log[i]] == OnList(l, i);
      assert Len(q', c.log[i]) == Len(q, c.log[i]) by {
        assert SameBlock(q, q', c.log[i]);
        SameLen(q, q', c.log[i]);
      }
      SameBlockWords(q, q', c.log[i]);
    }
  }

  lemma SameLen(q: Image, q': Image, b: int)
    requires SameBlock(q, q', b)
    ensures Len(q', b) == Len(q, b)
  {
  }

  lemma StackUndisturbed(q: Image, q': Image, k: StackId)
    requires Undisturbed(q, q') && ValidId(k) && StackOk(q, k)
    ensures StackOk(q', k)
  {
    SlotsDiffer(Items, Items, k);
    var c := Stack(q, k);
    hide W, H, Len, Plain, SameBlock;
    forall i | 0 <= i < |c|
      ensures Len(q', c[i]) == Len(q, c[i]) && c[i] in q'.place && q'.place[c[i]] == OnStack(k, i)
      ensures W(q', c[i], 0) == W(q, c[i], 0)
    {
      assert q.place[c[i]] == OnStack(k, i);
      SameLen(q, q', c[i]);
      SameBlockWords(q, q', c[i]);
    }
  }

  lemma QueuedUndisturbed(q: Image, q': Image, n: int)
    requires Undisturbed(q, q')
    ensures Queued(q', n) <==> Queued(q, n)
    ensures Queued(q, n) ==> SameBlock(q, q', n)
  {
    hide SameBlock, H, Plain;
  }

  lemma PlaceUndisturbed(q: Image, q': Image, b: int)
    requires Undisturbed(q, q') && b in q'.place && (q'.place[b] != Held ==> PlaceOk(q, b))
    ensures PlaceOk(q', b)
  {
    GetLists(q);
    GetLists(q');
    if q'.place[b].Attached? {
      var n := q'.place[b].node;
      QueuedUndisturbed(q, q', n);
      SameBlockWords(q, q', n);
    }
    hide W, H, Len, SameBlock, Plain, Queued, Get;
    if q'.place[b].OnList? {
      GetSame(q, q', q'.place[b].l);
    }
  }

  lemma GetSame(q: Image, q': Image, l: ListId)
    requires Undisturbed(q, q')
    ensures Get(q', l) == Get(q, l)
  {
  }

  lemma DataUndisturbed(q: Image, q': Image, n: int)
    requires Undisturbed(q, q') && Queued(q, n) && DataOk(q, n)
    ensures DataOk(q', n) && Item(q', n) == Item(q, n)
  {
    QueuedUndisturbed(q, q', n);
    SameBlockWords(q, q', n);
    var d := W(q, n, VALUE_OFFSET);
    assert SameBlock(q, q', d);
    SameBlockWords(q, q', d);
    hide H, Plain, Queued;
  }

  lemma PlacesUndisturbed(q: Image, q': Image)
    requires Undisturbed(q, q') && PlacesOk(q)
    ensures PlacesOk(q')
  {
    forall b | b in q'.place ensures PlaceOk(q', b) {
      if q'.place[b] != Held {
        hide PlaceOk, DataOk;
        assert PlaceOk(q, b);
      }
      PlaceUndisturbed(q, q', b);
    }
    forall n | Queued(q', n) ensures DataOk(q', n) {
      QueuedUndisturbed(q, q', n);
      hide Undisturbed, DataOk, PlaceOk, Queued;
      assert DataOk(q, n);
      DataUndisturbed(q, q', n);
    }
  }

  /** Such a step keeps the heap in order. */
  lemma UndisturbedOk(q: Image, q': Image)
    requires Ok(q) && Undisturbed(q, q') && Tiled(q')
    ensures Ok(q')
  {
    hide Undisturbed, Tiled, ListOk, StackOk, PlacesOk;
    ListUndisturbed(q, q', Items);
    ListUndisturbed(q, q', Events);
    ListUndisturbed(q, q', Free);
    forall k | ValidId(k) ensures StackOk(q', k) {
      StackUndisturbed(q, q', k);
    }
    PlacesUndisturbed(q, q');
  }

  lemma ItemsUndisturbed(q: Image, q': Image, ns: seq<int>)
    requires Undisturbed(q, q') && PlacesOk(q) && forall n :: n in ns ==> Queued(q, n)
    ensures ItemsOf(q', ns) == ItemsOf(q, ns)
  {
    forall n | n in ns ensures Item(q', n) == Item(q, n) {
      hide Undisturbed, DataOk, PlaceOk, Item, Queued;
      assert DataOk(q, n);
      DataUndisturbed(q, q', n);
    }
    hide Item;
  }

  lemma PendingUndisturbed(q: Image, q': Image)
    requires Undisturbed(q, q') && ListOk(q, Events)
    ensures Pending(q') == Pending(q)
  {
    var c := q.events;
    forall i | 0 <= i < |Behind(c)| ensures W(q', Behind(c)[i], EVENT_OFFSET) == W(q, Behind(c)[i], EVENT_OFFSET) {
      assert q.place[c.log[c.front + 1 + i]] == OnList(Events, c.front + 1 + i);
      SameBlockWords(q, q', Behind(c)[i]);
    }
    hide W;
  }

  /** And leaves the queue as it is. */
  lemma UndisturbedContents(q: Image, q': Image)
    requires Ok(q) && Undisturbed(q, q')
    ensures Fifo(q') == Fifo(q) && LifoItems(q') == LifoItems(q) && Pending(q') == Pending(q)
    ensures Spare(q') == Spare(q) && InUse(q') == InUse(q)
  {
    OkParts(q, Events);
    assert Stack(q', Lifo) == Stack(q, Lifo) && q'.items == q.items;
    FifoQueued(q);
    LifoQueued(q);
    PendingUndisturbed(q, q');
    ItemsUndisturbed(q, q', Behind(q.items));
    ItemsUndisturbed(q, q', Stack(q, Lifo));
  }

  // ------------------------------------------------------------ stores

  /** Stores into the blocks `bs`, which are in hand, and into header words. */
  ghost predicate Stores(q: Image, q': Image, bs: set<int>) {
    && |q'.h| == |q.h| && (forall x :: !Plain(x) || x == DATA_ALLOC ==> H(q', x) == H(q, x))
    && q' == q.(h := q'.h, blk := q'.blk) && q'.blk.Keys == q.blk.Keys
    && (forall b :: Len(q', b) == Len(q, b))
    && (forall b :: b in q.blk && b !in bs ==> q'.blk[b] == q.blk[b])
  }

  lemma StoresUndisturbed(q: Image, q': Image, bs: set<int>)
    requires Tiled(q) && Stores(q, q', bs) && forall b :: b in bs ==> b in q.place && q.place[b] == Held
    ensures Undisturbed(q, q') && Tiled(q')
  {
    hide H, W, Plain;
    assert H(q', DATA_ALLOC) == H(q, DATA_ALLOC);
    forall b | b in q'.blk ensures Abuts(q', b) {
      assert Abuts(q, b);
    }
  }

  /** The holder of a block may write what it likes into it, and the settings may change. */
  lemma StoresKeep(q: Image, q': Image, bs: set<int>)
    requires Ok(q) && Stores(q, q', bs) && forall b :: b in bs ==> b in q.place && q.place[b] == Held
    ensures Ok(q')
    ensures Fifo(q') == Fifo(q) && LifoItems(q') == LifoItems(q) && Pending(q') == Pending(q)
    ensures Spare(q') == Spare(q) && InUse(q') == InUse(q)
    ensures HeldBlocks(q') == HeldBlocks(q) && NodeBlocks(q') == NodeBlocks(q)
  {
    StoresUndisturbed(q, q', bs);
    hide Undisturbed, H, W;
    assert HeldBlocks(q') == HeldBlocks(q) && NodeBlocks(q') == NodeBlocks(q) by {
      hide Len, Ok, Tiled;
    }
    hide Tiled, Ok, Stores;
    UndisturbedOk(q, q');
    UndisturbedContents(q, q');
  }

  // ------------------------------------------------------------ carving

  /** What alloc_new_data does: a block at the start of the free space, with its size in its first word. */
  function Carve(q: Image, n: nat): Image
    requires n > 0
  {
    var a := H(q, DATA_ALLOC);
    PutH(q, DATA_ALLOC, a + n).(
      blk := q.blk[a := [n] + seq(n - 1, i => 0)],
      place := q.place[a := Held])
  }

  ghost predicate Carves(q: Image, q': Image, a: int, n: nat) {
    && a !in q.blk && a !in q.place
    && q'.blk.Keys == q.blk.Keys + {a} && (forall b :: b != a ==> SameBlock(q, q', b))
    && Len(q', a) == n && W(q', a, 0) == n && (forall j :: j != 0 ==> W(q', a, j) == 0)
    && |q'.h| == |q.h| && (forall x :: H(q', x) == if x == DATA_ALLOC then a + n else H(q, x))
    && q'.place == q.place[a := Held]
    && q' == q.(h := q'.h, blk := q'.blk, place := q'.place)
  }

  lemma CarveFacts(q: Image, n: nat)
    requires Tiled(q) && n >= NODE_SIZE && n % NODE_SIZE == 0
    ensures Carves(q, Carve(q, n), H(q, DATA_ALLOC), n)
  {
    hide Abuts;
  }

  lemma CarvedLens(q: Image, q': Image, a: int, n: nat)
    requires Carves(q, q', a, n)
    ensures (forall b :: b != a ==> Len(q', b) == Len(q, b)) && Len(q', a) == n
  {
    hide H, W;
    forall b | b != a ensures Len(q', b) == Len(q, b) {
      assert SameBlock(q, q', b);
    }
  }

  lemma CarvedAbuts(q: Image, q': Image, n: nat, b: int)
    requires Tiled(q) && Carves(q, q', H(q, DATA_ALLOC), n) && b in q'.blk
    ensures Abuts(q', b)
  {
    var a := H(q, DATA_ALLOC);
    CarvedLens(q, q', a, n);
    assert H(q', DATA_ALLOC) == a + n && q'.blk.Keys == q.blk.Keys + {a};
    hide H, W, Len, SameBlock, Tiled, Carves;
    if b != a {
      assert Abuts(q, b) by {
        assert Tiled(q);
        OldAbuts(q, b);
      }
    }
  }

  lemma OldAbuts(q: Image, b: int)
    requires Tiled(q) && b in q.blk
    ensures Abuts(q, b)
  {
  }

  lemma CarvedBlock(q: Image, q': Image, n: nat, b: int)
    requires Tiled(q) && n >= NODE_SIZE && n % NODE_SIZE == 0 && Carves(q, q', H(q, DATA_ALLOC), n) && b in q'.blk
    ensures HDR_END <= b && b % NODE_SIZE == 0 && NODE_SIZE <= Len(q', b) && Len(q', b) % NODE_SIZE == 0 &&
            b + Len(q', b) <= H(q', DATA_ALLOC)
  {
    CarvedLens(q, q', H(q, DATA_ALLOC), n);
    hide W, Len, SameBlock, Abuts, H;
  }

  lemma CarvedOrder(q: Image, q': Image, n: nat, b: int, c: int)
    requires Tiled(q) && Carves(q, q', H(q, DATA_ALLOC), n) && b in q'.blk && c in q'.blk && b < c
    ensures b + Len(q', b) <= c
  {
    CarvedLens(q, q', H(q, DATA_ALLOC), n);
    hide W, Len, SameBlock, Abuts, H;
    assert b in q.blk;
  }

  lemma CarvedEnd(q: Image, q': Image, n: nat)
    requires Tiled(q) && n >= NODE_SIZE && n % NODE_SIZE == 0 && Carves(q, q', H(q, DATA_ALLOC), n)
    ensures |q'.h| == HDR_END && HDR_END in q'.blk && q'.place.Keys == q'.blk.Keys
    ensures HDR_END <= H(q', DATA_ALLOC) && H(q', DATA_ALLOC) % NODE_SIZE == 0
  {
    SumOfMultiples(H(q, DATA_ALLOC), n);
    hide W, Len, SameBlock, Abuts;
  }

  lemma CarvedTiled(q: Image, q': Image, n: nat)
    requires Tiled(q) && n >= NODE_SIZE && n % NODE_SIZE == 0 && Carves(q, q', H(q, DATA_ALLOC), n)
    ensures Tiled(q')
  {
    hide H, W, Len, Abuts, Carves, Tiled;
    CarvedEnd(q, q', n);
    forall b | b in q'.blk
      ensures Abuts(q', b)
      ensures HDR_END <= b && b % NODE_SIZE == 0 && NODE_SIZE <= Len(q', b) && Len(q', b) % NODE_SIZE == 0 &&
              b + Len(q', b) <= H(q', DATA_ALLOC)
    {
      CarvedBlock(q, q', n, b);
      CarvedAbuts(q, q', n, b);
    }
    forall b, c | b in q'.blk && c in q'.blk && b < c ensures b + Len(q', b) <= c {
      CarvedOrder(q, q', n, b, c);
    }
    TiledIf(q');
  }

  lemma TiledIf(q: Image)
    requires |q.h| == HDR_END && HDR_END in q.blk && q.place.Keys == q.blk.Keys
    requires HDR_END <= H(q, DATA_ALLOC) && H(q, DATA_ALLOC) % NODE_SIZE == 0
    requires forall b :: b in q.blk ==>
                           && HDR_END <= b && b % NODE_SIZE == 0 && NODE_SIZE <= Len(q, b) && Len(q, b) % NODE_SIZE == 0
                           && b + Len(q, b) <= H(q, DATA_ALLOC)
    requires forall b {:trigger Abuts(q, b)} :: b in q.blk ==> Abuts(q, b)
    requires forall b, c :: b in q.blk && c in q.blk && b < c ==> b + Len(q, b) <= c
    ensures Tiled(q)
  {
    hide H, Len, Abuts;
  }

  lemma SumOfMultiples(a: int, n: nat)
    requires a % NODE_SIZE == 0 && n % NODE_SIZE == 0
    ensures (a + n) % NODE_SIZE == 0
  {
  }

  lemma CarvedUndisturbed(q: Image, q': Image, a: int, n: nat)
    requires Carves(q, q', a, n)
    ensures Undisturbed(q, q')
  {
    hide H, W, Len, SameBlock;
  }

  lemma CarvedSets(q: Image, q': Image, a: int, n: nat)
    requires Carves(q, q', a, n) && q.blk.Keys == q.place.Keys
    ensures a !in HeldBlocks(q) && a !in NodeBlocks(q)
    ensures HeldBlocks(q') == HeldBlocks(q) + {a}
    ensures NodeBlocks(q') == NodeBlocks(q) + if n == NODE_SIZE then {a} else {}
    ensures HeldSame(q, q') && SettingsSame(q, q')
  {
    CarvedLens(q, q', a, n);
    forall b | b in HeldBlocks(q) && b in HeldBlocks(q') ensures b in q.blk && b in q'.blk && q'.blk[b] == q.blk[b] {
      assert SameBlock(q, q', b);
    }
    hide H, W, Len, SameBlock;
  }

  ghost predicate CarveContents(q: Image, q': Image, a: int, n: nat) {
    && Fifo(q') == Fifo(q) && LifoItems(q') == LifoItems(q) && Pending(q') == Pending(q)
    && Spare(q') == Spare(q) && InUse(q') == InUse(q)
    && a !in HeldBlocks(q) && a !in NodeBlocks(q)
    && HeldBlocks(q') == HeldBlocks(q) + {a}
    && NodeBlocks(q') == NodeBlocks(q) + (if n == NODE_SIZE then {a} else {})
    && HeldSame(q, q') && SettingsSame(q, q')
    && Len(q', a) == n && W(q', a, 0) == n && (forall j :: j != 0 ==> W(q', a, j) == 0)
  }

  /** Carving a block keeps the heap in order and leaves the queue as it is. */
  lemma CarveKeeps(q: Image, n: nat)
    requires Ok(q) && n >= NODE_SIZE && n % NODE_SIZE == 0
    ensures Ok(Carve(q, n)) && CarveContents(q, Carve(q, n), H(q, DATA_ALLOC), n)
  {
    var a, q' := H(q, DATA_ALLOC), Carve(q, n);
    assert Tiled(q) && q.blk.Keys == q.place.Keys;
    CarveFacts(q, n);
    hide Ok, Tiled, Undisturbed, Fifo, LifoItems, Pending, Carve, InUse, Spare, HeldBlocks, NodeBlocks, HeldSame,
         SettingsSame, SameBlock;
    CarvedTiled(q, q', n);
    CarvedUndisturbed(q, q', a, n);
    CarvedSets(q, q', a, n);
    UndisturbedContents(q, q');
    UndisturbedOk(q, q');
  }
}
