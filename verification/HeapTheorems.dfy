/**
 * The heap as a whole: the words of the array alone determine the queue, and
 * between operations every block has exactly one role.
 */
module HeapTheorems {
  import opened Layout
  import opened Image
  import opened ImageFrame
  import opened ImageContents
  import opened SharedMemory

  // ------------------------------------------------------------ one role for each block

  /** What a block is there for. */
  datatype Role =
    | NodeOf(l: ListId)      // a node of a list, its dummy included
    | OnStackOf(k: StackId)  // a node with a LIFO item, or a freed data block
    | DataOf(node: int)      // the data block of a queued node

  /** The nodes of a list from its dummy on. */
  function Live(c: Chain): seq<int> {
    if c.front < |c.log| then c.log[c.front..] else []
  }

  ghost predicate HasRole(q: Image, b: int, r: Role) {
    match r
    case NodeOf(l) => b in Live(Get(q, l))
    case OnStackOf(k) => ValidId(k) && b in Stack(q, k)
    case DataOf(n) => (n in Behind(q.items) || n in Stack(q, Lifo)) && W(q, n, VALUE_OFFSET) == b
  }

  lemma RoleOfPlace(q: Image, b: int, r: Role)
    requires Ok(q) && HasRole(q, b, r)
    ensures b in q.place
    ensures match q.place[b]
            case OnList(l, _) => r == NodeOf(l)
            case OnStack(k, _) => r == OnStackOf(k)
            case Attached(n) => r == DataOf(n)
            case Held => false
  {
    hide Ok, W, H, Len, ListOk, StackOk, PlacesOk, DataOk, Queued;
    OkParts(q, Items);
    match r
    case NodeOf(l) =>
      OkParts(q, l);
      NodePlace(q, l, b);
    case OnStackOf(k) =>
      StackPart(q, k);
      StackPlace(q, k, b);
    case DataOf(n) =>
      FifoQueued(q);
      LifoQueued(q);
      DataPlace(q, n);
  }

  lemma NodePlace(q: Image, l: ListId, b: int)
    requires ListOk(q, l) && b in Live(Get(q, l))
    ensures b in q.place && q.place[b].OnList? && q.place[b].l == l
  {
    hide H, W, Len;
    var i :| 0 <= i < |Live(Get(q, l))| && Live(Get(q, l))[i] == b;
    assert q.place[Get(q, l).log[Get(q, l).front + i]] == OnList(l, Get(q, l).front + i);
  }

  lemma StackPart(q: Image, k: StackId)
    requires Ok(q) && ValidId(k)
    ensures StackOk(q, k)
  {
    hide StackOk, ListsOk, PlacesOk, Tiled;
  }

  lemma StackPlace(q: Image, k: StackId, b: int)
    requires StackOk(q, k) && b in Stack(q, k)
    ensures b in q.place && q.place[b].OnStack? && q.place[b].k == k
  {
    hide H, W, Len;
  }

  lemma DataPlace(q: Image, n: int)
    requires PlacesOk(q) && Queued(q, n)
    ensures W(q, n, VALUE_OFFSET) in q.place && q.place[W(q, n, VALUE_OFFSET)] == Attached(n)
  {
    assert DataOk(q, n);
    hide H, W, Len, HeaderOk, Queued, PlacesOk;
  }

  lemma PlaceOfRole(q: Image, b: int) returns (r: Role)
    requires Ok(q) && b in q.place && q.place[b] != Held
    ensures HasRole(q, b, r)
  {
    hide Ok, W, H, Len, ListOk, StackOk, PlacesOk, DataOk, Tiled, Behind, Live, Queued, PlaceOk;
    OkParts(q, Items);
    PlaceIs(q, b);
    match q.place[b]
    case OnList(l, i) =>
      r := NodeOf(l);
      ListPlace(q, b);
    case OnStack(k, i) =>
      r := OnStackOf(k);
      OnStackPlace(q, b);
    case Attached(n) =>
      r := DataOf(n);
      AttachedPlace(q, b);
      PlaceIs(q, n);
      QueuedPlace(q, n);
  }

  lemma PlaceIs(q: Image, b: int)
    requires PlacesOk(q) && b in q.place
    ensures PlaceOk(q, b)
  {
    hide PlaceOk, DataOk, Queued;
  }

  lemma ListPlace(q: Image, b: int)
    requires b in q.place && PlaceOk(q, b) && q.place[b].OnList?
    ensures b in Live(Get(q, q.place[b].l))
  {
    var c := Get(q, q.place[b].l);
    assert Live(c)[q.place[b].i - c.front] == b;
  }

  lemma OnStackPlace(q: Image, b: int)
    requires b in q.place && PlaceOk(q, b) && q.place[b].OnStack?
    ensures ValidId(q.place[b].k) && b in Stack(q, q.place[b].k)
  {
  }

  lemma AttachedPlace(q: Image, b: int)
    requires b in q.place && PlaceOk(q, b) && q.place[b].Attached?
    ensures var n := q.place[b].node; Queued(q, n) && n in q.place && W(q, n, VALUE_OFFSET) == b
  {
    hide W;
  }

  lemma QueuedPlace(q: Image, n: int)
    requires n in q.place && PlaceOk(q, n) && Queued(q, n)
    ensures n in Behind(q.items) || n in Stack(q, Lifo)
  {
    if q.place[n].OnList? {
      assert Behind(q.items)[q.place[n].i - q.items.front - 1] == n;
    }
  }

  /**
   * Between operations the carved slots are partitioned: each lies in exactly
   * one block, and the block has exactly one role.
   */
  lemma EverySlotHasOneRole(q: Image, x: int) returns (b: int, r: Role)
    requires Ok(q) && HeldBlocks(q) == {} && HDR_END <= x < H(q, DATA_ALLOC)
    ensures b in q.blk && b <= x < b + Len(q, b) && HasRole(q, b, r)
    ensures forall c :: c in q.blk && c <= x < c + Len(q, c) ==> c == b
    ensures forall s :: HasRole(q, b, s) ==> s == r
  {
    hide Ok, W, H, Len, HasRole, Tiled;
    TiledPart(q);
    EverySlotInOneBlock(q, x);
    b :| b in q.blk && b <= x < b + Len(q, b) && b in q.place && forall c :: c in q.blk && c <= x < c + Len(q, c) ==>
        c == b;
    assert b !in HeldBlocks(q);
    r := PlaceOfRole(q, b);
    RoleOfPlace(q, b, r);
    forall s | HasRole(q, b, s) ensures s == r {
      RoleOfPlace(q, b, s);
    }
  }

  lemma TiledPart(q: Image)
    requires Ok(q)
    ensures Tiled(q)
  {
    hide Tiled;
  }

  // ------------------------------------------------------------ the array determines the queue

  lemma WordIs(m: seq<int>, q: Image, b: int, j: int)
    requires Fits(m, q) && b in q.blk && 0 <= j < Len(q, b)
    ensures 0 <= b + j < |m| && W(q, b, j) == m[b + j]
  {
    assert b + Len(q, b) <= H(q, DATA_ALLOC);
    hide H, W, Len;
    assert m[b + j] == W(q, b, j);
  }

  lemma HeaderIs(m: seq<int>, q: Image, i: int)
    requires Fits(m, q) && 0 <= i < HDR_END
    ensures i < |m| && H(q, i) == m[i]
  {
    hide H, W, Len;
  }

  /** The link of a node of a list: its successor, or itself at the end. */
  lemma LinkOf(m: seq<int>, q: Image, l: ListId, i: nat)
    requires Fits(m, q) && Ok(q) && i < |Live(Get(q, l))|
    ensures var s := Live(Get(q, l)); 0 <= s[i] < |m| && m[s[i]] == (if i + 1 < |s| then s[i + 1] else s[i])
    ensures var s := Live(Get(q, l)); i + 1 < |s| ==> s[i + 1] != s[i]
  {
    OkParts(q, l);
    hide Ok, Fits, H, W, Len, PlacesOk, StackOk;
    var c, s := Get(q, l), Live(Get(q, l));
    assert q.place[c.log[c.front + i]] == OnList(l, c.front + i) && Len(q, c.log[c.front + i]) == NODE_SIZE;
    WordIs(m, q, s[i], 0);
    if i + 1 < |s| {
      assert q.place[c.log[c.front + i + 1]] == OnList(l, c.front + i + 1);
      assert W(q, c.log[c.front + i], 0) == c.log[c.front + i + 1];
    }
  }

  /** Two images of the same array have the same nodes on a list, position by position. */
  lemma {:induction false} SameNode(m: seq<int>, q: Image, q': Image, l: ListId, i: nat)
    requires Fits(m, q) && Ok(q) && Fits(m, q') && Ok(q') && i < |Live(Get(q, l))|
    ensures i < |Live(Get(q', l))| && Live(Get(q', l))[i] == Live(Get(q, l))[i]
  {
    hide Ok, Fits;
    if i == 0 {
      FirstLive(m, q, l);
      FirstLive(m, q', l);
    } else {
      SameNode(m, q, q', l, i - 1);
      LinkOf(m, q, l, i - 1);
      LinkOf(m, q', l, i - 1);
    }
  }

  lemma FirstLive(m: seq<int>, q: Image, l: ListId)
    requires Fits(m, q) && Ok(q)
    ensures |Live(Get(q, l))| > 0 && 0 <= HeadSlot(l) < |m| && Live(Get(q, l))[0] == m[HeadSlot(l)]
  {
    OkParts(q, l);
    SlotsDiffer(l, l, Lifo);
    hide Ok, Fits, W, Len, PlacesOk, StackOk;
    HeaderIs(m, q, HeadSlot(l));
  }

  lemma SameList(m: seq<int>, q: Image, q': Image, l: ListId)
    requires Fits(m, q) && Ok(q) && Fits(m, q') && Ok(q')
    ensures Live(Get(q', l)) == Live(Get(q, l)) && Behind(Get(q', l)) == Behind(Get(q, l))
  {
    hide Ok, Fits, Live;
    var s, s' := Live(Get(q, l)), Live(Get(q', l));
    if |s| > 0 {
      SameNode(m, q, q', l, |s| - 1);
    }
    if |s'| > 0 {
      SameNode(m, q', q, l, |s'| - 1);
    }
    forall i | 0 <= i < |s| ensures s'[i] == s[i] {
      SameNode(m, q, q', l, i);
    }
    FirstLive(m, q, l);
    LiveBehind(Get(q, l));
    LiveBehind(Get(q', l));
  }

  lemma LiveBehind(c: Chain)
    ensures Behind(c) == if |Live(c)| > 0 then Live(c)[1..] else []
  {
  }

  /** The same for the LIFO stack, counted from the top. */
  lemma StackLink(m: seq<int>, q: Image, i: nat)
    requires Fits(m, q) && Ok(q) && i < |Stack(q, Lifo)|
    ensures var s := Stack(q, Lifo);
            0 < s[|s| - 1 - i] < |m| && m[s[|s| - 1 - i]] == (if i + 1 < |s| then s[|s| - 2 - i] else 0)
  {
    OkParts(q, Items);
    var s := Stack(q, Lifo);
    assert Len(q, s[|s| - 1 - i]) == NODE_SIZE && s[|s| - 1 - i] in q.blk;
    assert HDR_END <= s[|s| - 1 - i];
    hide Ok, Fits, H, W, Len, PlacesOk, ListOk;
    WordIs(m, q, s[|s| - 1 - i], 0);
    if i + 1 < |s| {
      assert W(q, s[|s| - 1 - i], 0) == s[|s| - 2 - i];
    }
  }

  lemma StackTop(m: seq<int>, q: Image)
    requires Fits(m, q) && Ok(q)
    ensures STACK_HEAD < |m|
    ensures m[STACK_HEAD] == (if Stack(q, Lifo) == [] then 0 else Stack(q, Lifo)[|Stack(q, Lifo)| - 1])
  {
    OkParts(q, Items);
    hide Ok, Fits, W, Len, PlacesOk, ListOk;
    HeaderIs(m, q, STACK_HEAD);
  }

  lemma {:induction false} SameStacked(m: seq<int>, q: Image, q': Image, i: nat)
    requires Fits(m, q) && Ok(q) && Fits(m, q') && Ok(q') && i < |Stack(q, Lifo)|
    ensures var s, s' := Stack(q, Lifo), Stack(q', Lifo); i < |s'| && s'[|s'| - 1 - i] == s[|s| - 1 - i]
  {
    hide Ok, Fits;
    if i == 0 {
      StackTop(m, q);
      StackTop(m, q');
      StackLink(m, q, 0);
    } else {
      SameStacked(m, q, q', i - 1);
      StackLink(m, q, i - 1);
      StackLink(m, q', i - 1);
      StackLink(m, q, i);
    }
  }

  lemma SameStack(m: seq<int>, q: Image, q': Image)
    requires Fits(m, q) && Ok(q) && Fits(m, q') && Ok(q')
    ensures Stack(q', Lifo) == Stack(q, Lifo)
  {
    hide Ok, Fits, Stack;
    var s, s' := Stack(q, Lifo), Stack(q', Lifo);
    if |s| > 0 {
      SameStacked(m, q, q', |s| - 1);
    }
    if |s'| > 0 {
      SameStacked(m, q', q, |s'| - 1);
    }
    forall i | 0 <= i < |s| ensures s'[i] == s[i] {
      SameStacked(m, q, q', |s| - 1 - i);
    }
  }

  /** The data block of a queued node, and where the two lie. */
  lemma ItemBlock(q: Image, n: int)
    requires Ok(q) && Queued(q, n) && n in q.blk
    ensures var d := W(q, n, VALUE_OFFSET);
            d in q.blk && Len(q, d) >= 8 && W(q, d, 0) == Len(q, d) && HDR_END <= n && HDR_END <= d
  {
    hide ListsOk, StacksOk, Queued;
    assert DataOk(q, n);
  }

  /** The item of a queued node is read off the array: its data block's header says how long it is. */
  lemma ItemIs(m: seq<int>, q: Image, n: int)
    requires Fits(m, q) && Ok(q) && Queued(q, n) && Len(q, n) == NODE_SIZE && n in q.blk
    ensures 0 <= n && n + VALUE_OFFSET < |m|
    ensures var d := m[n + VALUE_OFFSET];
            0 <= d < |m| && 1 <= m[d] && d + m[d] <= |m| && Item(q, n) == m[d + 1..d + m[d]]
  {
    hide Ok, Fits, H, ListOk, StackOk;
    OkParts(q, Items);
    var d := W(q, n, VALUE_OFFSET);
    ItemBlock(q, n);
    hide PlacesOk, Queued;
    WordIs(m, q, n, VALUE_OFFSET);
    WordIs(m, q, d, 0);
    WordIs(m, q, d, Len(q, d) - 1);
    forall j | 1 <= j < Len(q, d) ensures d + j < |m| && q.blk[d][j] == m[d + j] {
      WordIs(m, q, d, j);
    }
    assert q.blk[d][1..] == m[d + 1..d + m[d]];
  }

  lemma ItemsAre(m: seq<int>, q: Image, q': Image, ns: seq<int>)
    requires Fits(m, q) && Ok(q) && Fits(m, q') && Ok(q')
    requires forall n :: n in ns ==> Queued(q, n) && Len(q, n) == NODE_SIZE && n in q.blk
    requires forall n :: n in ns ==> Queued(q', n) && Len(q', n) == NODE_SIZE && n in q'.blk
    ensures ItemsOf(q', ns) == ItemsOf(q, ns)
  {
    hide Ok, Fits, Item, Queued, Len;
    forall n | n in ns ensures Item(q', n) == Item(q, n) {
      ItemIs(m, q, n);
      ItemIs(m, q', n);
    }
  }

  /** Queued nodes have four slots. */
  lemma QueuedNodes(q: Image, n: int)
    requires Ok(q) && (n in Behind(q.items) || n in Stack(q, Lifo))
    ensures Queued(q, n) && Len(q, n) == NODE_SIZE && n in q.blk
  {
    OkParts(q, Items);
    FifoQueued(q);
    LifoQueued(q);
    hide H, W, PlacesOk, Len;
    if n in Behind(q.items) {
      var i :| 0 <= i < |Behind(q.items)| && Behind(q.items)[i] == n;
      assert Len(q, q.items.log[q.items.front + 1 + i]) == NODE_SIZE;
    }
  }

  lemma EventsAre(m: seq<int>, q: Image, q': Image)
    requires Fits(m, q) && Ok(q) && Fits(m, q') && Ok(q') && Behind(q'.events) == Behind(q.events)
    ensures Pending(q') == Pending(q)
  {
    hide Ok, Fits, H, W, PlacesOk, StackOk, Len;
    OkParts(q, Events);
    OkParts(q', Events);
    var ns := Behind(q.events);
    forall i | 0 <= i < |ns| ensures W(q', ns[i], EVENT_OFFSET) == W(q, ns[i], EVENT_OFFSET) {
      assert Len(q, q.events.log[q.events.front + 1 + i]) == NODE_SIZE &&
        q.events.log[q.events.front + 1 + i] in q.place;
      assert Len(q', q'.events.log[q'.events.front + 1 + i]) == NODE_SIZE &&
        q'.events.log[q'.events.front + 1 + i] in q'.place;
      WordIs(m, q, ns[i], EVENT_OFFSET);
      WordIs(m, q', ns[i], EVENT_OFFSET);
    }
  }

  /**
   * The array alone determines what is in the queue: the FIFO, the stack and the
   * pending events do not depend on the history that the image carries.
   */
  lemma ArrayDeterminesQueue(m: seq<int>, q: Image, q': Image)
    requires Fits(m, q) && Ok(q) && Fits(m, q') && Ok(q')
    ensures Fifo(q') == Fifo(q) && LifoItems(q') == LifoItems(q) && Pending(q') == Pending(q)
  {
    hide Ok, Fits, Behind, Stack, ItemsOf, EventsOf, Queued, Len;
    GetLists(q);
    GetLists(q');
    SameList(m, q, q', Items);
    SameList(m, q, q', Events);
    SameStack(m, q, q');
    EventsAre(m, q, q');
    forall n | n in Behind(q.items) || n in Stack(q, Lifo)
      ensures Queued(q, n) && Queued(q', n) && Len(q, n) == NODE_SIZE && Len(q', n) == NODE_SIZE && n in q.blk
      ensures n in q'.blk
    {
      QueuedNodes(q, n);
      QueuedNodes(q', n);
    }
    ItemsAre(m, q, q', Behind(q.items));
    ItemsAre(m, q, q', Stack(q, Lifo));
  }
}
