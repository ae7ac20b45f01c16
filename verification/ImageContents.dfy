/**
 * What each operation on an Image does to the queue that the Image spells out,
 * to the blocks in hand, and to the number of nodes.
 */
module ImageContents {
  import opened Layout
  import opened Image
  import opened ImageOps
  import opened ImageFrame
  import opened ImageProof
  import opened ImageStacks

  ghost function HeldBlocks(q: Image): set<int> {
    set b | b in q.place && q.place[b] == Held
  }

  /** A block of four slots is a node; data blocks have at least eight. */
  ghost function NodeBlocks(q: Image): set<int> {
    set b | b in q.blk && Len(q, b) == NODE_SIZE
  }

  /** The nodes that hold an item or an event. */
  function InUse(q: Image): nat {
    |Behind(q.items)| + |Behind(q.events)| + |Stack(q, Lifo)|
  }

  /** The free nodes that can be taken from the pool. */
  function Spare(q: Image): nat {
    |Behind(q.free)|
  }

  ghost predicate SettingsSame(q: Image, q': Image) {
    forall x :: Setting(x) ==> H(q', x) == H(q, x)
  }

  /** A block that stays in hand keeps its words. */
  ghost predicate HeldSame(q: Image, q': Image) {
    forall b :: b in HeldBlocks(q) && b in HeldBlocks(q') ==> b in q.blk && b in q'.blk && q'.blk[b] == q.blk[b]
  }

  // ------------------------------------------------------------ items that stay

  lemma FifoQueued(q: Image)
    requires ListOk(q, Items)
    ensures forall n :: n in Behind(q.items) ==> Queued(q, n)
  {
    var c := q.items;
    forall n | n in Behind(c) ensures Queued(q, n) {
      var i :| 0 <= i < |Behind(c)| && Behind(c)[i] == n;
      assert q.place[c.log[c.front + 1 + i]] == OnList(Items, c.front + 1 + i);
    }
  }

  lemma LifoQueued(q: Image)
    requires StackOk(q, Lifo)
    ensures forall n :: n in Stack(q, Lifo) ==> Queued(q, n)
  {
  }

  /** Two images that agree on a node's value and on the words of the data block have the same item there. */
  lemma SameItem(q: Image, q': Image, n: int, m: int)
    requires var d := W(q, n, VALUE_OFFSET);
             W(q', m, VALUE_OFFSET) == d && q'.blk.Keys == q.blk.Keys && Len(q', d) == Len(q, d) &&
                 forall j :: W(q', d, j) == W(q, d, j)
    ensures Item(q', m) == Item(q, n)
  {
    var d := W(q, n, VALUE_OFFSET);
    if d in q.blk {
      assert forall j :: 0 <= j < |q.blk[d]| ==> q'.blk[d][j] == W(q', d, j) && q.blk[d][j] == W(q, d, j);
      assert q'.blk[d] == q.blk[d];
    }
  }

  lemma ItemKept(q: Image, q': Image, n: int, xs: set<int>, ps: set<int>, ys: set<int>)
    requires PlacesOk(q) && Queued(q, n) && Touches(q, q', xs, ps, ys)
    requires forall b :: b in xs && b in q.place ==> !q.place[b].Attached?
    ensures Item(q', n) == Item(q, n)
  {
    assert DataOk(q, n);
    var d := W(q, n, VALUE_OFFSET);
    assert d !in xs;
    hide HeaderOk, PlacesOk, Item, Queued;
    forall j ensures W(q', d, j) == W(q, d, j) {
    }
    assert W(q', n, VALUE_OFFSET) == d;
    SameItem(q, q', n, n);
  }

  lemma ItemsKept(q: Image, q': Image, ns: seq<int>, xs: set<int>, ps: set<int>, ys: set<int>)
    requires PlacesOk(q) && Touches(q, q', xs, ps, ys) && forall n :: n in ns ==> Queued(q, n)
    requires forall b :: b in xs && b in q.place ==> !q.place[b].Attached?
    ensures ItemsOf(q', ns) == ItemsOf(q, ns)
  {
    hide PlacesOk, Touches, Item, Queued;
    forall n | n in ns ensures Item(q', n) == Item(q, n) {
      ItemKept(q, q', n, xs, ps, ys);
    }
  }

  lemma EventsKept(q: Image, q': Image, ns: seq<int>, xs: set<int>, ps: set<int>, ys: set<int>)
    requires Touches(q, q', xs, ps, ys)
    ensures EventsOf(q', ns) == EventsOf(q, ns)
  {
    hide W;
  }

  lemma NodesKept(q: Image, q': Image, xs: set<int>, ps: set<int>, ys: set<int>)
    requires Touches(q, q', xs, ps, ys)
    ensures NodeBlocks(q') == NodeBlocks(q)
  {
    hide Len, W;
  }

  /** Blocks outside xs keep all their words. */
  lemma HeldKept(q: Image, q': Image, xs: set<int>, ps: set<int>, ys: set<int>)
    requires Touches(q, q', xs, ps, ys)
    requires q.blk.Keys == q.place.Keys
    requires forall b :: b in xs && b in HeldBlocks(q) ==> b !in HeldBlocks(q')
    ensures HeldSame(q, q')
  {
    forall b | b in HeldBlocks(q) && b in HeldBlocks(q') ensures b in q.blk && b in q'.blk && q'.blk[b] == q.blk[b] {
      assert b !in xs;
      SameWords(q, q', b, xs, ps, ys);
    }
  }

  lemma SameWords(q: Image, q': Image, b: int, xs: set<int>, ps: set<int>, ys: set<int>)
    requires Touches(q, q', xs, ps, ys) && b in q.blk && b !in xs
    ensures b in q'.blk && q'.blk[b] == q.blk[b]
  {
    assert Len(q', b) == Len(q, b);
    forall j | 0 <= j < |q.blk[b]| ensures q'.blk[b][j] == q.blk[b][j] {
      assert W(q', b, j) == W(q, b, j);
    }
  }

  /** Settings are not among the words of the lists, the stacks and the allocator. */
  lemma SettingsKept(q: Image, q': Image, xs: set<int>, ps: set<int>, ys: set<int>)
    requires Touches(q, q', xs, ps, ys) && forall y :: y in ys ==> !Setting(y)
    ensures SettingsSame(q, q')
  {
    hide W, H, Len;
  }

  lemma SlotsAreNoSettings(l: ListId, k: StackId)
    requires ValidId(k)
    ensures !Setting(HeadSlot(l)) && !Setting(HeadSlot(l) + 1) && !Setting(TailSlot(l)) && !Setting(TailSlot(l) + 1)
    ensures !Setting(TopSlot(k)) && !Setting(TopSlot(k) + 1) && !Setting(ID_CNTR) && !Setting(SIZE) &&
            !Setting(EXPAND_SIZE) && !Setting(DATA_ALLOC)
  {
  }

  // ------------------------------------------------------------ add_end

  lemma AddedItem(q: Image, q': Image, n: int)
    requires ListOk(q, Items) && CanAdd(q, Items, n) && Adds(q, q', Items, n)
    ensures Item(q', n) == Item(q, n)
  {
    LastNode(q, Items);
    var d := W(q, n, VALUE_OFFSET);
    hide Item, ListOk, HeaderOk, W, H, Len;
    forall j ensures W(q', d, j) == W(q, d, j) {
    }
    SameItem(q, q', n, n);
  }

  lemma AddedBehind(q: Image, q': Image, l: ListId, n: int)
    requires ListOk(q, l) && Adds(q, q', l, n)
    ensures Behind(Get(q', l)) == Behind(Get(q, l)) + [n] && forall m :: m != l ==> Get(q', m) == Get(q, m)
    ensures q'.stacks == q.stacks
  {
    hide H, W, Len;
  }

  lemma AddedHeld(q: Image, q': Image, l: ListId, n: int)
    requires Adds(q, q', l, n) && CanAdd(q, l, n)
    ensures HeldBlocks(q') == HeldBlocks(q) - AddPlaces(q, l, n)
  {
    hide H, W, Len, HeaderOk;
  }

  lemma ItemsPlus(q: Image, ns: seq<int>, n: int)
    ensures ItemsOf(q, ns + [n]) == ItemsOf(q, ns) + [Item(q, n)]
    ensures EventsOf(q, ns + [n]) == EventsOf(q, ns) + [W(q, n, EVENT_OFFSET)]
  {
    hide Item, W;
  }

  ghost predicate AddContents(q: Image, q': Image, l: ListId, n: int) {
    && Fifo(q') == (if l == Items then Fifo(q) + [Item(q, n)] else Fifo(q))
    && LifoItems(q') == LifoItems(q)
    && Pending(q') == (if l == Events then Pending(q) + [W(q, n, EVENT_OFFSET)] else Pending(q))
    && Spare(q') == Spare(q) + (if l == Free then 1 else 0)
    && InUse(q') == InUse(q) + (if l == Free then 0 else 1)
    && HeldBlocks(q') == HeldBlocks(q) - AddPlaces(q, l, n)
    && NodeBlocks(q') == NodeBlocks(q) && HeldSame(q, q') && SettingsSame(q, q')
  }

  lemma AddedFifo(q: Image, q': Image, l: ListId, n: int)
    requires ListOk(q, Items) && ListOk(q, l) && PlacesOk(q) && CanAdd(q, l, n) && Adds(q, q', l, n)
    ensures Fifo(q') == if l == Items then Fifo(q) + [Item(q, n)] else Fifo(q)
  {
    hide Adds, Touches, ItemsOf, Item, Behind, ListOk, PlacesOk, W, H, Queued, CanAdd, AddPlaces, TailSlot;
    AddsTouches(q, q', l, n);
    AddedBehind(q, q', l, n);
    FifoQueued(q);
    AddedAttached(q, l, n);
    GetLists(q);
    GetLists(q');
    ItemsKept(q, q', Behind(q.items), {n, H(q, TailSlot(l))}, AddPlaces(q, l, n),
              {ID_CNTR, TailSlot(l), TailSlot(l) + 1});
    if l == Items {
      AddedItem(q, q', n);
      ItemsPlus(q', Behind(q.items), n);
    }
  }

  lemma AddedLifo(q: Image, q': Image, l: ListId, n: int)
    requires StackOk(q, Lifo) && ListOk(q, l) && PlacesOk(q) && CanAdd(q, l, n) && Adds(q, q', l, n)
    ensures LifoItems(q') == LifoItems(q)
  {
    AddsTouches(q, q', l, n);
    AddedBehind(q, q', l, n);
    LifoQueued(q);
    AddedAttached(q, l, n);
    hide Adds, Touches, ItemsOf, Item, Behind, ListOk, StackOk, PlacesOk, W, H, CanAdd, Queued;
    ItemsKept(q, q', Stack(q, Lifo), {n, H(q, TailSlot(l))}, AddPlaces(q, l, n),
              {ID_CNTR, TailSlot(l), TailSlot(l) + 1});
  }

  lemma AddedPending(q: Image, q': Image, l: ListId, n: int)
    requires ListOk(q, l) && CanAdd(q, l, n) && Adds(q, q', l, n)
    ensures Pending(q') == if l == Events then Pending(q) + [W(q, n, EVENT_OFFSET)] else Pending(q)
  {
    AddsTouches(q, q', l, n);
    AddedBehind(q, q', l, n);
    assert Get(q', Events) == q'.events && Get(q, Events) == q.events;
    assert W(q', n, EVENT_OFFSET) == W(q, n, EVENT_OFFSET);
    hide Adds, Touches, EventsOf, Behind, ListOk, W, H, CanAdd;
    EventsKept(q, q', Behind(q.events), {n, H(q, TailSlot(l))}, AddPlaces(q, l, n),
               {ID_CNTR, TailSlot(l), TailSlot(l) + 1});
    if l == Events {
      ItemsPlus(q', Behind(q.events), n);
    }
  }

  lemma AddedAttached(q: Image, l: ListId, n: int)
    requires ListOk(q, l) && CanAdd(q, l, n)
    ensures forall b :: b in {n, H(q, TailSlot(l))} && b in q.place ==> !q.place[b].Attached?
  {
    LastNode(q, l);
    hide ListOk, H, DataHeld;
  }

  lemma GetLists(q: Image)
    ensures Get(q, Items) == q.items && Get(q, Events) == q.events && Get(q, Free) == q.free
  {
  }

  lemma AddedSizes(q: Image, q': Image, l: ListId, n: int)
    requires ListOk(q, l) && Adds(q, q', l, n)
    ensures Spare(q') == Spare(q) + (if l == Free then 1 else 0)
    ensures InUse(q') == InUse(q) + (if l == Free then 0 else 1)
  {
    AddedBehind(q, q', l, n);
    GetLists(q);
    GetLists(q');
    hide Adds, ListOk, Behind, Get, W, H;
    match l
    case Items =>
    case Events =>
    case Free =>
  }

  lemma OkParts(q: Image, l: ListId)
    requires Ok(q)
    ensures ListOk(q, l) && ListOk(q, Items) && StackOk(q, Lifo) && PlacesOk(q) && q.blk.Keys == q.place.Keys
  {
    hide ListOk, StackOk, PlacesOk, Abuts, Len, H;
  }

  /** What add_end does beside the lists and the stack. */
  lemma AddedRest(q: Image, q': Image, l: ListId, n: int)
    requires ListOk(q, l) && q.blk.Keys == q.place.Keys && CanAdd(q, l, n) && Adds(q, q', l, n)
    ensures HeldBlocks(q') == HeldBlocks(q) - AddPlaces(q, l, n)
    ensures NodeBlocks(q') == NodeBlocks(q) && HeldSame(q, q') && SettingsSame(q, q')
  {
    AddsTouches(q, q', l, n);
    LastNode(q, l);
    AddedHeld(q, q', l, n);
    SlotsAreNoSettings(l, Lifo);
    var xs, ps, ys := {n, H(q, TailSlot(l))}, AddPlaces(q, l, n), {ID_CNTR, TailSlot(l), TailSlot(l) + 1};
    assert n !in HeldBlocks(q') && H(q, TailSlot(l)) !in HeldBlocks(q);
    hide Adds, Touches, HeldSame, SettingsSame, NodeBlocks, W, H, HeldBlocks, Setting, ListOk, CanAdd;
    NodesKept(q, q', xs, ps, ys);
    HeldKept(q, q', xs, ps, ys);
    SettingsKept(q, q', xs, ps, ys);
  }

  /** Appending a node adds its item, its event, or one free node, and leaves all else alone. */
  lemma AddEndContents(q: Image, l: ListId, n: int)
    requires Ok(q) && CanAdd(q, l, n)
    ensures Ok(AddEnd(q, l, n)) && AddContents(q, AddEnd(q, l, n), l, n)
  {
    var q' := AddEnd(q, l, n);
    hide InUse, Spare, AddPlaces;
    hide AddEnd, Ok, Adds, Fifo, LifoItems, Pending, Item, HeldSame, SettingsSame, NodeBlocks, W, HeldBlocks, ListOk,
         StackOk, Behind, PlacesOk, CanAdd;
    AddEndOk(q, l, n);
    OkParts(q, l);
    AddedSizes(q, q', l, n);
    AddedFifo(q, q', l, n);
    AddedLifo(q, q', l, n);
    AddedPending(q, q', l, n);
    AddedRest(q, q', l, n);
  }

  // ------------------------------------------------------------ remove_front

  ghost predicate RemoveContents(q: Image, q': Image, l: ListId) {
    var ref := H(q, HeadSlot(l));
    var next := W(q, ref, 0);
    && (if l == Items then Fifo(q) == [Item(q, next)] + Fifo(q') else Fifo(q') == Fifo(q))
    && LifoItems(q') == LifoItems(q)
    && (if l == Events then Pending(q) == [W(q, next, EVENT_OFFSET)] + Pending(q') else Pending(q') == Pending(q))
    && Spare(q) == Spare(q') + (if l == Free then 1 else 0)
    && InUse(q) == InUse(q') + (if l == Free then 0 else 1)
    && HeldBlocks(q') == HeldBlocks(q) + RemPlaces(q, l) && HeldBlocks(q) !! RemPlaces(q, l)
    && NodeBlocks(q') == NodeBlocks(q) && HeldSame(q, q') && SettingsSame(q, q')
  }

  lemma RemovedBehind(q: Image, q': Image, l: ListId)
    requires ListOk(q, l) && !Empty(q, l) && Removes(q, q', l)
    ensures Behind(Get(q, l)) == [W(q, H(q, HeadSlot(l)), 0)] + Behind(Get(q', l)) &&
            forall m :: m != l ==> Get(q', m) == Get(q, m)
    ensures q'.stacks == q.stacks
  {
    FrontNodes(q, l);
    hide H, W, Len, ListOk;
  }

  lemma RemovedHeld(q: Image, q': Image, l: ListId)
    requires Removes(q, q', l) && ListOk(q, l) && !Empty(q, l) && PlacesOk(q)
    ensures HeldBlocks(q') == HeldBlocks(q) + RemPlaces(q, l) && HeldBlocks(q) !! RemPlaces(q, l)
  {
    FrontNodes(q, l);
    if l == Items {
      FrontData(q);
    }
    hide H, W, Len, HeaderOk, ListOk, PlacesOk;
  }

  lemma ItemsCons(q: Image, n: int, ns: seq<int>)
    ensures ItemsOf(q, [n] + ns) == [Item(q, n)] + ItemsOf(q, ns)
    ensures EventsOf(q, [n] + ns) == [W(q, n, EVENT_OFFSET)] + EventsOf(q, ns)
  {
    hide Item, W;
  }

  lemma TailQueued(q: Image, n: int, ns: seq<int>)
    requires forall m :: m in [n] + ns ==> Queued(q, m)
    ensures forall m :: m in ns ==> Queued(q, m)
  {
    forall m | m in ns ensures Queued(q, m) {
      assert m in [n] + ns;
    }
  }

  lemma RemovedOthersFifo(q: Image, q': Image, l: ListId)
    requires l != Items && ListOk(q, Items) && ListOk(q, l) && PlacesOk(q) && !Empty(q, l) && Removes(q, q', l)
    ensures Fifo(q') == Fifo(q)
  {
    hide Touches, ItemsOf, Item, Behind, ListOk, PlacesOk, Empty, W, H, Queued, RemPlaces, HeadSlot;
    RemovesTouches(q, q', l);
    RemovedAttached(q, l);
    FifoQueued(q);
    GetLists(q);
    GetLists(q');
    RemovedBehind(q, q', l);
    hide Removes;
    ItemsKept(q, q', Behind(q.items), {H(q, HeadSlot(l))}, RemPlaces(q, l), {HeadSlot(l), HeadSlot(l) + 1});
  }

  lemma RemovedFifo(q: Image, q': Image, l: ListId)
    requires ListOk(q, Items) && ListOk(q, l) && PlacesOk(q) && !Empty(q, l) && Removes(q, q', l)
    ensures if l == Items then Fifo(q) == [Item(q, W(q, H(q, HEAD), 0))] + Fifo(q') else Fifo(q') == Fifo(q)
  {
    hide Removes, Touches, ItemsOf, Item, Behind, ListOk, PlacesOk, Empty, W, H, Queued, RemPlaces;
    if l == Items {
      assert HeadSlot(Items) == HEAD;
      hide HeadSlot;
      RemovesTouches(q, q', l);
      RemovedBehind(q, q', l);
      RemovedAttached(q, l);
      FifoQueued(q);
      GetLists(q);
      GetLists(q');
      hide Get;
      var n, ns := W(q, H(q, HEAD), 0), Behind(q'.items);
      TailQueued(q, n, ns);
      ItemsKept(q, q', ns, {H(q, HEAD)}, RemPlaces(q, l), {HEAD, HEAD + 1});
      ItemsCons(q, n, ns);
    } else {
      RemovedOthersFifo(q, q', l);
    }
  }

  lemma RemovedLifo(q: Image, q': Image, l: ListId)
    requires StackOk(q, Lifo) && ListOk(q, l) && PlacesOk(q) && !Empty(q, l) && Removes(q, q', l)
    ensures LifoItems(q') == LifoItems(q)
  {
    RemovesTouches(q, q', l);
    RemovedBehind(q, q', l);
    RemovedAttached(q, l);
    LifoQueued(q);
    hide Removes, Touches, ItemsOf, Item, Behind, ListOk, StackOk, PlacesOk, Empty, W, H, Queued;
    ItemsKept(q, q', Stack(q, Lifo), {H(q, HeadSlot(l))}, RemPlaces(q, l), {HeadSlot(l), HeadSlot(l) + 1});
  }

  lemma RemovedPending(q: Image, q': Image, l: ListId)
    requires ListOk(q, l) && PlacesOk(q) && !Empty(q, l) && Removes(q, q', l)
    ensures if l == Events then Pending(q) == [W(q, W(q, H(q, EVENT_HEAD), 0), EVENT_OFFSET)] + Pending(q')
            else Pending(q') == Pending(q)
  {
    RemovesTouches(q, q', l);
    RemovedBehind(q, q', l);
    assert Get(q', Events) == q'.events && Get(q, Events) == q.events;
    hide Removes, Touches, EventsOf, Behind, ListOk, PlacesOk, Empty, W, H;
    EventsKept(q, q', Behind(q'.events), {H(q, HeadSlot(l))}, RemPlaces(q, l), {HeadSlot(l), HeadSlot(l) + 1});
    if l == Events {
      ItemsCons(q, W(q, H(q, EVENT_HEAD), 0), Behind(q'.events));
    }
  }

  lemma RemovedAttached(q: Image, l: ListId)
    requires ListOk(q, l) && !Empty(q, l)
    ensures forall b :: b in {H(q, HeadSlot(l))} && b in q.place ==> !q.place[b].Attached?
  {
    FrontNodes(q, l);
    hide ListOk, H, Empty;
  }

  lemma RemovedSizes(q: Image, q': Image, l: ListId)
    requires ListOk(q, l) && !Empty(q, l) && Removes(q, q', l)
    ensures Spare(q) == Spare(q') + (if l == Free then 1 else 0)
    ensures InUse(q) == InUse(q') + (if l == Free then 0 else 1)
  {
    RemovedBehind(q, q', l);
    GetLists(q);
    GetLists(q');
    hide Removes, ListOk, Behind, Empty, W, H, Get;
    match l
    case Items =>
    case Events =>
    case Free =>
  }

  lemma RemovedRest(q: Image, q': Image, l: ListId)
    requires ListOk(q, l) && PlacesOk(q) && q.blk.Keys == q.place.Keys && !Empty(q, l) && Removes(q, q', l)
    ensures HeldBlocks(q') == HeldBlocks(q) + RemPlaces(q, l) && HeldBlocks(q) !! RemPlaces(q, l)
    ensures NodeBlocks(q') == NodeBlocks(q) && HeldSame(q, q') && SettingsSame(q, q')
  {
    RemovesTouches(q, q', l);
    FrontNodes(q, l);
    RemovedHeld(q, q', l);
    SlotsAreNoSettings(l, Lifo);
    var xs, ps, ys := {H(q, HeadSlot(l))}, RemPlaces(q, l), {HeadSlot(l), HeadSlot(l) + 1};
    assert H(q, HeadSlot(l)) !in HeldBlocks(q);
    hide Removes, Touches, HeldSame, SettingsSame, NodeBlocks, W, H, HeldBlocks, Setting, ListOk, PlacesOk, Empty;
    NodesKept(q, q', xs, ps, ys);
    HeldKept(q, q', xs, ps, ys);
    SettingsKept(q, q', xs, ps, ys);
  }

  /** Removing the front takes the first item, the first event, or one free node, and leaves all else alone. */
  lemma RemoveFrontContents(q: Image, l: ListId)
    requires Ok(q) && !Empty(q, l)
    ensures Ok(RemoveFront(q, l)) && RemoveContents(q, RemoveFront(q, l), l)
  {
    var q' := RemoveFront(q, l);
    hide InUse, Spare;
    hide RemoveFront, Ok, Removes, Fifo, LifoItems, Pending, Item, HeldSame, SettingsSame, NodeBlocks, W, H,
         HeldBlocks, ListOk, StackOk, Behind, PlacesOk, Empty, RemPlaces;
    RemoveFrontOk(q, l);
    OkParts(q, l);
    RemovedSizes(q, q', l);
    RemovedFifo(q, q', l);
    RemovedLifo(q, q', l);
    RemovedPending(q, q', l);
    RemovedRest(q, q', l);
  }

  // ------------------------------------------------------------ pushing and popping

  ghost predicate PushContents(q: Image, q': Image, k: StackId, b: int) {
    && Fifo(q') == Fifo(q) && Pending(q') == Pending(q)
    && LifoItems(q') == (if k == Lifo then LifoItems(q) + [Item(q, b)] else LifoItems(q))
    && Spare(q') == Spare(q)
    && InUse(q') == InUse(q) + (if k == Lifo then 1 else 0)
    && HeldBlocks(q') == HeldBlocks(q) - PushPlaces(q, k, b)
    && NodeBlocks(q') == NodeBlocks(q) && HeldSame(q, q') && SettingsSame(q, q')
  }

  lemma PushedItem(q: Image, q': Image, b: int)
    requires CanPush(q, Lifo, b) && Pushes(q, q', Lifo, b)
    ensures Item(q', b) == Item(q, b)
  {
    PushesTouches(q, q', Lifo, b);
    var d := W(q, b, VALUE_OFFSET);
    if d in q.blk {
      SameWords(q, q', d, {b}, PushPlaces(q, Lifo, b), {TopSlot(Lifo), TopSlot(Lifo) + 1});
    }
  }

  lemma PushedStack(q: Image, q': Image, k: StackId, b: int)
    requires Pushes(q, q', k, b)
    ensures Stack(q', Lifo) == if k == Lifo then Stack(q, Lifo) + [b] else Stack(q, Lifo)
    ensures q'.items == q.items && q'.events == q.events && q'.free == q.free
  {
    assert q.items == Get(q, Items) && q'.items == Get(q', Items);
    assert q.events == Get(q, Events) && q'.events == Get(q', Events);
    assert q.free == Get(q, Free) && q'.free == Get(q', Free);
    hide W, H, Len;
  }

  lemma PushedContents(q: Image, q': Image, k: StackId, b: int)
    requires ListOk(q, Items) && StackOk(q, Lifo) && PlacesOk(q) && CanPush(q, k, b) && Pushes(q, q', k, b)
    ensures Fifo(q') == Fifo(q) && Pending(q') == Pending(q)
    ensures LifoItems(q') == if k == Lifo then LifoItems(q) + [Item(q, b)] else LifoItems(q)
  {
    PushesTouches(q, q', k, b);
    PushedStack(q, q', k, b);
    FifoQueued(q);
    LifoQueued(q);
    var xs, ps, ys := {b}, PushPlaces(q, k, b), {TopSlot(k), TopSlot(k) + 1};
    assert forall b :: b in xs && b in q.place ==> !q.place[b].Attached?;
    if k == Lifo {
      PushedItem(q, q', b);
    }
    ItemsPlus(q', Stack(q, Lifo), b);
    hide Pushes, Touches, ItemsOf, EventsOf, Item, Behind, ListOk, StackOk, PlacesOk, CanPush, Stack, W, H;
    ItemsKept(q, q', Behind(q.items), xs, ps, ys);
    ItemsKept(q, q', Stack(q, Lifo), xs, ps, ys);
    EventsKept(q, q', Behind(q.events), xs, ps, ys);
  }

  lemma PushedRest(q: Image, q': Image, k: StackId, b: int)
    requires q.blk.Keys == q.place.Keys && CanPush(q, k, b) && Pushes(q, q', k, b)
    ensures HeldBlocks(q') == HeldBlocks(q) - PushPlaces(q, k, b)
    ensures NodeBlocks(q') == NodeBlocks(q) && HeldSame(q, q') && SettingsSame(q, q')
  {
    PushesTouches(q, q', k, b);
    SlotsAreNoSettings(Items, k);
    PushedHeld(q, q', k, b);
    var xs, ps, ys := {b}, PushPlaces(q, k, b), {TopSlot(k), TopSlot(k) + 1};
    assert b !in HeldBlocks(q');
    hide Pushes, Touches, HeldSame, SettingsSame, NodeBlocks, W, H, HeldBlocks, Setting, CanPush;
    NodesKept(q, q', xs, ps, ys);
    HeldKept(q, q', xs, ps, ys);
    SettingsKept(q, q', xs, ps, ys);
  }

  lemma PushedHeld(q: Image, q': Image, k: StackId, b: int)
    requires CanPush(q, k, b) && Pushes(q, q', k, b)
    ensures HeldBlocks(q') == HeldBlocks(q) - PushPlaces(q, k, b)
  {
    hide H, W, Len, HeaderOk;
  }

  /** A push onto the LIFO stack puts its item on top; freeing a data block leaves the queue alone. */
  lemma PushKeeps(q: Image, k: StackId, b: int)
    requires Ok(q) && CanPush(q, k, b)
    ensures Ok(Push(q, k, b)) && PushContents(q, Push(q, k, b), k, b)
  {
    var q' := Push(q, k, b);
    hide Push, Ok, Pushes, Fifo, LifoItems, Pending, Item, HeldSame, SettingsSame, NodeBlocks, W, H, HeldBlocks,
         ListOk, StackOk, Behind, PlacesOk, CanPush, PushPlaces;
    PushOk(q, k, b);
    OkParts(q, Items);
    PushedStack(q, q', k, b);
    PushedContents(q, q', k, b);
    PushedRest(q, q', k, b);
  }

  ghost predicate PopContents(q: Image, q': Image, k: StackId) {
    && Fifo(q') == Fifo(q) && Pending(q') == Pending(q)
    && (if k == Lifo then LifoItems(q) == LifoItems(q') + [Item(q, H(q, STACK_HEAD))]
       else LifoItems(q') == LifoItems(q))
    && Spare(q') == Spare(q)
    && InUse(q) == InUse(q') + (if k == Lifo then 1 else 0)
    && HeldBlocks(q') == HeldBlocks(q) + PopPlaces(q, k) && HeldBlocks(q) !! PopPlaces(q, k)
    && NodeBlocks(q') == NodeBlocks(q) && HeldSame(q, q') && SettingsSame(q, q')
  }

  lemma PoppedStack(q: Image, q': Image, k: StackId)
    requires Pops(q, q', k)
    ensures if k == Lifo then Stack(q, Lifo) == Stack(q', Lifo) + [H(q, STACK_HEAD)]
            else Stack(q', Lifo) == Stack(q, Lifo)
    ensures q'.items == q.items && q'.events == q.events && q'.free == q.free
  {
    assert q.items == Get(q, Items) && q'.items == Get(q', Items);
    assert q.events == Get(q, Events) && q'.events == Get(q', Events);
    assert q.free == Get(q, Free) && q'.free == Get(q', Free);
    hide W, H, Len;
  }

  lemma PoppedContents(q: Image, q': Image, k: StackId)
    requires ListOk(q, Items) && StackOk(q, Lifo) && StackOk(q, k) && PlacesOk(q) && Pops(q, q', k)
    ensures Fifo(q') == Fifo(q) && Pending(q') == Pending(q)
    ensures if k == Lifo then LifoItems(q) == LifoItems(q') + [Item(q, H(q, STACK_HEAD))]
            else LifoItems(q') == LifoItems(q)
  {
    PopsTouches(q, q', k);
    PoppedStack(q, q', k);
    FifoQueued(q);
    LifoQueued(q);
    var xs, ps, ys: set<int> := {}, PopPlaces(q, k), {TopSlot(k), TopSlot(k) + 1};
    ItemsPlus(q, Stack(q', Lifo), H(q, STACK_HEAD));
    assert forall n :: n in Stack(q', Lifo) ==> n in Stack(q, Lifo);
    hide Pops, Touches, ItemsOf, EventsOf, Item, Behind, ListOk, StackOk, PlacesOk, Stack, W, H;
    ItemsKept(q, q', Behind(q.items), xs, ps, ys);
    ItemsKept(q, q', Stack(q', Lifo), xs, ps, ys);
    EventsKept(q, q', Behind(q.events), xs, ps, ys);
  }

  lemma PoppedHeld(q: Image, q': Image, k: StackId)
    requires StackOk(q, k) && PlacesOk(q) && Pops(q, q', k)
    ensures HeldBlocks(q') == HeldBlocks(q) + PopPlaces(q, k) && HeldBlocks(q) !! PopPlaces(q, k)
  {
    TopBlock(q, k);
    if k == Lifo {
      TopData(q);
    }
    hide H, W, Len, HeaderOk, StackOk, PlacesOk;
  }

  lemma PoppedRest(q: Image, q': Image, k: StackId)
    requires ValidId(k) && StackOk(q, k) && PlacesOk(q) && q.blk.Keys == q.place.Keys && Pops(q, q', k)
    ensures HeldBlocks(q') == HeldBlocks(q) + PopPlaces(q, k) && HeldBlocks(q) !! PopPlaces(q, k)
    ensures NodeBlocks(q') == NodeBlocks(q) && HeldSame(q, q') && SettingsSame(q, q')
  {
    PopsTouches(q, q', k);
    PoppedHeld(q, q', k);
    SlotsAreNoSettings(Items, k);
    var xs, ps, ys: set<int> := {}, PopPlaces(q, k), {TopSlot(k), TopSlot(k) + 1};
    hide Pops, Touches, HeldSame, SettingsSame, NodeBlocks, W, H, HeldBlocks, Setting, StackOk, PlacesOk;
    NodesKept(q, q', xs, ps, ys);
    HeldKept(q, q', xs, ps, ys);
    SettingsKept(q, q', xs, ps, ys);
  }

  /** A pop of the LIFO stack takes its topmost item; reusing a freed data block leaves the queue alone. */
  lemma PopKeeps(q: Image, k: StackId)
    requires Ok(q) && ValidId(k) && Stack(q, k) != []
    ensures Ok(Pop(q, k)) && PopContents(q, Pop(q, k), k)
  {
    var q' := Pop(q, k);
    assert StackOk(q, k);
    hide Pop, Ok, Pops, Fifo, LifoItems, Pending, Item, HeldSame, SettingsSame, NodeBlocks, W, H, HeldBlocks, ListOk,
         StackOk, Behind, PlacesOk, PopPlaces;
    PopOk(q, k);
    OkParts(q, Items);
    PoppedStack(q, q', k);
    PoppedContents(q, q', k);
    PoppedRest(q, q', k);
  }
}
