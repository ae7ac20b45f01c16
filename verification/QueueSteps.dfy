/**
 * Steps of the queue operations on the image: a store to a setting, a store to
 * a node in hand, and how the nodes are counted.
 */
module QueueSteps {
  import opened Layout
  import opened SizeClass
  import opened Timespec
  import opened FlagBits
  import opened Image
  import opened ImageOps
  import opened ImageFrame
  import opened ImageProof
  import opened ImageStacks
  import opened ImageContents
  import opened ImagePrivate
  import opened SharedMemory
  import A = AdaptiveQueue

  /** The queue that the object spells out. */
  ghost function QueueOf(q: Image): A.Queue {
    A.Queue(Fifo(q), LifoItems(q), H(q, COUNT), H(q, DEQ_SEM), H(q, ENQ_SEM), H(q, FLAGS), H(q, LEVEL), H(q, MAX_DEPTH),
            Time(H(q, TS_SEC), H(q, TS_SEC + 1)), Time(H(q, LIMIT_SEC), H(q, LIMIT_SEC + 1)),
            Time(H(q, TARGET_SEC), H(q, TARGET_SEC + 1)), Time(H(q, EMPTY_SEC), H(q, EMPTY_SEC + 1)))
  }

  /** Every node is a dummy, in use, or spare; and no more were ever carved than were in use at once, dummies aside. */
  ghost predicate Tidy(q: Image, peak: nat) {
    |NodeBlocks(q)| == 3 + InUse(q) + Spare(q) && |NodeBlocks(q)| <= 3 + peak && InUse(q) <= peak
  }

  /** The queue, the nodes and the blocks in hand are as they were, except for the word `i` of the settings. */
  ghost predicate SetTo(q: Image, q': Image, i: int, v: int) {
    && Fifo(q') == Fifo(q) && LifoItems(q') == LifoItems(q) && Pending(q') == Pending(q)
    && Spare(q') == Spare(q) && InUse(q') == InUse(q)
    && HeldBlocks(q') == HeldBlocks(q) && NodeBlocks(q') == NodeBlocks(q) && HeldSame(q, q')
    && H(q', i) == v && forall x :: Setting(x) && x != i ==> H(q', x) == H(q, x)
  }

  lemma SettingKeeps(q: Image, i: int, v: int)
    requires Ok(q) && Setting(i)
    ensures Ok(PutH(q, i, v)) && SetTo(q, PutH(q, i, v), i, v)
    ensures 0 <= i < HDR_END && !Fixed(i)
  {
    hide Ok, PutH, W, H, Len, Fifo, LifoItems, Pending, Spare, InUse, NodeBlocks, HeldBlocks, Stores;
    var q' := PutH(q, i, v);
    OkParts(q, Items);
    HeaderSize(q);
    PutHEffect(q, i, v);
    SameBlocks(q, q');
    HeaderStores(q, q', i, v);
    StoresKeep(q, q', {});
    BlocksSame(q, q');
  }

  lemma HeaderStores(q: Image, q': Image, i: int, v: int)
    requires Setting(i) && |q.h| == HDR_END && q' == q.(h := q'.h) && |q'.h| == |q.h|
    requires (forall x :: H(q', x) == if x == i then v else H(q, x)) && forall b :: Len(q', b) == Len(q, b)
    ensures Stores(q, q', {})
  {
    hide H, Len;
  }

  lemma BlocksSame(q: Image, q': Image)
    requires q'.blk == q.blk && q.blk.Keys == q.place.Keys
    ensures HeldSame(q, q')
  {
  }

  lemma HeaderSize(q: Image)
    requires Ok(q)
    ensures |q.h| == HDR_END
  {
    hide ListsOk, StacksOk, PlacesOk;
  }

  // ------------------------------------------------------------ nodes in hand

  /** A word of a node in hand is written; all else is as it was. */
  ghost predicate NodeSet(q: Image, q': Image, n: int, j: int, v: int) {
    && Fifo(q') == Fifo(q) && LifoItems(q') == LifoItems(q) && Pending(q') == Pending(q)
    && Spare(q') == Spare(q) && InUse(q') == InUse(q)
    && HeldBlocks(q') == HeldBlocks(q) && NodeBlocks(q') == NodeBlocks(q) && SettingsSame(q, q')
    && (forall c :: c in HeldBlocks(q) && c != n ==> c in q.blk && c in q'.blk && q'.blk[c] == q.blk[c])
    && n in q'.place && q'.place[n] == Held && Len(q', n) == Len(q, n)
    && W(q', n, j) == v && forall i :: i != j ==> W(q', n, i) == W(q, n, i)
  }

  lemma NodeStore(q: Image, n: int, j: int, v: int)
    requires Ok(q) && n in q.place && q.place[n] == Held && 0 <= j < Len(q, n)
    ensures n in q.blk && Ok(PutW(q, n, j, v)) && NodeSet(q, PutW(q, n, j, v), n, j, v)
  {
    var q' := PutW(q, n, j, v);
    OkParts(q, Items);
    PutWEffect(q, n, j, v);
    SameHeader(q, q');
    assert forall c :: c in q.blk && c != n ==> q'.blk[c] == q.blk[c];
    hide Ok, PutW, H, W, Len, Fifo, LifoItems, Pending, Spare, InUse, NodeBlocks;
    assert Stores(q, q', {n});
    StoresKeep(q, q', {n});
  }

  lemma HeaderCopied(q: Image, q': Image, d: int)
    requires HeaderOk(q, d) && d in q'.blk && q'.blk[d] == q.blk[d]
    ensures HeaderOk(q', d)
  {
    hide Capacity;
  }

  /** An allocated node that has been given its data block can be appended or pushed. */
  lemma NodeReady(q: Image, q1: Image, q': Image, n: int, d: int)
    requires GainedNode(q, q1, n) && NodeSet(q1, q', n, VALUE_OFFSET, d)
    requires HeldBlocks(q) == {d} && HeaderOk(q, d) && d in q.place && q.place[d] == Held
    ensures CanAdd(q', Items, n) && CanPush(q', Lifo, n) && W(q', n, VALUE_OFFSET) == d && d != n
    ensures d in q'.blk && d in q.blk && q'.blk[d] == q.blk[d]
    ensures HeldBlocks(q') == {n, d}
  {
    hide Fifo, LifoItems, Pending, Spare, InUse, NodeBlocks, W, HeaderOk, H, Len;
    assert d in HeldBlocks(q) && n !in HeldBlocks(q);
    assert HeldBlocks(q1) == {d, n} && d in HeldBlocks(q1);
    assert d in HeldBlocks(q');
    assert q'.blk[d] == q.blk[d];
    HeaderCopied(q, q', d);
  }

  // ------------------------------------------------------------ counting nodes

  /** One node has been taken from the pool or carved and is in hand. */
  ghost predicate OneOut(q: Image, peak: nat) {
    |NodeBlocks(q)| == 4 + InUse(q) + Spare(q) && (|NodeBlocks(q)| <= 3 + peak || |NodeBlocks(q)| <= 4 + InUse(q)) &&
        InUse(q) <= peak
  }

  lemma GainedCount(q: Image, q': Image, n: int, peak: nat)
    requires Tidy(q, peak) && GainedNode(q, q', n)
    ensures OneOut(q', peak)
  {
    hide InUse, Spare, NodeBlocks, HeldSame, SettingsSame, H, W, Len, Fifo, LifoItems, Pending, HeldBlocks;
  }

  function Max(a: nat, b: nat): nat {
    if a < b then b else a
  }

  /** The peak after one more node is in use. */
  function Peak(q: Image, peak: nat): nat {
    Max(peak, InUse(q))
  }

  /** The nodes in use hold the items and the pending events, one each. */
  lemma UseIsContents(q: Image)
    ensures InUse(q) == |Fifo(q)| + |LifoItems(q)| + |Pending(q)|
    ensures QueueOf(q).fifo == Fifo(q) && QueueOf(q).lifo == LifoItems(q)
  {
  }

  lemma TidyBound(q: Image, peak: nat)
    requires Tidy(q, peak)
    ensures InUse(q) <= peak && |NodeBlocks(q)| <= 3 + peak
  {
  }

  lemma UsedCount(q: Image, q': Image, peak: nat)
    requires OneOut(q, peak) && NodeBlocks(q') == NodeBlocks(q) && InUse(q') == InUse(q) + 1 && Spare(q') == Spare(q)
    ensures Tidy(q', Peak(q', peak))
  {
    hide InUse, Spare, NodeBlocks;
  }

  lemma FreedCount(q: Image, q1: Image, q': Image, peak: nat)
    requires Tidy(q, peak) && NodeBlocks(q') == NodeBlocks(q1) == NodeBlocks(q)
    requires InUse(q) == InUse(q1) + 1 && Spare(q1) == Spare(q) && InUse(q') == InUse(q1) && Spare(q') == Spare(q1) + 1
    ensures Tidy(q', peak)
  {
    hide InUse, Spare, NodeBlocks;
  }

  // ------------------------------------------------------------ the queue after a step

  lemma QueueSame(q: Image, q': Image)
    requires Fifo(q') == Fifo(q) && LifoItems(q') == LifoItems(q) && SettingsSame(q, q')
    ensures QueueOf(q') == QueueOf(q)
  {
    hide H, Fifo, LifoItems;
  }

  lemma SettingRead(q: Image, q': Image, x: int)
    requires SettingsSame(q, q') && Setting(x)
    ensures H(q', x) == H(q, x)
  {
  }

  lemma HeldTrans(q: Image, q1: Image, q': Image)
    requires HeldSame(q, q1) && HeldSame(q1, q') && HeldBlocks(q) * HeldBlocks(q') <= HeldBlocks(q1)
    ensures HeldSame(q, q')
  {
    hide HeldBlocks;
  }

  /** The semaphore of the events counts the pending ones. */
  ghost predicate EventsCounted(q: Image) {
    H(q, EVNT_SEM) == |Pending(q)|
  }

  /** Nothing that a caller can see has changed, nor the blocks in hand. */
  ghost predicate Quiet(q: Image, q': Image) {
    QueueOf(q') == QueueOf(q) && HeldBlocks(q') == HeldBlocks(q) && HeldSame(q, q')
  }

  lemma UnmovedQuiet(q: Image, q': Image, peak: nat)
    requires Unmoved(q, q')
    ensures Quiet(q, q') && Pending(q') == Pending(q)
    ensures Tidy(q, peak) ==> Tidy(q', peak)
    ensures EventsCounted(q) ==> EventsCounted(q')
  {
    hide Fifo, LifoItems, Pending, HeldSame, SettingsSame, HeldBlocks, NodeBlocks, InUse, Spare, H, QueueOf;
    QueueSame(q, q');
    SettingRead(q, q', EVNT_SEM);
  }

  /** Allocating a node, giving it the event, appending it and posting the semaphore. */
  lemma EventQueued(q1: Image, q2: Image, q3: Image, q4: Image, q5: Image, n: int, event: int, peak: nat)
    requires Tidy(q1, peak) && EventsCounted(q1) && GainedNode(q1, q2, n) && NodeSet(q2, q3, n, EVENT_OFFSET, event)
    requires AddContents(q3, q4, Events, n) && SetTo(q4, q5, EVNT_SEM, H(q4, EVNT_SEM) + 1)
    ensures Tidy(q5, Peak(q4, peak)) && EventsCounted(q5) && Quiet(q1, q5) && InUse(q5) == InUse(q4)
    ensures Pending(q5) == Pending(q1) + [event]
  {
    hide Fifo, LifoItems, Pending, HeldSame, SettingsSame, HeldBlocks, NodeBlocks, InUse, Spare, H, W, Len, QueueOf,
         Tidy;
    GainedCount(q1, q2, n, peak);
    SameCount(q2, q3, peak);
    UsedCount(q3, q4, peak);
    SetCount(q4, q5, EVNT_SEM, H(q4, EVNT_SEM) + 1, Peak(q4, peak));
    QueueSame(q1, q2);
    QueueSame(q2, q3);
    QueueSame(q3, q4);
    SetKeeps(q4, q5, EVNT_SEM, H(q4, EVNT_SEM) + 1, peak);
    SettingRead(q1, q2, EVNT_SEM);
    SettingRead(q2, q3, EVNT_SEM);
    SettingRead(q3, q4, EVNT_SEM);
    NodeSetHeld(q1, q2, q3, n, EVENT_OFFSET, event);
    HeldTrans(q1, q3, q4);
    HeldTrans(q1, q4, q5);
  }

  lemma SameCount(q: Image, q': Image, peak: nat)
    requires OneOut(q, peak) && NodeBlocks(q') == NodeBlocks(q) && InUse(q') == InUse(q) && Spare(q') == Spare(q)
    ensures OneOut(q', peak)
  {
    hide NodeBlocks, InUse, Spare;
  }

  lemma SetCount(q: Image, q': Image, i: int, v: int, peak: nat)
    requires Tidy(q, peak) && SetTo(q, q', i, v)
    ensures Tidy(q', peak)
  {
    hide NodeBlocks, InUse, Spare, H, Fifo, LifoItems, Pending, HeldSame, HeldBlocks;
  }

  /** The other blocks in hand keep their words. */
  lemma NodeSetHeld(q: Image, q1: Image, q': Image, n: int, j: int, v: int)
    requires Gained(q, q1, n) && NodeSet(q1, q', n, j, v)
    ensures HeldSame(q, q') && n !in HeldBlocks(q) && HeldBlocks(q') == HeldBlocks(q) + {n}
  {
    hide Fifo, LifoItems, Pending, NodeBlocks, InUse, Spare, H, W, Len, HeldBlocks, SettingsSame;
    assert forall c :: c in HeldBlocks(q) ==> c in HeldBlocks(q1);
  }

  /** A new object is an empty queue with every setting zero. */
  lemma NewQueue()
    ensures Ok(NewImage()) && HeldBlocks(NewImage()) == {} && Tidy(NewImage(), InUse(NewImage())) &&
            EventsCounted(NewImage()) && Pending(NewImage()) == []
    ensures QueueOf(NewImage()) == A.Queue([], [], 0, 0, 0, 0, 0, 0, ZERO, ZERO, ZERO, ZERO)
  {
    hide H, NewImage, Fifo, LifoItems, Pending, HeldBlocks, NodeBlocks, InUse, Spare, Ok;
    NewOk();
    NewSettings();
  }

  lemma NewUse()
    ensures InUse(NewImage()) == 0
  {
    NewQueue();
    UseIsContents(NewImage());
  }

  lemma NewSettings()
    ensures forall x :: Setting(x) ==> H(NewImage(), x) == 0
  {
  }

  /** The CAS of add_event. */
  lemma FlagsTurned(q: Image, q': Image, event: int, v: int)
    requires SetTo(q, q', FLAGS, v) && A.Subscribed(QueueOf(q), event)
    requires v == WithoutFlag(H(q, FLAGS), A.EventMask(event))
    ensures QueueOf(q') == A.Raise(A.Effect(QueueOf(q), []), event).q
    ensures EventsCounted(q) ==> EventsCounted(q')
    ensures Pending(q') == Pending(q) && HeldBlocks(q') == HeldBlocks(q) && HeldSame(q, q')
  {
    SetKeeps(q, q', FLAGS, v, 0);
    hide Fifo, LifoItems, Pending, HeldSame, HeldBlocks, NodeBlocks, InUse, Spare, H;
  }

  /** A store to a setting other than EVNT_SEM keeps the nodes and the events counted. */
  lemma SetKeeps(q: Image, q': Image, i: int, v: int, peak: nat)
    requires SetTo(q, q', i, v) && Setting(i)
    ensures InUse(q') == InUse(q) && (Tidy(q, peak) ==> Tidy(q', peak))
    ensures EventsCounted(q) && i != EVNT_SEM ==> EventsCounted(q')
    ensures HeldBlocks(q') == HeldBlocks(q) && HeldSame(q, q') && Pending(q') == Pending(q)
    ensures i == COUNT ==> QueueOf(q') == QueueOf(q).(count := v)
    ensures i == DEQ_SEM ==> QueueOf(q') == QueueOf(q).(deq := v)
    ensures i == ENQ_SEM ==> QueueOf(q') == QueueOf(q).(enq := v)
    ensures i == FLAGS ==> QueueOf(q') == QueueOf(q).(flags := v)
    ensures i == MAX_DEPTH ==> QueueOf(q') == QueueOf(q).(depth := v)
    ensures i == EVNT_SEM ==> QueueOf(q') == QueueOf(q)
    ensures i == TS_SEC ==> QueueOf(q') == QueueOf(q).(stamp := Time(v, QueueOf(q).stamp.nsec))
    ensures i == TS_SEC + 1 ==> QueueOf(q') == QueueOf(q).(stamp := Time(QueueOf(q).stamp.sec, v))
    ensures i == EMPTY_SEC ==> QueueOf(q') == QueueOf(q).(empty := Time(v, QueueOf(q).empty.nsec))
    ensures i == EMPTY_SEC + 1 ==> QueueOf(q') == QueueOf(q).(empty := Time(QueueOf(q).empty.sec, v))
    ensures i == LEVEL ==> QueueOf(q') == QueueOf(q).(level := v)
    ensures i == LIMIT_SEC ==> QueueOf(q') == QueueOf(q).(limit := Time(v, QueueOf(q).limit.nsec))
    ensures i == LIMIT_SEC + 1 ==> QueueOf(q') == QueueOf(q).(limit := Time(QueueOf(q).limit.sec, v))
    ensures i == TARGET_SEC ==> QueueOf(q') == QueueOf(q).(target := Time(v, QueueOf(q).target.nsec))
    ensures i == TARGET_SEC + 1 ==> QueueOf(q') == QueueOf(q).(target := Time(QueueOf(q).target.sec, v))
  {
    hide H, Fifo, LifoItems, Pending, HeldSame, HeldBlocks, NodeBlocks, InUse, Spare;
  }

  lemma SemWords(q: Image)
    ensures QueueOf(q).enq == H(q, ENQ_SEM) && QueueOf(q).deq == H(q, DEQ_SEM) && QueueOf(q).count == H(q, COUNT)
    ensures QueueOf(q).flags == H(q, FLAGS) && QueueOf(q).level == H(q, LEVEL) && QueueOf(q).depth == H(q, MAX_DEPTH)
    ensures QueueOf(q).stamp == Time(H(q, TS_SEC), H(q, TS_SEC + 1)) &&
            QueueOf(q).limit == Time(H(q, LIMIT_SEC), H(q, LIMIT_SEC + 1))
    ensures QueueOf(q).target == Time(H(q, TARGET_SEC), H(q, TARGET_SEC + 1)) &&
            QueueOf(q).empty == Time(H(q, EMPTY_SEC), H(q, EMPTY_SEC + 1))
    ensures QueueOf(q).fifo == Fifo(q) && QueueOf(q).lifo == LifoItems(q)
  {
  }

  lemma QuietAfter(q: Image, q1: Image, q': Image)
    requires HeldSame(q, q1) && HeldBlocks(q1) == HeldBlocks(q) && Quiet(q1, q')
    ensures HeldSame(q, q') && HeldBlocks(q') == HeldBlocks(q) && QueueOf(q') == QueueOf(q1)
  {
    hide HeldSame, HeldBlocks, QueueOf;
    HeldTrans(q, q1, q');
  }

  lemma NodeIn(q: Image, q': Image, n: int)
    requires GainedNode(q, q', n)
    ensures n in q'.place && q'.place[n] == Held && Len(q', n) == NODE_SIZE
  {
    hide Len, W, HeldBlocks, HeldSame, SettingsSame;
  }

  lemma EventReady(q: Image, q': Image, n: int, event: int)
    requires NodeSet(q, q', n, EVENT_OFFSET, event) && Len(q, n) == NODE_SIZE
    ensures CanAdd(q', Events, n) && W(q', n, EVENT_OFFSET) == event
  {
    hide Len, W, HeldBlocks, HeldSame, SettingsSame;
  }

  lemma HeldSelf(q: Image)
    requires Ok(q)
    ensures HeldSame(q, q)
  {
    OkParts(q, Items);
    hide Ok;
  }

  // ------------------------------------------------------------ linking an item

  lemma NodeItem(q0: Image, q2: Image, n: int, d: int)
    requires W(q2, n, VALUE_OFFSET) == d && d in q2.blk && d in q0.blk && q2.blk[d] == q0.blk[d]
    ensures Item(q2, n) == DataItem(q0, d)
  {
  }

  /** The steps up to the link: a node is allocated and given its data block. */
  ghost predicate NodeHolds(q0: Image, q1: Image, q2: Image, n: int, d: int) {
    GainedNode(q0, q1, n) && NodeSet(q1, q2, n, VALUE_OFFSET, d)
  }

  /** The block `d` is the only one in hand, and is a data block. */
  ghost predicate Carries(q: Image, d: int) {
    HeldBlocks(q) == {d} && HeaderOk(q, d) && d in q.place && q.place[d] == Held
  }

  lemma HoldsReady(q0: Image, q1: Image, q2: Image, n: int, d: int, peak: nat)
    requires Carries(q0, d) && NodeHolds(q0, q1, q2, n, d)
    ensures CanAdd(q2, Items, n) && CanPush(q2, Lifo, n) && Item(q2, n) == DataItem(q0, d)
    ensures W(q2, n, VALUE_OFFSET) == d && HeldBlocks(q2) == {n, d}
    ensures QueueOf(q2) == QueueOf(q0) && Pending(q2) == Pending(q0) && Fifo(q2) == Fifo(q0)
    ensures LifoItems(q2) == LifoItems(q0)
    ensures Tidy(q0, peak) ==> OneOut(q2, peak)
    ensures EventsCounted(q0) ==> EventsCounted(q2)
  {
    hide Fifo, LifoItems, Pending, HeldSame, SettingsSame, HeldBlocks, NodeBlocks, InUse, Spare, H, W, Len, QueueOf,
         Tidy, HeaderOk, CanAdd, CanPush, Item, DataItem, OneOut;
    NodeReady(q0, q1, q2, n, d);
    NodeItem(q0, q2, n, d);
    QueueSame(q0, q1);
    QueueSame(q1, q2);
    SettingRead(q0, q1, EVNT_SEM);
    SettingRead(q1, q2, EVNT_SEM);
    if Tidy(q0, peak) {
      GainedCount(q0, q1, n, peak);
      SameCount(q1, q2, peak);
    }
  }

  lemma FifoLinked(q0: Image, q1: Image, q2: Image, q3: Image, q4: Image, n: int, d: int, peak: nat)
    requires Tidy(q0, peak) && EventsCounted(q0) && Carries(q0, d) && NodeHolds(q0, q1, q2, n, d)
    requires AddContents(q2, q3, Items, n) && SetTo(q3, q4, COUNT, H(q3, COUNT) + 1)
    ensures QueueOf(q4) == QueueOf(q0).(fifo := QueueOf(q0).fifo + [DataItem(q0, d)], count := QueueOf(q0).count + 1)
    ensures Tidy(q4, Peak(q3, peak)) && EventsCounted(q4) && HeldBlocks(q4) == {} && Pending(q4) == Pending(q0)
  {
    hide Fifo, LifoItems, Pending, HeldSame, HeldBlocks, NodeBlocks, InUse, Spare, W, Len, Tidy, HeaderOk, CanAdd,
         CanPush, Item, DataItem, OneOut, NodeHolds, Carries;
    HoldsReady(q0, q1, q2, n, d, peak);
    UsedCount(q2, q3, peak);
    SetKeeps(q3, q4, COUNT, H(q3, COUNT) + 1, Peak(q3, peak));
    hide H;
  }

  lemma LifoLinked(q0: Image, q1: Image, q2: Image, q3: Image, q4: Image, n: int, d: int, peak: nat)
    requires Tidy(q0, peak) && EventsCounted(q0) && Carries(q0, d) && NodeHolds(q0, q1, q2, n, d)
    requires PushContents(q2, q3, Lifo, n) && SetTo(q3, q4, COUNT, H(q3, COUNT) + 1)
    ensures QueueOf(q4) == QueueOf(q0).(lifo := QueueOf(q0).lifo + [DataItem(q0, d)], count := QueueOf(q0).count + 1)
    ensures Tidy(q4, Peak(q3, peak)) && EventsCounted(q4) && HeldBlocks(q4) == {} && Pending(q4) == Pending(q0)
  {
    hide Fifo, LifoItems, Pending, HeldSame, HeldBlocks, NodeBlocks, InUse, Spare, W, Len, Tidy, HeaderOk, CanAdd,
         CanPush, Item, DataItem, OneOut, NodeHolds, Carries;
    HoldsReady(q0, q1, q2, n, d, peak);
    UsedCount(q2, q3, peak);
    SetKeeps(q3, q4, COUNT, H(q3, COUNT) + 1, Peak(q3, peak));
    hide H;
  }

  /** Giving a data block back to its bucket is not seen by callers. */
  lemma ReleasedQuiet(q: Image, q': Image, d: int, peak: nat)
    requires Released(q, q', d)
    ensures QueueOf(q') == QueueOf(q) && Pending(q') == Pending(q) && HeldBlocks(q') == HeldBlocks(q) - {d}
    ensures HeldSame(q, q')
    ensures Tidy(q, peak) ==> Tidy(q', peak)
    ensures EventsCounted(q) ==> EventsCounted(q')
  {
    hide Fifo, LifoItems, Pending, HeldSame, SettingsSame, HeldBlocks, NodeBlocks, InUse, Spare, H, QueueOf;
    QueueSame(q, q');
    SettingRead(q, q', EVNT_SEM);
  }

  lemma StillCarries(q: Image, q': Image, d: int)
    requires Carries(q, d) && HeldSame(q, q') && HeldBlocks(q') == HeldBlocks(q)
    ensures Carries(q', d) && DataItem(q', d) == DataItem(q, d)
  {
    hide HeaderOk;
    assert d in HeldBlocks(q) && d in HeldBlocks(q');
    HeaderCopied(q, q', d);
  }

  /** The first two words of an item are the time it was added. */
  lemma StampWords(q: Image, d: int)
    requires HeaderOk(q, d)
    ensures d in q.blk && Len(q, d) >= 8 && A.Stamp(DataItem(q, d)) == Time(W(q, d, TM_SEC), W(q, d, TM_NSEC))
  {
    hide Capacity;
  }

  lemma CarriesBlock(q: Image, d: int)
    requires Carries(q, d)
    ensures d in q.place && q.place[d] == Held && HeaderOk(q, d)
  {
  }

  lemma HoldsIs(q0: Image, q1: Image, q2: Image, n: int, d: int)
    requires GainedNode(q0, q1, n) && NodeSet(q1, q2, n, VALUE_OFFSET, d)
    ensures NodeHolds(q0, q1, q2, n, d)
  {
  }

  // ------------------------------------------------------------ filling a data block

  /** A word of the data block in hand, behind its header, or the id counter is written; callers do not see it. */
  lemma FillKeeps(q: Image, d: int, j: int, v: int, peak: nat)
    requires Ok(q) && Carries(q, d) && 1 <= j < Len(q, d)
    ensures d in q.blk && Ok(PutW(q, d, j, v)) && Carries(PutW(q, d, j, v), d)
    ensures var q' := PutW(q, d, j, v);
            && QueueOf(q') == QueueOf(q) && Pending(q') == Pending(q)
            && (Tidy(q, peak) ==> Tidy(q', peak)) && (EventsCounted(q) ==> EventsCounted(q'))
            && Len(q', d) == Len(q, d) && (forall i :: W(q', d, i) == if i == j then v else W(q, d, i))
            && H(q', ID_CNTR) == H(q, ID_CNTR)
  {
    PutWEffect(q, d, j, v);
    SameHeader(q, PutW(q, d, j, v));
    hide Ok, PutW, Fifo, LifoItems, Pending, SettingsSame, NodeBlocks, InUse, Spare, H, W, Len, QueueOf, HeldBlocks,
         HeaderOk;
    var q' := PutW(q, d, j, v);
    NodeStore(q, d, j, v);
    QueueSame(q, q');
    SettingRead(q, q', EVNT_SEM);
    HeaderFilled(q, q', d, j, v);
  }

  lemma HeaderFilled(q: Image, q': Image, d: int, j: int, v: int)
    requires HeaderOk(q, d) && NodeSet(q, q', d, j, v) && j >= 1
    ensures HeaderOk(q', d)
  {
    hide Capacity, Fifo, LifoItems, Pending, SettingsSame, NodeBlocks, InUse, Spare, H;
  }

  lemma CounterKeeps(q: Image, v: int, peak: nat)
    requires Ok(q)
    ensures !Fixed(ID_CNTR)
    ensures var q' := PutH(q, ID_CNTR, v);
            && Ok(q') && QueueOf(q') == QueueOf(q) && Pending(q') == Pending(q) && HeldBlocks(q') == HeldBlocks(q)
            && (Tidy(q, peak) ==> Tidy(q', peak)) && (EventsCounted(q) ==> EventsCounted(q'))
            && q'.blk == q.blk && q'.place == q.place && H(q', ID_CNTR) == v
  {
    var q' := PutH(q, ID_CNTR, v);
    HeaderSize(q);
    PutHEffect(q, ID_CNTR, v);
    SameBlocks(q, q');
    hide Ok, PutH, W, Len, Fifo, LifoItems, Pending, Spare, InUse, NodeBlocks;
    assert Stores(q, q', {}) && SettingsSame(q, q') by {
      hide H;
    }
    StoresKeep(q, q', {});
    hide H, QueueOf, HeldBlocks;
    QueueSame(q, q');
    SettingRead(q, q', EVNT_SEM);
  }

  lemma CarriesSame(q: Image, q': Image, d: int)
    requires Carries(q, d) && q'.blk == q.blk && q'.place == q.place
    ensures Carries(q', d) && Len(q', d) == Len(q, d) && forall i :: W(q', d, i) == W(q, d, i)
  {
    hide Capacity;
  }

  lemma GainedCarries(q: Image, q': Image, d: int, slots: nat, peak: nat)
    requires GainedData(q, q', d, slots) && HeldBlocks(q) == {}
    ensures Carries(q', d) && Len(q', d) >= slots && QueueOf(q') == QueueOf(q) && Pending(q') == Pending(q)
    ensures Tidy(q, peak) ==> Tidy(q', peak)
    ensures EventsCounted(q) ==> EventsCounted(q')
  {
    hide Fifo, LifoItems, Pending, SettingsSame, NodeBlocks, InUse, Spare, H, W, Len, QueueOf, HeaderOk, HeldSame,
         HeldBlocks;
    QueueSame(q, q');
    SettingRead(q, q', EVNT_SEM);
  }

  lemma CarriesHeld(q: Image, d: int)
    requires Carries(q, d)
    ensures HeldBlocks(q) == {d}
  {
  }

  // ------------------------------------------------------------ unlinking an item

  /** The two ways of being empty. */
  lemma EmptyQueue(q: Image)
    requires Ok(q)
    ensures QueueOf(q).fifo == [] <==> H(q, HEAD) == H(q, TAIL)
    ensures QueueOf(q).lifo == [] <==> H(q, STACK_HEAD) == 0
    ensures QueueOf(q).lifo == [] <==> Stack(q, Lifo) == []
  {
    NoneBehind(q, Items);
    OkParts(q, Items);
    if Stack(q, Lifo) != [] {
      TopBlock(q, Lifo);
      InSpace(q, H(q, STACK_HEAD));
    }
    hide Ok, H, W, Item, Len, PlacesOk, ListOk;
    assert |LifoItems(q)| == |Stack(q, Lifo)| && |Fifo(q)| == |Behind(q.items)|;
  }

  lemma InSpace(q: Image, b: int)
    requires Ok(q) && b in q.place
    ensures b in q.blk && HDR_END <= b && b + Len(q, b) <= H(q, DATA_ALLOC)
  {
    hide ListsOk, StacksOk, PlacesOk, W, Abuts;
  }

  /** The data block of the front item. */
  function FrontBlock(q: Image): int {
    W(q, W(q, H(q, HEAD), 0), VALUE_OFFSET)
  }

  /** Removing the front item and giving its old dummy to the pool. */
  lemma FifoTaken(q0: Image, q1: Image, q2: Image, peak: nat)
    requires Tidy(q0, peak) && EventsCounted(q0) && HeldBlocks(q0) == {}
    requires RemoveContents(q0, q1, Items) && InHand(q0, q1, Items) && AddContents(q1, q2, Free, H(q0, HEAD))
    ensures var d := FrontBlock(q0);
            && QueueOf(q0).fifo != [] && QueueOf(q2) == QueueOf(q0).(fifo := QueueOf(q0).fifo[1..])
            && Carries(q2, d) && DataItem(q2, d) == QueueOf(q0).fifo[0]
    ensures Tidy(q2, peak) && EventsCounted(q2) && Pending(q2) == Pending(q0)
  {
    hide Fifo, LifoItems, Pending, HeldSame, HeldBlocks, NodeBlocks, InUse, Spare, W, Len, Tidy, HeaderOk, CanAdd,
         Item, DataItem, H, SettingsSame;
    var ref, d := H(q0, HEAD), FrontBlock(q0);
    FreedCount(q0, q1, q2, peak);
    FrontItem(q0, d);
    SettingTwice(q0, q1, q2);
    SettingRead(q0, q2, EVNT_SEM);
    QueueTwice(q0, q2);
    HandedOn(q1, q2, ref, d);
    SameDataItem(q0, q2, d);
  }

  lemma FrontItem(q: Image, d: int)
    requires d == FrontBlock(q)
    ensures Item(q, W(q, H(q, HEAD), 0)) == DataItem(q, d)
  {
  }

  lemma SettingTwice(q: Image, q1: Image, q': Image)
    requires SettingsSame(q, q1) && SettingsSame(q1, q')
    ensures SettingsSame(q, q')
  {
    hide H;
  }

  /** Two images with the same settings are the same queue but for the items. */
  lemma QueueTwice(q: Image, q': Image)
    requires SettingsSame(q, q')
    ensures QueueOf(q') == QueueOf(q).(fifo := Fifo(q'), lifo := LifoItems(q')) && QueueOf(q).fifo == Fifo(q) &&
            QueueOf(q).lifo == LifoItems(q)
  {
    hide H, Fifo, LifoItems;
  }

  /** After the node has gone to the pool, the data block is the only one in hand. */
  lemma HandedOn(q: Image, q': Image, n: int, d: int)
    requires HeldBlocks(q) == {n, d} && d != n && HeaderOk(q, d)
    requires HeldBlocks(q') == HeldBlocks(q) - {n} && HeldSame(q, q')
    ensures Carries(q', d) && d in q.blk && d in q'.blk && q'.blk[d] == q.blk[d]
  {
    hide HeaderOk;
    assert d in HeldBlocks(q) && d in HeldBlocks(q');
    HeaderCopied(q, q', d);
  }

  lemma SameDataItem(q: Image, q': Image, d: int)
    requires d in q.blk && d in q'.blk && q'.blk[d] == q.blk[d]
    ensures DataItem(q', d) == DataItem(q, d)
  {
  }

  /** The data block of the item on top of the stack. */
  function TopBlockOf(q: Image): int {
    W(q, H(q, STACK_HEAD), VALUE_OFFSET)
  }

  /** After the pop, the node and its data block are in hand, with their words. */
  ghost predicate Popped(q: Image, q': Image) {
    var top, d := H(q, STACK_HEAD), TopBlockOf(q);
    && d != top && q'.blk == q.blk && HeaderOk(q', d)
    && top in q'.place && q'.place[top] == Held && Len(q', top) == NODE_SIZE
    && HeldBlocks(q') == HeldBlocks(q) + {top, d} && top in q.blk && d in q.blk
    && Item(q, top) == DataItem(q, d)
  }

  lemma PopInHand(q: Image)
    requires Ok(q) && Stack(q, Lifo) != []
    ensures PopContents(q, Pop(q, Lifo), Lifo) && Ok(Pop(q, Lifo)) && Popped(q, Pop(q, Lifo))
  {
    var top, d, q' := H(q, STACK_HEAD), TopBlockOf(q), Pop(q, Lifo);
    hide Ok, Pop, H, W, Len, Item, DataItem, HeaderOk, PlacesOk, StackOk, ListOk, Queued, Fifo, LifoItems, Pending,
         NodeBlocks, HeldSame, SettingsSame, InUse, Spare;
    OkParts(q, Items);
    PopKeeps(q, Lifo);
    PopOk(q, Lifo);
    TopBlock(q, Lifo);
    TopData(q);
    SameItems(q, top, d);
    assert q'.blk == q.blk && q'.place == q.place[top := Held][d := Held];
    SameBlocks(q, q');
    HeaderCopied(q, q', d);
  }

  lemma SameItems(q: Image, n: int, d: int)
    requires d == W(q, n, VALUE_OFFSET)
    ensures Item(q, n) == DataItem(q, d)
  {
  }

  /** The first two words of a node in hand are zeroed. */
  lemma PairZeroed(q: Image, n: int)
    requires Ok(q) && n in q.place && q.place[n] == Held && Len(q, n) == NODE_SIZE
    ensures var q' := PutPair(q, n, 0, 0);
            && n in q.blk && Ok(q') && CanAdd(q', Free, n)
            && Fifo(q') == Fifo(q) && LifoItems(q') == LifoItems(q) && Pending(q') == Pending(q)
            && Spare(q') == Spare(q) && InUse(q') == InUse(q)
            && HeldBlocks(q') == HeldBlocks(q) && NodeBlocks(q') == NodeBlocks(q) && SettingsSame(q, q')
            && (forall c :: c in HeldBlocks(q) && c != n ==> c in q.blk && c in q'.blk && q'.blk[c] == q.blk[c])
  {
    hide Ok, PutW, H, W, Len, Fifo, LifoItems, Pending, Spare, InUse, NodeBlocks, HeldBlocks, SettingsSame;
    var q1 := PutW(q, n, 0, 0);
    NodeStore(q, n, 0, 0);
    NodeStore(q1, n, 1, 0);
    SettingTwice(q, q1, PutW(q1, n, 1, 0));
  }

  /** Popping the top item and giving its node to the pool. */
  lemma LifoTaken(q0: Image, q1: Image, q2: Image, q3: Image, peak: nat)
    requires Tidy(q0, peak) && EventsCounted(q0) && HeldBlocks(q0) == {} && Ok(q1)
    requires PopContents(q0, q1, Lifo) && Popped(q0, q1) && q2 == PutPair(q1, H(q0, STACK_HEAD), 0, 0)
    requires AddContents(q2, q3, Free, H(q0, STACK_HEAD))
    ensures var d, s := TopBlockOf(q0), QueueOf(q0).lifo;
            && s != [] && QueueOf(q3) == QueueOf(q0).(lifo := s[..|s| - 1])
            && Carries(q3, d) && DataItem(q3, d) == s[|s| - 1]
    ensures Tidy(q3, peak) && EventsCounted(q3) && Pending(q3) == Pending(q0)
  {
    var top, d := H(q0, STACK_HEAD), TopBlockOf(q0);
    hide Ok, PutPair, Fifo, LifoItems, Pending, HeldSame, HeldBlocks, NodeBlocks, InUse, Spare, W, Len, Tidy,
         HeaderOk, CanAdd, Item, DataItem, H, SettingsSame, TopBlockOf, Carries;
    PairZeroed(q1, top);
    assert d in HeldBlocks(q1);
    FreedCount(q0, q2, q3, peak);
    SettingTwice(q0, q1, q2);
    SettingTwice(q0, q2, q3);
    SettingRead(q0, q3, EVNT_SEM);
    QueueTwice(q0, q3);
    HeaderCopied(q1, q2, d);
    HandedOn(q2, q3, top, d);
    SameDataItem(q0, q3, d);
  }

  lemma FrontInSpace(q: Image)
    requires Ok(q) && !Empty(q, Items)
    ensures var ref, next := H(q, HEAD), W(q, H(q, HEAD), 0);
            && ref in q.blk && Len(q, ref) == NODE_SIZE && next in q.blk && Len(q, next) == NODE_SIZE &&
                next >= HDR_END && FrontBlock(q) != 0
  {
    hide Ok, H, W, Len, ListOk, StackOk, PlacesOk, HeaderOk, Queued, Empty;
    OkParts(q, Items);
    FrontNodes(q, Items);
    FrontData(q);
    assert HeadSlot(Items) == HEAD;
    InSpace(q, W(q, H(q, HEAD), 0));
    InSpace(q, FrontBlock(q));
  }

  lemma HandReady(q: Image, q': Image)
    requires InHand(q, q', Items)
    ensures CanAdd(q', Free, H(q, HEAD))
  {
    hide H, W, Len, HeaderOk;
  }

  lemma TopInSpace(q: Image)
    requires Ok(q) && Stack(q, Lifo) != []
    ensures H(q, STACK_HEAD) in q.blk && Len(q, H(q, STACK_HEAD)) == NODE_SIZE && H(q, STACK_HEAD) >= HDR_END &&
            TopBlockOf(q) != 0
    ensures !Fixed(STACK_HEAD) && !Fixed(STACK_HEAD + 1)
  {
    hide Ok, H, W, Len, ListOk, StackOk, PlacesOk, HeaderOk, Queued, Stack;
    OkParts(q, Items);
    TopBlock(q, Lifo);
    TopData(q);
    InSpace(q, H(q, STACK_HEAD));
    InSpace(q, TopBlockOf(q));
  }

  lemma PoppedTop(q: Image, q': Image)
    requires Popped(q, q')
    ensures var top := H(q, STACK_HEAD); top in q'.place && q'.place[top] == Held && Len(q', top) == NODE_SIZE
  {
    hide H, W, Len, HeaderOk, Item, DataItem;
  }

  /** A node in hand is still one after a store to a setting. */
  lemma NodeKept(q: Image, q': Image, n: int)
    requires CanAdd(q, Free, n) && HeldBlocks(q') == HeldBlocks(q) && HeldSame(q, q')
    ensures CanAdd(q', Free, n)
  {
    assert n in HeldBlocks(q) && n in HeldBlocks(q');
  }

  /** The same with COUNT taken down in between, as the clean-up does. */
  lemma CleanTaken(q0: Image, q1: Image, qc: Image, q2: Image, peak: nat)
    requires Tidy(q0, peak) && EventsCounted(q0) && HeldBlocks(q0) == {}
    requires RemoveContents(q0, q1, Items) && InHand(q0, q1, Items) && SetTo(q1, qc, COUNT, H(q1, COUNT) - 1)
    requires AddContents(qc, q2, Free, H(q0, HEAD))
    ensures var d := FrontBlock(q0);
            && QueueOf(q0).fifo != []
            && QueueOf(q2) == QueueOf(q0).(fifo := QueueOf(q0).fifo[1..], count := QueueOf(q0).count - 1)
            && Carries(q2, d)
    ensures Tidy(q2, peak) && EventsCounted(q2) && Pending(q2) == Pending(q0)
  {
    hide Fifo, LifoItems, Pending, HeldSame, HeldBlocks, NodeBlocks, InUse, Spare, W, Len, Tidy, HeaderOk, CanAdd,
         Item, DataItem, SettingsSame;
    var ref, d := H(q0, HEAD), FrontBlock(q0);
    FreedCount(q0, qc, q2, peak);
    QueueTwice(q0, q1);
    SetKeeps(q1, qc, COUNT, H(q1, COUNT) - 1, peak);
    QueueTwice(qc, q2);
    SettingRead(q0, q1, EVNT_SEM);
    SettingRead(qc, q2, EVNT_SEM);
    hide H;
    StillHolds(q1, qc, d);
    HandedOn(qc, q2, ref, d);
  }

  lemma StillHolds(q: Image, q': Image, d: int)
    requires HeaderOk(q, d) && d in HeldBlocks(q) && HeldBlocks(q') == HeldBlocks(q) && HeldSame(q, q')
    ensures HeaderOk(q', d)
  {
    hide HeaderOk;
    HeaderCopied(q, q', d);
  }

  /** The time of the front item, as the clean-up reads it. */
  lemma FrontStamp(q: Image)
    requires Ok(q) && !Empty(q, Items)
    ensures var d := FrontBlock(q);
            && d in q.blk && Len(q, d) >= 8 && QueueOf(q).fifo != [] &&
                A.Stamp(QueueOf(q).fifo[0]) == Time(W(q, d, TM_SEC), W(q, d, TM_NSEC))
  {
    hide Ok, H, W, Len, ListOk, StackOk, PlacesOk, HeaderOk, Queued, Item, DataItem, Empty, LifoItems;
    OkParts(q, Items);
    FrontNodes(q, Items);
    FrontData(q);
    assert HeadSlot(Items) == HEAD;
    FrontItem(q, FrontBlock(q));
    StampWords(q, FrontBlock(q));
    assert Behind(q.items)[0] == W(q, H(q, HEAD), 0);
  }

  /** Taking the first event: the semaphore, the front of the list, its node. */
  lemma EventTaken(q0: Image, q1: Image, q2: Image, q3: Image, peak: nat)
    requires Tidy(q0, peak) && EventsCounted(q0) && HeldBlocks(q0) == {}
    requires SetTo(q0, q1, EVNT_SEM, H(q0, EVNT_SEM) - 1)
    requires RemoveContents(q1, q2, Events) && AddContents(q2, q3, Free, H(q1, EVENT_HEAD))
    ensures Tidy(q3, peak) && EventsCounted(q3) && HeldBlocks(q3) == {} && QueueOf(q3) == QueueOf(q0)
    ensures Pending(q0) == [W(q1, W(q1, H(q1, EVENT_HEAD), 0), EVENT_OFFSET)] + Pending(q3)
  {
    hide Fifo, LifoItems, Pending, HeldSame, HeldBlocks, NodeBlocks, InUse, Spare, W, Len, Tidy, CanAdd, SettingsSame;
    SetKeeps(q0, q1, EVNT_SEM, H(q0, EVNT_SEM) - 1, peak);
    FreedCount(q1, q2, q3, peak);
    QueueSame(q1, q2);
    QueueSame(q2, q3);
    SettingRead(q1, q2, EVNT_SEM);
    SettingRead(q2, q3, EVNT_SEM);
    hide H;
  }

  lemma PendingEmpty(q: Image)
    requires Ok(q)
    ensures Pending(q) == [] <==> H(q, EVENT_HEAD) == H(q, EVENT_TAIL)
  {
    NoneBehind(q, Events);
    hide Ok, H, W;
    assert |Pending(q)| == |Behind(q.events)|;
  }

  lemma EventInSpace(q: Image)
    requires Ok(q) && !Empty(q, Events)
    ensures var ref, next := H(q, EVENT_HEAD), W(q, H(q, EVENT_HEAD), 0);
            ref in q.blk && Len(q, ref) == NODE_SIZE && next in q.blk && Len(q, next) == NODE_SIZE
  {
    hide Ok, H, W, Len, ListOk, StackOk, PlacesOk, Empty;
    OkParts(q, Events);
    FrontNodes(q, Events);
    assert HeadSlot(Events) == EVENT_HEAD;
    InSpace(q, W(q, H(q, EVENT_HEAD), 0));
    InSpace(q, H(q, EVENT_HEAD));
  }

  lemma HandEmpty(q: Image, q': Image)
    requires InHand(q, q', Events)
    ensures CanAdd(q', Free, H(q, EVENT_HEAD))
  {
    hide H, W, Len, HeaderOk;
  }

  lemma HeaderIsLength(q: Image, d: int)
    requires HeaderOk(q, d)
    ensures d in q.blk && Len(q, d) >= 8 && W(q, d, 0) == Len(q, d)
  {
    hide Capacity;
  }
}
