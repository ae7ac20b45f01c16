/**
 * The queue in shared memory.  Every method is the C function of that name, run
 * by one process at a time; its contract says what it does to the queue that
 * the words of the shared object spell out.
 */
module SharedQueue {
  import opened Layout
  import opened SizeClass
  import opened Timespec
  import opened FlagBits
  import opened Image
  import opened ImageOps
  import opened ImageProof
  import opened ImageStacks
  import opened ImageContents
  import opened SharedMemory
  import opened QueueSteps
  import T = AdaptiveTheorems
  import A = AdaptiveQueue
  import L = AdaptiveLaws
  import C = Codec

  const SEM_VALUE_MAX := 0x7fff_ffff

  const EVNT_NONE := 0

  /** sh_status_e, as far as the queue operations return it. */
  datatype Status = OkStatus | EmptyStatus | LimitStatus | NoMemoryStatus | ArgStatus | StateStatus

  /** sq_mode_e. */
  datatype Mode = Immutable | ReadOnly | WriteOnly | ReadWrite

  /** SH_STRM_T, the type of a stream of bytes. */
  const STREAM := 1

  /** The caller's buffer: whether there is one, and the size the caller gives for it. */
  datatype Buffer = Buffer(have: bool, size: int)

  /** The bytes that copy_to_buffer asks for: the words of the item, and the table of its fields. */
  function Needs(item: A.Item): int {
    C.LONG * |item| + C.VEC_SIZE * if |item| > 4 then item[4] else 0
  }

  /** resize_buffer: the buffer itself if it is large enough, else a new one, else none. */
  function Resized(b: Buffer, need: int, granted: bool): Buffer {
    if b.have && b.size >= need then b else if granted then Buffer(true, need) else Buffer(false, 0)
  }

  /** All of the items fit into the caller's buffer. */
  ghost predicate FitAll(b: Buffer, items: seq<A.Item>) {
    forall x :: x in items ==> b.have && b.size >= Needs(x)
  }

  /** The buffer after the items have been copied; `granted` is what malloc answers for each. */
  function BufferFor(b: Buffer, items: seq<A.Item>, granted: nat -> bool): Buffer {
    if items == [] then b else
    var k := |items| - 1;
    Resized(BufferFor(b, items[..k], granted), Needs(items[k]), granted(k))
  }

  /** An item for which malloc grants a buffer, and none behind it needs a larger one. */
  ghost predicate Granted(items: seq<A.Item>, granted: nat -> bool, j: nat) {
    j < |items| && granted(j) && forall i :: j < i < |items| ==> Needs(items[j]) >= Needs(items[i])
  }

  /** There is a buffer for the last of the items. */
  ghost predicate Room(b: Buffer, items: seq<A.Item>, granted: nat -> bool) {
    FitAll(b, items) || exists j: nat :: Granted(items, granted, j)
  }

  lemma {:induction false} BufferHolds(b: Buffer, items: seq<A.Item>, granted: nat -> bool, need: int)
    ensures var b' := BufferFor(b, items, granted);
            (b'.have && b'.size >= need) <==>
            ((FitAll(b, items) && b.have && b.size >= need) ||
             exists j: nat :: Granted(items, granted, j) && Needs(items[j]) >= need)
  {
    hide Needs;
    if items != [] {
      var k := |items| - 1;
      var before, x := items[..k], items[k];
      BufferHolds(b, before, granted, if Needs(x) >= need then Needs(x) else need);
      BufferHolds(b, before, granted, Needs(x));
      GrantedNext(items, granted);
      assert items == before + [x];
    }
  }

  lemma GrantedNext(items: seq<A.Item>, granted: nat -> bool)
    requires items != []
    ensures var k := |items| - 1; var before := items[..k];
            && (Granted(items, granted, k) <==> granted(k))
            && forall j: nat :: j < k ==>
                 (Granted(items, granted, j) <==> Granted(before, granted, j) && Needs(items[j]) >= Needs(items[k]))
  {
    hide Needs;
    var k := |items| - 1;
    var before := items[..k];
    forall j: nat | j < k ensures Granted(items, granted, j) <==>
        Granted(before, granted, j) && Needs(items[j]) >= Needs(items[k]) {
      assert before[j] == items[j];
      assert forall i :: j < i < k ==> before[i] == items[i];
    }
  }

  /**
   * The last item is copied exactly if the items fit into the caller's buffer, or
   * malloc grants one that is large enough from then on.
   */
  lemma RoomIff(b: Buffer, items: seq<A.Item>, granted: nat -> bool)
    requires items != []
    ensures BufferFor(b, items, granted).have <==> Room(b, items, granted)
  {
    hide Needs, BufferFor;
    var k := |items| - 1;
    var b' := BufferFor(b, items, granted);
    BufferHolds(b, items, granted, Needs(items[k]));
    BufferSize(b, items, granted);
  }

  lemma BufferSize(b: Buffer, items: seq<A.Item>, granted: nat -> bool)
    requires items != []
    ensures var b' := BufferFor(b, items, granted); b'.have ==> b'.size >= Needs(items[|items| - 1])
  {
    hide Needs;
  }

  /** The bytes of an item: as many as its length says. */
  ghost function BytesOf(item: A.Item): seq<C.Byte> {
    if |item| >= 6 && 0 <= item[5] <= |C.Unpack(item[6..])| then C.Unpack(item[6..])[..item[5]] else []
  }

  lemma BytesHeld(item: A.Item, time: Time, kind: int, fields: int, value: seq<C.Byte>)
    requires Holds(item, time, kind, fields, |value|, C.Pack(value))
    ensures BytesOf(item) == value
  {
    hide C.Pack, C.Unpack, A.Stamp;
    C.BytesRoundTrip(value);
    var ws, n := item[6..], |C.Pack(value)|;
    assert ws == ws[..n] + ws[n..] && ws[..n] == C.Pack(value);
    C.UnpackTwo(ws[..n], ws[n..]);
  }

  /**
   * What a reader finds in an item: one value, or the fields of a vector, with
   * their types, lengths and bytes.
   */
  ghost predicate HoldsFields(item: A.Item, fs: seq<C.Field>) {
    && |item| >= 6 && item[VEC_CNT - 1] == |fs|
    && if |fs| == 1 then
         && fs[0].based && item[TYPE - 1] == fs[0].kind && item[DATA_LENGTH - 1] == |fs[0].data|
         && BytesOf(item) == fs[0].data
       else
         && |fs| >= 2 && item[TYPE - 1] == C.SH_VECTOR_T && (forall f :: f in fs ==> C.FieldOk(f))
         && C.Spelled(item, fs)
  }

  /**
   * What a remove asks of its buffer: the eight bytes of each word of the item
   * and 24 for the entry of each field, which is what copy_to_buffer works out
   * from the size of the block.  For one item there is room exactly if the
   * caller's buffer has that size, or malloc grants one.
   */
  lemma BufferAsked(item: A.Item, fs: seq<C.Field>, b: Buffer, granted: nat -> bool)
    requires HoldsFields(item, fs)
    ensures Needs(item) == 8 * |item| + 24 * |fs| == C.Wanted(|item| + 1, |fs|)
    ensures Room(b, [item], granted) <==> (b.have && b.size >= 8 * |item| + 24 * |fs|) || granted(0)
  {
    hide BytesOf, C.Spelled, C.FieldOk;
    assert Needs(item) == 8 * |item| + 24 * |fs|;
    hide HoldsFields, Needs;
    if granted(0) {
      assert Granted([item], granted, 0);
    }
    assert item in [item];
  }

  /** An item holds one thing only. */
  lemma HoldsOnce(item: A.Item, fs: seq<C.Field>, gs: seq<C.Field>)
    requires HoldsFields(item, fs) && HoldsFields(item, gs)
    ensures fs == gs
  {
    hide BytesOf, C.Unpack, C.Laid;
    if |fs| >= 2 {
      C.LaidOnce(C.Unpack(item), C.LONG * (DATA_HDR - 1), fs, gs, |fs|);
      assert fs[..|fs|] == fs && gs[..|gs|] == gs;
    }
  }

  /** What an add stores without complaint: a value, or a vector of entries that all have a type, bytes and a base. */
  predicate Sound(fs: seq<C.Field>) {
    if |fs| == 1 then fs[0].based && fs[0].data != [] else |fs| >= 2 && forall f :: f in fs ==> C.FieldOk(f)
  }

  lemma SoundMeans(fs: seq<C.Field>)
    ensures Sound(fs) <==>
              if |fs| == 1 then fs[0].based && |fs[0].data| > 0
              else |fs| >= 2 && forall f :: f in fs ==> f.kind > 0 && |f.data| > 0 && f.based
  {
  }

  ghost function FieldsOf(item: A.Item): seq<C.Field> {
    if exists fs :: HoldsFields(item, fs) then
      var fs :| HoldsFields(item, fs);
      fs
    else []
  }

  lemma FieldsAre(item: A.Item, fs: seq<C.Field>)
    requires HoldsFields(item, fs)
    ensures FieldsOf(item) == fs
  {
    hide HoldsFields;
    HoldsOnce(item, fs, FieldsOf(item));
  }

  lemma ValueHeld(item: A.Item, time: Time, f: C.Field)
    requires Holds(item, time, f.kind, 1, |f.data|, C.Pack(f.data)) && f.based
    ensures FieldsOf(item) == [f]
  {
    hide BytesOf, C.Pack, A.Stamp;
    BytesHeld(item, time, f.kind, 1, f.data);
    assert HoldsFields(item, [f]);
    hide HoldsFields;
    FieldsAre(item, [f]);
  }

  lemma VectorHeld(item: A.Item, time: Time, length: int, words: seq<int>, fs: seq<C.Field>)
    requires Holds(item, time, C.SH_VECTOR_T, |fs|, length, words) && |fs| >= 2 && forall f :: f in fs ==> C.FieldOk(f)
    requires forall hdr: seq<int>, more: seq<int> :: |hdr| == DATA_HDR - 1 ==> C.Spelled(hdr + words + more, fs)
    ensures FieldsOf(item) == fs
  {
    hide BytesOf, A.Stamp, C.Spelled, C.FieldOk;
    var hdr, more := item[..6], item[6 + |words|..];
    assert item == hdr + words + more;
    assert HoldsFields(item, fs);
    hide HoldsFields;
    FieldsAre(item, fs);
  }

  /** The fields of an item, as initialize_item_vector and copy_to_buffer set them out. */
  method ReadItem(item: A.Item, ghost fs: seq<C.Field>) returns (back: seq<C.Field>)
    requires HoldsFields(item, fs)
    ensures back == fs == FieldsOf(item)
  {
    hide C.Spelled, C.FieldOk, FieldsOf;
    FieldsAre(item, fs);
    if item[VEC_CNT - 1] == 1 {
      var length := item[DATA_LENGTH - 1];
      back := [C.Field(item[TYPE - 1], C.Unpack(item[6..])[..length], true)];
    } else {
      back := C.ReadVector(item, item[VEC_CNT - 1], fs);
    }
  }

  /** The words of an item: its time, an id, its type, the number of its fields, its length in bytes, its data. */
  ghost predicate Holds(item: seq<int>, time: Time, kind: int, fields: int, length: int, data: seq<int>) {
    && |item| >= 6 + |data| && A.Stamp(item) == time
    && item[3] == kind && item[4] == fields && item[5] == length && item[6..6 + |data|] == data
  }

  lemma HeldWords(q: Image, d: int, time: Time, kind: int, fields: int, length: int, data: seq<int>)
    requires Carries(q, d) && Len(q, d) >= DATA_HDR + |data|
    requires W(q, d, TM_SEC) == time.sec && W(q, d, TM_NSEC) == time.nsec
    requires W(q, d, TYPE) == kind && W(q, d, VEC_CNT) == fields && W(q, d, DATA_LENGTH) == length
    requires forall k :: 0 <= k < |data| ==> W(q, d, DATA_HDR + k) == data[k]
    ensures Holds(DataItem(q, d), time, kind, fields, length, data)
    ensures DataItem(q, d)[2] == W(q, d, UID)
  {
    StampWords(q, d);
    var item := DataItem(q, d);
    assert d in q.blk;
    forall k | 0 <= k < |data| ensures item[6 + k] == data[k] {
      assert W(q, d, DATA_HDR + k) == data[k];
    }
  }

  /** An empty queue; a maximum depth of zero stands for the largest value of a semaphore. */
  function NewValue(maxDepth: nat): A.Queue {
    var depth := if maxDepth == 0 then SEM_VALUE_MAX else maxDepth;
    A.Queue([], [], 0, 0, depth, 0, 0, depth, ZERO, ZERO, ZERO, ZERO)
  }

  lemma NewDepth(maxDepth: nat)
    ensures NewValue(maxDepth).depth == NewValue(maxDepth).enq == (if maxDepth == 0 then 0x7fff_ffff else maxDepth)
    ensures A.Order(NewValue(maxDepth)) == []
  {
  }

  class ShrQueue {
    const base: Base
    /** The readings of the clock, and how many have been taken. */
    const clock: nat -> Time
    const mode: Mode
    var tick: nat
    /** The most nodes that were in use at once so far. */
    ghost var peak: nat

    constructor (base: Base, clock: nat -> Time, mode: Mode)
      ensures this.base == base && this.clock == clock && this.mode == mode && tick == 0 && peak == InUse(base.q)
    {
      this.base, this.clock, this.mode, tick, peak := base, clock, mode, 0, InUse(base.q);
    }

    /** shr_q_create: a new queue, if a semaphore can count to its depth. */
    static method Create(maxDepth: nat, clock: nat -> Time, mode: Mode) returns (status: Status, queue: ShrQueue?)
      ensures status == (if maxDepth > 0x7fff_ffff then ArgStatus else OkStatus)
      ensures queue == null <==> status == ArgStatus
      ensures queue != null ==>
                && fresh(queue) && fresh(queue.base) && fresh(queue.base.mem)
                && queue.clock == clock && queue.mode == mode
                && queue.Valid() && Pending(queue.base.q) == [] && queue.tick == 0 && queue.peak == 0
                && queue.base.denied == 0
                && queue.Value() == NewValue(maxDepth)
                && queue.Value().depth == queue.Value().enq == (if maxDepth == 0 then 0x7fff_ffff else maxDepth)
                && A.Order(queue.Value()) == []
    {
      if maxDepth > SEM_VALUE_MAX {
        return ArgStatus, null;
      }
      NewDepth(maxDepth);
      hide QueueOf, Pending, A.Order, NewValue;
      queue := CreateObject(maxDepth, clock, mode);
      status := OkStatus;
    }

    /** create_base_object and format_as_queue. */
    static method CreateObject(maxDepth: nat, clock: nat -> Time, mode: Mode) returns (queue: ShrQueue)
      requires maxDepth <= 0x7fff_ffff
      ensures fresh(queue) && fresh(queue.base) && fresh(queue.base.mem) && queue.clock == clock && queue.mode == mode
      ensures queue.Valid() && Pending(queue.base.q) == [] && queue.tick == 0 && queue.peak == 0
      ensures queue.base.denied == 0 && queue.Value() == NewValue(maxDepth)
    {
      hide *;
      NewUse();
      var base := new Base();
      queue := new ShrQueue(base, clock, mode);
      queue.FormatAsQueue(maxDepth);
    }

    /** Sets the depth and the semaphores of a new object. */
    method FormatAsQueue(maxDepth: nat)
      requires base.Valid() && base.q == NewImage() && peak == InUse(NewImage()) && maxDepth <= 0x7fff_ffff
      modifies base`q, base.mem
      ensures Valid() && Pending(base.q) == []
      ensures Value() == NewValue(maxDepth)
    {
      hide Fits, InUse, Ok, SetTo, H, HeldBlocks, HeldSame, Tidy, EventsCounted, Pending, QueueOf, NewImage;
      var depth := if maxDepth == 0 then SEM_VALUE_MAX else maxDepth;
      NewQueue();
      ghost var q0 := base.q;
      StoreSetting(MAX_DEPTH, depth);
      ghost var q1 := base.q;
      SetKeeps(q0, q1, MAX_DEPTH, depth, peak);
      StoreSetting(ENQ_SEM, depth);
      SetKeeps(q1, base.q, ENQ_SEM, depth, peak);
      SemWords(base.q);
    }

    /** In the middle of an operation that has the data blocks `held` in hand. */
    ghost predicate Busy(held: set<int>)
      reads this, base, base.mem
    {
      base.Valid() && HeldBlocks(base.q) == held && Tidy(base.q, peak) && EventsCounted(base.q)
    }

    /** Between operations: nothing is in hand, and the counters agree. */
    ghost predicate Valid()
      reads this, base, base.mem
    {
      Busy({}) && T.Consistent(QueueOf(base.q)) && H(base.q, ENQ_SEM) >= 0
    }

    /** What callers of the queue see. */
    ghost function Value(): A.Queue
      reads this, base
    {
      QueueOf(base.q)
    }

    /** The nodes in use: one for each item and each pending event. */
    ghost function Use(): nat
      reads this, base
    {
      |Value().fifo| + |Value().lifo| + |Pending(base.q)|
    }

    /** No more nodes were ever carved than were in use at once, besides the three dummies. */
    lemma UseBound(held: set<int>)
      requires Busy(held)
      ensures Use() <= peak && |NodeBlocks(base.q)| <= 3 + peak
    {
      hide Fits, InUse, Ok, H, Tidy, EventsCounted, Fifo, LifoItems, Pending, HeldBlocks;
      UseIsContents(base.q);
      TidyBound(base.q, peak);
    }

    // ---------------------------------------------------------- settings

    /** A store, CAS or fetch-and-add on a word of the settings. */
    method StoreSetting(i: int, v: int)
      requires base.Valid() && Setting(i)
      modifies base`q, base.mem
      ensures base.Valid() && SetTo(old(base.q), base.q, i, v)
    {
      hide Fits, InUse, Ok, SetTo, PutH, H, Setting;
      SettingKeeps(base.q, i, v);
      base.StoreHeader(i, v);
    }

    // ---------------------------------------------------------- events

    /** Queues a subscribed event, which uses up the subscription; without memory the event is lost. */
    method AddEvent(event: int, ghost held: set<int>) returns (queued: bool)
      requires Busy(held) && T.IsEvent(event)
      modifies this`peak, base, base.mem
      ensures Busy(held) && (base.mem == old(base.mem) || fresh(base.mem))
      ensures HeldSame(old(base.q), base.q) && old(base.denied) <= base.denied
      ensures peak == Max(old(peak), Use()) && old(Use()) <= Use()
      ensures Value() == A.Raise(A.Effect(old(Value()), []), event).q
      ensures queued <==> A.Subscribed(old(Value()), event) && base.denied == old(base.denied)
      ensures Pending(base.q) == old(Pending(base.q)) + (if queued then [event] else [])
    {
      hide Fits, InUse, Ok, SetTo, H, HeldBlocks, HeldSame, Tidy, EventsCounted, Pending, QueueOf, GainedNode,
           Unmoved, NodeSet, AddContents, HasFlag, WithoutFlag, CanAdd, A.EventMask, PutW, W, Len, Quiet;
      ghost var q0 := base.q;
      base.HeaderWord(FLAGS);
      SemWords(q0);
      HeldSelf(q0);
      var mask := A.EventMask(event);
      UseBound(held);
      if !HasFlag(base.mem[FLAGS], mask) {
        return false;
      }
      var prev := base.mem[FLAGS];
      StoreSetting(FLAGS, WithoutFlag(prev, mask));
      ghost var q1 := base.q;
      FlagsTurned(q0, q1, event, WithoutFlag(prev, mask));
      SetKeeps(q0, q1, FLAGS, WithoutFlag(prev, mask), peak);
      var slot := base.AllocIdxSlots();
      ghost var q2 := base.q;
      if slot == 0 {
        UnmovedQuiet(q1, q2, peak);
        QuietAfter(q0, q1, q2);
        return false;
      }
      NodeIn(q1, q2, slot);
      NodeStore(q2, slot, EVENT_OFFSET, event);
      base.Store(slot, slot + EVENT_OFFSET, event);
      ghost var q3 := base.q;
      EventReady(q2, q3, slot, event);
      base.AddEnd(slot, Events);
      ghost var q4 := base.q;
      base.HeaderWord(EVNT_SEM);
      StoreSetting(EVNT_SEM, base.mem[EVNT_SEM] + 1);
      EventQueued(q1, q2, q3, q4, base.q, slot, event, peak);
      peak := Max(peak, InUse(q4));
      UseIsContents(base.q);
      QuietAfter(q0, q1, base.q);
      return true;
    }

    /** The same, with a record of the events raised since the pending ones were `p0` and the refusals `d0`. */
    method Signal(event: int, ghost held: set<int>, ghost s: A.Effect, ghost p0: seq<int>, ghost d0: nat)
      returns (ghost s': A.Effect)
      requires Busy(held) && T.IsEvent(event) && Told(s, p0, d0)
      modifies this`peak, base, base.mem
      ensures Busy(held) && (base.mem == old(base.mem) || fresh(base.mem)) && HeldSame(old(base.q), base.q)
      ensures s' == A.Raise(s, event) && Told(s', p0, d0)
      ensures peak == Max(old(peak), Use()) && old(Use()) <= Use()
    {
      hide Fits, InUse, Ok, H, HeldBlocks, HeldSame, Tidy, EventsCounted, Pending, QueueOf, HasFlag, WithoutFlag,
           A.EventMask;
      var _ := AddEvent(event, held);
      s' := A.Raise(s, event);
    }

    /** The queue is as after the events of `s`; they are pending behind `p0`, unless memory was refused. */
    ghost predicate Told(s: A.Effect, p0: seq<int>, d0: nat)
      reads this, base
    {
      && Value() == s.q && d0 <= base.denied && p0 <= Pending(base.q) && |Pending(base.q)| <= |p0| + |s.raised|
      && (base.denied == d0 ==> Pending(base.q) == p0 + s.raised)
    }

    /** set_flag: turns flags on if none of them is; returns whether this call has done it. */
    method SetFlag(mask: int, ghost held: set<int>) returns (turned: bool)
      requires Busy(held) && IsFlags(mask)
      modifies base`q, base.mem
      ensures Busy(held) && HeldSame(old(base.q), base.q) && Pending(base.q) == old(Pending(base.q))
      ensures turned <==> Common(old(Value()).flags, mask) == 0
      ensures Value() == old(Value()).(flags := SetFlags(old(Value()).flags, mask))
    {
      hide Fits, InUse, Ok, SetTo, H, HeldBlocks, HeldSame, Tidy, EventsCounted, Pending, QueueOf, HasFlag;
      ghost var q0 := base.q;
      SemWords(q0);
      HeldSelf(q0);
      base.HeaderWord(FLAGS);
      var prev := base.mem[FLAGS];
      if Common(prev, mask) != 0 {
        return false;
      }
      StoreSetting(FLAGS, prev + mask);
      SetKeeps(q0, base.q, FLAGS, prev + mask, peak);
      return true;
    }

    // ---------------------------------------------------------- times

    /** A DWCAS on one of the four times. */
    method StoreTime(i: int, t: Time, ghost held: set<int>)
      requires Busy(held) && (i == TS_SEC || i == EMPTY_SEC || i == LIMIT_SEC || i == TARGET_SEC)
      modifies base`q, base.mem
      ensures Busy(held) && HeldSame(old(base.q), base.q) && Pending(base.q) == old(Pending(base.q))
      ensures Value() == if i == TS_SEC then old(Value()).(stamp := t)
                         else if i == EMPTY_SEC then old(Value()).(empty := t)
                         else if i == LIMIT_SEC then old(Value()).(limit := t)
                         else old(Value()).(target := t)
    {
      hide Fits, InUse, Ok, SetTo, H, HeldBlocks, HeldSame, Tidy, EventsCounted, Pending, QueueOf;
      ghost var q0 := base.q;
      StoreSetting(i, t.sec);
      ghost var q1 := base.q;
      SetKeeps(q0, q1, i, t.sec, peak);
      StoreSetting(i + 1, t.nsec);
      SetKeeps(q1, base.q, i + 1, t.nsec, peak);
      HeldTrans(q0, q1, base.q);
    }

    /** Reads the clock. */
    method Now() returns (now: Time)
      modifies this`tick
      ensures now == clock(old(tick)) && tick == old(tick) + 1
    {
      now := clock(tick);
      tick := tick + 1;
    }

    /** Moves the time of emptiness forward to now. */
    method UpdateEmptyTimestamp(ghost held: set<int>)
      requires Busy(held)
      modifies this`tick, base`q, base.mem
      ensures Busy(held) && HeldSame(old(base.q), base.q) && Pending(base.q) == old(Pending(base.q))
      ensures Value() == A.TouchEmpty(old(Value()), clock(old(tick))) && tick == old(tick) + 1
      ensures var last, now := old(Value()).empty, clock(old(tick));
              Value().empty == if Less(last, now) then now else last
    {
      hide Fits, InUse, Ok, SetTo, H, HeldBlocks, HeldSame, Tidy, EventsCounted, Pending, QueueOf;
      HeldSelf(base.q);
      SemWords(base.q);
      base.HeaderWord(EMPTY_SEC);
      base.HeaderWord(EMPTY_SEC + 1);
      var now := Now();
      var last := Time(base.mem[EMPTY_SEC], base.mem[EMPTY_SEC + 1]);
      if Less(last, now) {
        StoreTime(EMPTY_SEC, now, held);
      }
    }

    // ---------------------------------------------------------- adding

    /** The first add to a queue activates it, which raises INIT. */
    method Activate(ghost p0: seq<int>, ghost d0: nat) returns (ghost s: A.Effect)
      requires Busy({}) && p0 == Pending(base.q) && d0 == base.denied
      modifies this`peak, base, base.mem
      ensures Busy({}) && (base.mem == old(base.mem) || fresh(base.mem)) && Told(s, p0, d0)
      ensures s == A.RaiseIf(A.Effect(old(Value()).(flags := WithFlag(old(Value()).flags, A.ACTIVATED)), []),
                             !HasFlag(old(Value()).flags, A.ACTIVATED), A.EVNT_INIT)
      ensures peak == Max(old(peak), Use()) && old(Use()) <= Use()
    {
      hide Fits, InUse, Ok, H, HeldBlocks, HeldSame, Tidy, EventsCounted, Pending, QueueOf, HasFlag, A.Raise;
      base.HeaderWord(FLAGS);
      SemWords(base.q);
      s := A.Effect(Value(), []);
      UseBound({});
      if !HasFlag(base.mem[FLAGS], A.ACTIVATED) {
        var turned := SetFlag(A.ACTIVATED, {});
        s := A.Effect(Value(), []);
        if turned {
          s := Signal(A.EVNT_INIT, {}, s, p0, d0);
        }
      }
    }

    /** The other events of an add. */
    method SignalEnq(count: int, ghost s: A.Effect, ghost p0: seq<int>, ghost d0: nat) returns (ghost s': A.Effect)
      requires Busy({}) && Told(s, p0, d0)
      modifies this`peak, base, base.mem
      ensures Busy({}) && (base.mem == old(base.mem) || fresh(base.mem)) && Told(s', p0, d0)
      ensures s' == A.RaiseIf(A.RaiseIf(s, count == 0, A.EVNT_NONEMPTY), count == s.q.depth - 1, A.EVNT_LIMIT)
      ensures peak == Max(old(peak), Use()) && old(Use()) <= Use()
    {
      hide Fits, InUse, Ok, H, HeldBlocks, HeldSame, Tidy, EventsCounted, Pending, QueueOf, HasFlag, WithoutFlag,
           A.EventMask;
      UseBound({});
      s' := s;
      if count == 0 {
        s' := Signal(A.EVNT_NONEMPTY, {}, s', p0, d0);
      }
      base.HeaderWord(MAX_DEPTH);
      SemWords(base.q);
      if count == base.mem[MAX_DEPTH] - 1 {
        s' := Signal(A.EVNT_LIMIT, {}, s', p0, d0);
      }
    }

    /** After the link: the time of emptiness, the events of an add, the time of the last add. */
    method PostProcessEnq(count: int, stamp: Time, ghost p0: seq<int>, ghost d0: nat)
      requires Busy({}) && p0 == Pending(base.q) && d0 == base.denied
      modifies this`tick, this`peak, base, base.mem
      ensures Busy({}) && (base.mem == old(base.mem) || fresh(base.mem))
      ensures Told(A.AfterEnq(old(Value()), count, stamp, clock(old(tick))), p0, d0)
      ensures base.denied == old(base.denied) ==>
                L.AddTells(old(Value()), count, stamp, clock(old(tick)), p0, Value(), Pending(base.q))
      ensures tick == old(tick) + if count == 0 then 1 else 0
      ensures peak == Max(old(peak), Use()) && old(Use()) <= Use()
    {
      hide Fits, InUse, Ok, H, HeldBlocks, HeldSame, Tidy, EventsCounted, Pending, QueueOf, HasFlag, WithFlag,
           WithoutFlag, A.EventMask, L.AddTells;
      L.AfterEnqTells(Value(), count, stamp, clock(tick), p0);
      if count == 0 {
        UpdateEmptyTimestamp({});
      }
      ghost var s := Activate(p0, d0);
      s := SignalEnq(count, s, p0, d0);
      StoreTime(TS_SEC, stamp, {});
    }

    /** Pushes a node onto the stack of the adaptive LIFO. */
    method LifoAdd(slot: int)
      requires base.Valid() && CanPush(base.q, Lifo, slot)
      modifies base`q, base.mem
      ensures base.Valid() && PushContents(old(base.q), base.q, Lifo, slot)
    {
      hide Fits, InUse, Ok, H, W, Len, PutPair, PutHPair, Push, CanPush, PushContents, Fixed;
      ghost var q0 := base.q;
      PushSlots(q0, Lifo, slot);
      PushKeeps(q0, Lifo, slot);
      PushHistory(q0, Lifo, slot);
      var done := false;
      while !done
        invariant base.Shaped()
        invariant !done ==> base.q == q0
        invariant done ==> base.q == PushStores(q0, Lifo, slot)
        decreases !done
      {
        base.HeaderWord(STACK_HEAD);
        base.HeaderWord(STACK_HEAD + 1);
        var before := Pair(base.mem[STACK_HEAD], base.mem[STACK_HEAD + 1]);
        base.StoreLink(slot, before.lo, before.hi);
        SameHeader(q0, base.q);
        done := base.DwcasHeader(STACK_HEAD, before, Pair(slot, before.hi + 1));
      }
      HistoryFits(base.mem[..], base.q, Push(q0, Lifo, slot));
      base.q := Push(q0, Lifo, slot);
    }

    /** Gives a new node its data block and links it, on the stack or at the end of the FIFO; counts the item. */
    method LinkNode(slot: int, d: int, ghost q0: Image) returns (count: int)
      requires base.Valid() && GainedNode(q0, base.q, slot) && Carries(q0, d) && Tidy(q0, peak) && EventsCounted(q0)
      modifies this`peak, base`q, base.mem
      ensures Busy({}) && Pending(base.q) == Pending(q0)
      ensures Value() == A.Link(QueueOf(q0), DataItem(q0, d)) && count == QueueOf(q0).count
      ensures var q := QueueOf(q0);
              if HasFlag(q.flags, 4) && q.count >= q.level then
                Value().lifo == q.lifo + [DataItem(q0, d)] && Value().fifo == q.fifo
              else
                Value().fifo == q.fifo + [DataItem(q0, d)] && Value().lifo == q.lifo
      ensures peak == Max(old(peak), Use())
    {
      hide Fits, InUse, Ok, H, W, Len, SetTo, HeldBlocks, HeldSame, Tidy, EventsCounted, Pending, QueueOf, GainedNode,
           NodeSet, AddContents, PushContents, HasFlag, CanAdd, CanPush, Carries, DataItem, NodeHolds, PutW;
      ghost var q1 := base.q;
      NodeIn(q0, q1, slot);
      NodeStore(q1, slot, VALUE_OFFSET, d);
      base.Store(slot, slot + VALUE_OFFSET, d);
      ghost var q2 := base.q;
      HoldsIs(q0, q1, q2, slot, d);
      HoldsReady(q0, q1, q2, slot, d, peak);
      SemWords(q2);
      base.HeaderWord(FLAGS);
      base.HeaderWord(COUNT);
      base.HeaderWord(LEVEL);
      var push := HasFlag(base.mem[FLAGS], A.LIFO_ON_LEVEL) && base.mem[COUNT] >= base.mem[LEVEL];
      if push {
        LifoAdd(slot);
      } else {
        base.AddEnd(slot, Items);
      }
      ghost var q3 := base.q;
      base.HeaderWord(COUNT);
      count := base.mem[COUNT];
      StoreSetting(COUNT, count + 1);
      if push {
        LifoLinked(q0, q1, q2, q3, base.q, slot, d, peak);
      } else {
        FifoLinked(q0, q1, q2, q3, base.q, slot, d, peak);
      }
      SetKeeps(q3, base.q, COUNT, count + 1, peak);
      SemWords(q0);
      peak := Max(peak, InUse(q3));
      UseIsContents(base.q);
    }

    /** Queues the data block `d` under a new node; without memory for the node, the data block is freed. */
    method EnqData(d: int) returns (ok: bool)
      requires Busy({d}) && Carries(base.q, d)
      modifies this`tick, this`peak, base, base.mem
      ensures Busy({}) && (base.mem == old(base.mem) || fresh(base.mem))
      ensures !ok ==> base.denied == old(base.denied) + 1 && Value() == old(Value())
      ensures !ok ==> Pending(base.q) == old(Pending(base.q)) && tick == old(tick)
      ensures ok ==> Told(A.Enqueue(old(Value()), DataItem(old(base.q), d), clock(old(tick))), old(Pending(base.q)),
                old(base.denied))
      ensures ok ==> tick == old(tick) + if old(Value()).count == 0 then 1 else 0
      ensures peak == Max(old(peak), Use())
    {
      hide Fits, InUse, Ok, H, W, Len, HeldBlocks, HeldSame, Tidy, EventsCounted, Pending, QueueOf, GainedNode,
           Unmoved, Carries, DataItem, HeaderOk, Released, A.AfterEnq, A.Link;
      ghost var q0 := base.q;
      CarriesBlock(q0, d);
      StampWords(q0, d);
      base.BlockWord(d, TM_SEC);
      base.BlockWord(d, TM_NSEC);
      var stamp := Time(base.mem[d + TM_SEC], base.mem[d + TM_NSEC]);
      var slot := base.AllocIdxSlots();
      ghost var q1 := base.q;
      if slot == 0 {
        UnmovedQuiet(q0, q1, peak);
        StillCarries(q0, q1, d);
        CarriesBlock(q1, d);
        base.FreeDataSlots(d);
        ReleasedQuiet(q1, base.q, d, peak);
        UseBound({});
        return false;
      }
      var count := LinkNode(slot, d, q0);
      PostProcessEnq(count, stamp, Pending(base.q), base.denied);
      return true;
    }

    /** Stores a word of the data block in hand, behind its header. */
    method StoreWord(d: int, j: int, v: int)
      requires Busy({d}) && Carries(base.q, d) && 1 <= j < Len(base.q, d)
      modifies base`q, base.mem
      ensures Busy({d}) && Carries(base.q, d) && Value() == old(Value()) && Pending(base.q) == old(Pending(base.q))
      ensures Len(base.q, d) == Len(old(base.q), d)
      ensures forall i :: W(base.q, d, i) == if i == j then v else W(old(base.q), d, i)
      ensures H(base.q, ID_CNTR) == H(old(base.q), ID_CNTR)
    {
      hide Fits, InUse, Ok, H, W, Len, HeldBlocks, Tidy, EventsCounted, Pending, QueueOf, Carries, PutW;
      FillKeeps(base.q, d, j, v, peak);
      CarriesHeld(base.q, d);
      CarriesHeld(PutW(base.q, d, j, v), d);
      base.Store(d, d + j, v);
    }

    /** Draws a number from the id counter. */
    method DrawId(d: int) returns (id: int)
      requires Busy({d}) && Carries(base.q, d)
      modifies base`q, base.mem
      ensures Busy({d}) && Carries(base.q, d) && Value() == old(Value()) && Pending(base.q) == old(Pending(base.q))
      ensures Len(base.q, d) == Len(old(base.q), d) && forall i :: W(base.q, d, i) == W(old(base.q), d, i)
      ensures id == H(old(base.q), ID_CNTR) && H(base.q, ID_CNTR) == id + 1
    {
      hide Fits, InUse, Ok, H, W, Len, HeldBlocks, Tidy, EventsCounted, Pending, QueueOf, Carries, PutH;
      base.HeaderWord(ID_CNTR);
      id := base.mem[ID_CNTR];
      CounterKeeps(base.q, id + 1, peak);
      CarriesSame(base.q, PutH(base.q, ID_CNTR, id + 1), d);
      base.StoreHeader(ID_CNTR, id + 1);
    }

    /**
     * Allocates a data block and copies an item into it: the time, a unique id,
     * the type, the number of fields, the length in bytes, and the words of the
     * data.
     */
    method CopyItem(kind: int, fields: int, length: int, data: seq<int>) returns (d: int)
      requires Busy({}) && 1 <= |data| <= 0x4000_0000 - DATA_HDR
      modifies this`tick, base, base.mem
      ensures (base.mem == old(base.mem) || fresh(base.mem)) && tick == old(tick) + 1
      ensures Value() == old(Value()) && Pending(base.q) == old(Pending(base.q))
      ensures d == 0 ==> Busy({}) && base.denied == old(base.denied) + 1
      ensures d != 0 ==> Busy({d}) && Carries(base.q, d) && base.denied == old(base.denied)
      ensures d != 0 ==> Holds(DataItem(base.q, d), clock(old(tick)), kind, fields, length, data)
      ensures d != 0 ==> DataItem(base.q, d)[2] + 1 == H(base.q, ID_CNTR)
    {
      hide Fits, InUse, Ok, H, W, Len, HeldBlocks, Tidy, EventsCounted, Pending, QueueOf, Carries, GainedData,
           Unmoved, NoFit, RoundUp;
      ghost var q0 := base.q;
      var now := Now();
      d := base.AllocDataSlots(DATA_HDR + |data|);
      if d == 0 {
        UnmovedQuiet(q0, base.q, peak);
        return;
      }
      GainedCarries(q0, base.q, d, DATA_HDR + |data|, peak);
      CarriesHeld(base.q, d);
      StoreWord(d, TM_SEC, now.sec);
      StoreWord(d, TM_NSEC, now.nsec);
      var id := DrawId(d);
      StoreWord(d, UID, id);
      StoreWord(d, TYPE, kind);
      StoreWord(d, VEC_CNT, fields);
      StoreWord(d, DATA_LENGTH, length);
      for i := 0 to |data|
        invariant Busy({d}) && Carries(base.q, d) && Value() == old(Value()) && Pending(base.q) == old(Pending(base.q))
        invariant (base.mem == old(base.mem) || fresh(base.mem)) && base.denied == old(base.denied)
        invariant tick == old(tick) + 1
        invariant Len(base.q, d) >= DATA_HDR + |data|
        invariant W(base.q, d, TM_SEC) == now.sec && W(base.q, d, TM_NSEC) == now.nsec
        invariant W(base.q, d, UID) == id && H(base.q, ID_CNTR) == id + 1
        invariant W(base.q, d, TYPE) == kind && W(base.q, d, VEC_CNT) == fields && W(base.q, d, DATA_LENGTH) == length
        invariant forall k :: 0 <= k < i ==> W(base.q, d, DATA_HDR + k) == data[k]
      {
        StoreWord(d, DATA_HDR + i, data[i]);
      }
      HeldWords(base.q, d, now, kind, fields, length, data);
    }

    // ---------------------------------------------------------- semaphores

    /** sem_trywait. */
    method TryWait(sem: int, ghost held: set<int>) returns (ok: bool)
      requires Busy(held) && (sem == DEQ_SEM || sem == ENQ_SEM)
      modifies base`q, base.mem
      ensures Busy(held) && HeldSame(old(base.q), base.q) && Pending(base.q) == old(Pending(base.q))
      ensures ok <==> H(old(base.q), sem) > 0
      ensures Value() == if !ok then old(Value())
                         else if sem == DEQ_SEM then old(Value()).(deq := old(Value()).deq - 1)
                         else old(Value()).(enq := old(Value()).enq - 1)
    {
      hide Fits, InUse, Ok, H, SetTo, HeldBlocks, HeldSame, Tidy, EventsCounted, Pending, QueueOf;
      ghost var q0 := base.q;
      HeldSelf(q0);
      SemWords(q0);
      base.HeaderWord(sem);
      ok := base.mem[sem] > 0;
      if ok {
        var v := base.mem[sem] - 1;
        StoreSetting(sem, v);
        SetKeeps(q0, base.q, sem, v, peak);
      }
    }

    /** sem_post. */
    method Post(sem: int, ghost held: set<int>)
      requires Busy(held) && (sem == DEQ_SEM || sem == ENQ_SEM)
      modifies base`q, base.mem
      ensures Busy(held) && HeldSame(old(base.q), base.q) && Pending(base.q) == old(Pending(base.q))
      ensures Value() == if sem == DEQ_SEM then old(Value()).(deq := old(Value()).deq + 1)
                         else old(Value()).(enq := old(Value()).enq + 1)
    {
      hide Fits, InUse, Ok, H, SetTo, HeldBlocks, HeldSame, Tidy, EventsCounted, Pending, QueueOf;
      ghost var q0 := base.q;
      SemWords(q0);
      base.HeaderWord(sem);
      var v := base.mem[sem] + 1;
      StoreSetting(sem, v);
      SetKeeps(q0, base.q, sem, v, peak);
    }

    /** Raises the LEVEL event once the queue is as deep as its level. */
    method CheckForLevelEvent(ghost s: A.Effect, ghost p0: seq<int>, ghost d0: nat)
      requires Busy({}) && Told(s, p0, d0)
      modifies this`peak, base, base.mem
      ensures Busy({}) && (base.mem == old(base.mem) || fresh(base.mem))
      ensures Told(A.CheckLevel(s), p0, d0)
      ensures peak == Max(old(peak), Use()) && old(Use()) <= Use()
    {
      hide Fits, InUse, Ok, H, HeldBlocks, HeldSame, Tidy, EventsCounted, Pending, QueueOf, HasFlag, WithoutFlag,
           A.EventMask;
      SemWords(base.q);
      base.HeaderWord(LEVEL);
      base.HeaderWord(FLAGS);
      base.HeaderWord(COUNT);
      var level := base.mem[LEVEL];
      UseBound({});
      if level <= 0 || !HasFlag(base.mem[FLAGS], A.EventMask(A.EVNT_LEVEL)) {
        return;
      }
      if base.mem[COUNT] >= level {
        var _ := Signal(A.EVNT_LEVEL, {}, s, p0, d0);
      }
    }

    // ---------------------------------------------------------- shr_q_add

    /** enq and enqv: stores the item and queues it. */
    method Enq(kind: int, fields: int, length: int, data: seq<int>) returns (ok: bool, ghost item: seq<int>)
      requires Busy({}) && 1 <= |data| <= 0x4000_0000 - DATA_HDR
      modifies this`tick, this`peak, base, base.mem
      ensures Busy({}) && (base.mem == old(base.mem) || fresh(base.mem))
      ensures !ok ==> base.denied > old(base.denied) && tick == old(tick) + 1
      ensures !ok ==> Value() == old(Value()) && Pending(base.q) == old(Pending(base.q))
      ensures ok ==>
                && Holds(item, clock(old(tick)), kind, fields, length, data)
                && Told(A.Enqueue(old(Value()), item, clock(old(tick) + 1)), old(Pending(base.q)), old(base.denied))
                && tick == old(tick) + if old(Value()).count == 0 then 2 else 1
      ensures peak == Max(old(peak), Use())
    {
      hide Fits, InUse, Ok, H, HeldBlocks, HeldSame, Tidy, EventsCounted, Pending, QueueOf, Carries, DataItem, Holds,
           A.Enqueue;
      item := [];
      var d := CopyItem(kind, fields, length, data);
      if d == 0 {
        UseBound({});
        return false, [];
      }
      item := DataItem(base.q, d);
      ok := EnqData(d);
    }

    /**
     * shr_q_add and shr_q_addv behind the checks of their arguments, without
     * blocking.  `item` is what has been stored: the data with its header.
     */
    method AddWords(kind: int, fields: int, length: int, data: seq<int>) returns (status: Status, ghost item: seq<int>)
      requires Valid() && 1 <= |data| <= 0x4000_0000 - DATA_HDR
      modifies this`tick, this`peak, base, base.mem
      ensures Valid() && (base.mem == old(base.mem) || fresh(base.mem))
      ensures status == OkStatus || status == LimitStatus || status == NoMemoryStatus
      ensures status == LimitStatus <==> old(Value()).enq <= 0
      ensures status == LimitStatus ==> tick == old(tick) && base.denied == old(base.denied)
      ensures status == NoMemoryStatus ==> tick == old(tick) + 1
      ensures status == NoMemoryStatus ==> base.denied > old(base.denied)
      ensures status != OkStatus ==> Value() == old(Value()) && Pending(base.q) == old(Pending(base.q))
      ensures status == OkStatus ==>
                && Holds(item, clock(old(tick)), kind, fields, length, data)
                && Told(A.Add(old(Value()), item, clock(old(tick) + 1)), old(Pending(base.q)), old(base.denied))
                && tick == old(tick) + if old(Value()).count == 0 then 2 else 1
      ensures peak == Max(old(peak), Use())
    {
      hide Fits, InUse, Ok, H, HeldBlocks, HeldSame, Tidy, EventsCounted, Pending, QueueOf, Holds, A.Enqueue,
           A.CheckLevel, T.Consistent;
      item := [];
      SemWords(base.q);
      var gate := TryWait(ENQ_SEM, {});
      SemWords(base.q);
      UseBound({});
      if !gate {
        return LimitStatus, [];
      }
      ghost var v1 := Value();
      ghost var p0, d0 := Pending(base.q), base.denied;
      var ok;
      ok, item := Enq(kind, fields, length, data);
      if !ok {
        Post(ENQ_SEM, {});
        SemWords(base.q);
        return NoMemoryStatus, [];
      }
      ghost var s := A.Enqueue(v1, item, clock(old(tick) + 1));
      Post(DEQ_SEM, {});
      CheckForLevelEvent(s.(q := Value()), p0, d0);
      T.AddConsistent(old(Value()), item, clock(old(tick) + 1));
      SemWords(base.q);
      status := OkStatus;
    }

    /** shr_q_add: the bytes of one value; `given` says whether there is a pointer to them. */
    method ShrqAdd(value: seq<C.Byte>, given: bool) returns (status: Status, ghost item: seq<int>)
      requires Valid() && |value| <= C.LONG * (0x4000_0000 - DATA_HDR)
      modifies this`tick, this`peak, base, base.mem
      ensures Valid() && (base.mem == old(base.mem) || fresh(base.mem))
      ensures status == ArgStatus <==> !given || |value| == 0
      ensures status == StateStatus <==> given && |value| > 0 && !mode.WriteOnly? && !mode.ReadWrite?
      ensures status == LimitStatus <==>
                given && |value| > 0 && (mode.WriteOnly? || mode.ReadWrite?) && old(Value()).enq <= 0
      ensures status == NoMemoryStatus ==> base.denied > old(base.denied)
      ensures status != EmptyStatus
      ensures status != OkStatus && status != NoMemoryStatus ==> tick == old(tick) && base.denied == old(base.denied)
      ensures status == NoMemoryStatus ==> tick == old(tick) + 1
      ensures status != OkStatus ==> Value() == old(Value()) && Pending(base.q) == old(Pending(base.q))
      ensures status == OkStatus ==>
                && FieldsOf(item) == [C.Field(STREAM, value, true)] && A.Stamp(item) == clock(old(tick))
                && |item| >= 6 && item[0] == clock(old(tick)).sec && item[1] == clock(old(tick)).nsec
                && Told(A.Add(old(Value()), item, clock(old(tick) + 1)), old(Pending(base.q)), old(base.denied))
                && tick == old(tick) + if old(Value()).count == 0 then 2 else 1
      ensures peak == Max(old(peak), Use())
    {
      hide Busy, QueueOf, Pending, A.Add, T.Consistent, Told, C.Pack, FieldsOf;
      item := [];
      ValidFacts();
      if !given || |value| <= 0 {
        return ArgStatus, [];
      }
      if !mode.WriteOnly? && !mode.ReadWrite? {
        return StateStatus, [];
      }
      C.BytesRoundTrip(value);
      status, item := AddWords(STREAM, 1, |value|, C.Pack(value));
      if status == OkStatus {
        ValueHeld(item, clock(old(tick)), C.Field(STREAM, value, true));
      }
    }

    /** A gate taken and given back, as when an add turns out to have nothing to store. */
    method RejectValue() returns (status: Status)
      requires Valid()
      modifies base`q, base.mem
      ensures Valid() && Value() == old(Value()) && Pending(base.q) == old(Pending(base.q))
      ensures status == if old(Value()).enq <= 0 then LimitStatus else ArgStatus
    {
      hide Fits, InUse, Ok, H, HeldBlocks, HeldSame, Tidy, EventsCounted, Pending, QueueOf, T.Consistent;
      SemWords(base.q);
      var gate := TryWait(ENQ_SEM, {});
      SemWords(base.q);
      if !gate {
        return LimitStatus;
      }
      Post(ENQ_SEM, {});
      SemWords(base.q);
      status := ArgStatus;
    }

    /**
     * enqv with an entry that copy_vector rejects: the data block has been taken by
     * then, and nothing gives it back.
     */
    method RejectVector(fields: int, length: int, words: seq<int>) returns (status: Status, ghost leaked: set<int>)
      requires Valid() && 1 <= |words| <= 0x4000_0000 - DATA_HDR
      modifies this`tick, base, base.mem
      ensures (base.mem == old(base.mem) || fresh(base.mem))
      ensures Value() == old(Value()) && Pending(base.q) == old(Pending(base.q))
      ensures status == LimitStatus <==> old(Value()).enq <= 0
      ensures status == LimitStatus || status == NoMemoryStatus || status == ArgStatus
      ensures status != ArgStatus ==> Valid() && leaked == {}
      ensures status == ArgStatus ==> Busy(leaked) && |leaked| == 1
      ensures status == NoMemoryStatus <==> base.denied > old(base.denied)
      ensures base.denied >= old(base.denied)
      ensures tick == old(tick) + if status == LimitStatus then 0 else 1
    {
      hide Fits, InUse, Ok, H, HeldBlocks, HeldSame, Tidy, EventsCounted, Pending, QueueOf, Holds, T.Consistent,
           Carries;
      leaked := {};
      SemWords(base.q);
      var gate := TryWait(ENQ_SEM, {});
      SemWords(base.q);
      if !gate {
        return LimitStatus, {};
      }
      var d := CopyItem(C.SH_VECTOR_T, fields, length, words);
      if d == 0 {
        Post(ENQ_SEM, {});
        SemWords(base.q);
        return NoMemoryStatus, {};
      }
      leaked := {d};
      Post(ENQ_SEM, leaked);
      SemWords(base.q);
      status := ArgStatus;
    }

    /**
     * shr_q_addv: a vector of at least two entries, or a single value.  `leaked`
     * is the data block that is lost for good when an entry is rejected: that is
     * so exactly if a place was free, memory was granted and an entry of a vector
     * has no type, no bytes or a null base.
     */
    method ShrqAddv(fs: seq<C.Field>, given: bool)
      returns (status: Status, ghost item: seq<int>, ghost leaked: set<int>)
      requires Valid() && (forall f :: f in fs ==> C.InRange(f)) && |fs| <= C.INT_MAX
      requires if |fs| == 1 then |fs[0].data| <= C.LONG * (0x4000_0000 - DATA_HDR)
               else C.Space(fs) + C.LONG * C.Ragged(fs) <= C.LONG * 0x4000_0000
      modifies this`tick, this`peak, base, base.mem
      ensures leaked == {} ==> Valid()
      ensures leaked != {} ==> Busy(leaked) && |leaked| == 1
      ensures base.mem == old(base.mem) || fresh(base.mem)
      ensures var open := given && |fs| > 0 && (mode.WriteOnly? || mode.ReadWrite?);
              && (status == StateStatus <==> given && |fs| > 0 && !mode.WriteOnly? && !mode.ReadWrite?)
              && (status == LimitStatus <==> open && old(Value()).enq <= 0)
              && (Sound(fs) <==>
                   if |fs| == 1 then fs[0].based && |fs[0].data| > 0
                   else |fs| >= 2 && forall f :: f in fs ==> f.kind > 0 && |f.data| > 0 && f.based)
              && (status == OkStatus ==> open && Sound(fs))
              && (status == NoMemoryStatus ==> open && base.denied > old(base.denied))
              && (leaked != {} <==>
                   open && old(Value()).enq > 0 && |fs| >= 2 && !Sound(fs) && base.denied == old(base.denied))
              && (status == ArgStatus <==>
                   !given || |fs| == 0 ||
                   (open && old(Value()).enq > 0 && !Sound(fs) && base.denied == old(base.denied)))
      ensures status != EmptyStatus
      ensures status == LimitStatus ==> tick == old(tick) && base.denied == old(base.denied)
      ensures status == NoMemoryStatus ==> tick == old(tick) + 1
      ensures status != OkStatus ==> Value() == old(Value()) && Pending(base.q) == old(Pending(base.q))
      ensures status == OkStatus ==>
                && FieldsOf(item) == fs && A.Stamp(item) == clock(old(tick))
                && |item| >= 6 && item[0] == clock(old(tick)).sec && item[1] == clock(old(tick)).nsec
                && Told(A.Add(old(Value()), item, clock(old(tick) + 1)), old(Pending(base.q)), old(base.denied))
                && tick == old(tick) + if old(Value()).count == 0 then 2 else 1
      ensures peak == Max(old(peak), Use())
    {
      hide Busy, QueueOf, Pending, A.Add, T.Consistent, Told, C.Pack, FieldsOf, C.Spelled, C.Extent, C.Ragged,
           C.FieldOk,
           C.InRange;
      item, leaked := [], {};
      SoundMeans(fs);
      hide Sound;
      ValidFacts();
      if !given || |fs| < 1 {
        return ArgStatus, [], {};
      }
      if !mode.WriteOnly? && !mode.ReadWrite? {
        return StateStatus, [], {};
      }
      if |fs| == 1 {
        status, item := AddOne(fs[0]);
        assert fs == [fs[0]];
      } else {
        status, item, leaked := AddVector(fs);
      }
    }

    /** shr_q_addv with one entry: its type is not looked at. */
    method AddOne(f: C.Field) returns (status: Status, ghost item: seq<int>)
      requires Valid() && |f.data| <= C.LONG * (0x4000_0000 - DATA_HDR)
      modifies this`tick, this`peak, base, base.mem
      ensures Valid() && (base.mem == old(base.mem) || fresh(base.mem))
      ensures status == LimitStatus <==> old(Value()).enq <= 0
      ensures status == OkStatus || status == LimitStatus || status == NoMemoryStatus || status == ArgStatus
      ensures status == ArgStatus <==> old(Value()).enq > 0 && !Sound([f])
      ensures status == OkStatus ==> Sound([f])
      ensures status == NoMemoryStatus ==> base.denied > old(base.denied) && tick == old(tick) + 1
      ensures status == LimitStatus || status == ArgStatus ==> tick == old(tick) && base.denied == old(base.denied)
      ensures status != OkStatus ==> Value() == old(Value()) && Pending(base.q) == old(Pending(base.q))
      ensures status == OkStatus ==>
                && FieldsOf(item) == [f] && A.Stamp(item) == clock(old(tick))
                && |item| >= 6 && item[0] == clock(old(tick)).sec && item[1] == clock(old(tick)).nsec
                && Told(A.Add(old(Value()), item, clock(old(tick) + 1)), old(Pending(base.q)), old(base.denied))
                && tick == old(tick) + if old(Value()).count == 0 then 2 else 1
      ensures peak == Max(old(peak), Use())
    {
      hide Busy, QueueOf, Pending, A.Add, T.Consistent, Told, C.Pack, FieldsOf;
      item := [];
      if !f.based || |f.data| <= 0 {
        status := RejectValue();
        ValidFacts();
        return;
      }
      C.BytesRoundTrip(f.data);
      status, item := AddWords(f.kind, 1, |f.data|, C.Pack(f.data));
      if status == OkStatus {
        ValueHeld(item, clock(old(tick)), f);
      }
    }

    /** shr_q_addv with two entries or more. */
    method AddVector(fs: seq<C.Field>) returns (status: Status, ghost item: seq<int>, ghost leaked: set<int>)
      requires Valid() && (forall f :: f in fs ==> C.InRange(f)) && 2 <= |fs| <= C.INT_MAX
      requires C.Space(fs) + C.LONG * C.Ragged(fs) <= C.LONG * 0x4000_0000
      modifies this`tick, this`peak, base, base.mem
      ensures leaked == {} ==> Valid()
      ensures leaked != {} ==> Busy(leaked) && |leaked| == 1
      ensures base.mem == old(base.mem) || fresh(base.mem)
      ensures status == OkStatus || status == LimitStatus || status == NoMemoryStatus || status == ArgStatus
      ensures status == LimitStatus <==> old(Value()).enq <= 0
      ensures status == OkStatus ==> Sound(fs)
      ensures leaked != {} <==> status == ArgStatus
      ensures status == ArgStatus <==> old(Value()).enq > 0 && !Sound(fs) && base.denied == old(base.denied)
      ensures status == LimitStatus ==> tick == old(tick) && base.denied == old(base.denied)
      ensures status == NoMemoryStatus ==> base.denied > old(base.denied) && tick == old(tick) + 1
      ensures status != OkStatus ==> Value() == old(Value()) && Pending(base.q) == old(Pending(base.q))
      ensures status == OkStatus ==>
                && FieldsOf(item) == fs && A.Stamp(item) == clock(old(tick))
                && |item| >= 6 && item[0] == clock(old(tick)).sec && item[1] == clock(old(tick)).nsec
                && Told(A.Add(old(Value()), item, clock(old(tick) + 1)), old(Pending(base.q)), old(base.denied))
                && tick == old(tick) + if old(Value()).count == 0 then 2 else 1
      ensures peak == Max(old(peak), Use())
    {
      hide Busy, QueueOf, Pending, A.Add, T.Consistent, Told, C.Pack, FieldsOf, C.Spelled, C.Ragged, C.FieldOk,
           C.InRange;
      item, leaked := [], {};
      C.SomeExtent(fs);
      C.FieldsOk(fs);
      hide C.Extent;
      var ok, words, length := C.VectorWords(fs);
      if !ok {
        status, leaked := RejectVector(|fs|, length, words);
        UseBound(leaked);
        return;
      }
      status, item := AddWords(C.SH_VECTOR_T, |fs|, length, words);
      if status == OkStatus {
        VectorHeld(item, clock(old(tick)), length, words, fs);
      }
    }

    // ---------------------------------------------------------- removing

    /** The data block of the node behind `slot`. */
    method NextItem(slot: int) returns (d: int)
      requires base.Valid() && slot == H(base.q, HEAD) && !Empty(base.q, Items)
      ensures d == FrontBlock(base.q) && d != 0
    {
      hide Fits, InUse, Ok, H, W, Len, Empty;
      FrontInSpace(base.q);
      base.BlockWord(slot, 0);
      var next := base.mem[slot];
      if next < HDR_END {
        return 0;
      }
      base.BlockWord(next, VALUE_OFFSET);
      d := base.mem[next + VALUE_OFFSET];
    }

    /** Unlinks the front of the FIFO and frees its node; the data block is then in hand. */
    method FifoRemove() returns (d: int)
      requires Busy({})
      modifies base`q, base.mem
      ensures Pending(base.q) == old(Pending(base.q))
      ensures old(Value()).fifo == [] ==> d == 0 && Busy({}) && base.q == old(base.q)
      ensures old(Value()).fifo != [] ==>
                && d != 0 && Busy({d}) && Carries(base.q, d) && DataItem(base.q, d) == old(Value()).fifo[0]
                && Value() == old(Value()).(fifo := old(Value()).fifo[1..])
    {
      hide Fits, InUse, Ok, H, HeldBlocks, Tidy, EventsCounted, Pending, QueueOf, RemoveContents, InHand, AddContents,
           Carries, DataItem, CanAdd, Empty, ImageOps.RemoveFront, ImageOps.AddEnd, FrontBlock;
      ghost var q0 := base.q;
      EmptyQueue(q0);
      EmptyIff(q0, Items);
      base.HeaderWord(HEAD);
      base.HeaderWord(HEAD + 1);
      base.HeaderWord(TAIL);
      var gen := base.mem[HEAD + 1];
      var head := base.mem[HEAD];
      if head == base.mem[TAIL] {
        return 0;
      }
      d := NextItem(head);
      if d == 0 {
        return 0;
      }
      var r := base.RemoveFront(head, gen, Items);
      ghost var q1 := base.q;
      if r == 0 {
        return 0;
      }
      HandReady(q0, q1);
      base.AddEnd(head, Free);
      FifoTaken(q0, q1, base.q, peak);
      CarriesHeld(base.q, d);
    }

    /** Unlinks the top of the stack, if it is still `top`, and zeroes its first two words. */
    method RemoveTop(top: int, gen: int) returns (r: int)
      requires base.Valid() && Stack(base.q, Lifo) != [] && top == H(base.q, STACK_HEAD)
      requires gen == H(base.q, STACK_HEAD + 1)
      modifies base`q, base.mem
      ensures base.Valid() && r == top && r != 0
      ensures base.q == PutPair(Pop(old(base.q), Lifo), top, 0, 0)
    {
      hide Fits, InUse, Ok, H, W, Len, Pop, PutPair, PutHPair, Stack, PopContents, Popped, Fixed;
      ghost var q0 := base.q;
      ghost var q1 := Pop(q0, Lifo);
      PopInHand(q0);
      PopHistory(q0, Lifo);
      TopInSpace(q0);
      base.HeaderWord(STACK_HEAD);
      base.HeaderWord(STACK_HEAD + 1);
      r := 0;
      if top >= HDR_END && top == base.mem[STACK_HEAD] && gen == base.mem[STACK_HEAD + 1] {
        base.BlockWord(top, 0);
        var ok := base.DwcasHeader(STACK_HEAD, Pair(top, gen), Pair(base.mem[top], gen + 1));
        if ok {
          HistoryFits(base.mem[..], base.q, q1);
          base.q := q1;
          PoppedTop(q0, q1);
          PairZeroed(q1, top);
          base.StoreLink(top, 0, 0);
          r := top;
        }
      }
    }

    /** Unlinks the top of the stack and frees its node; the data block is then in hand. */
    method LifoRemove() returns (d: int)
      requires Busy({}) && Value().lifo != []
      modifies base`q, base.mem
      ensures Pending(base.q) == old(Pending(base.q))
      ensures d != 0 && Busy({d}) && Carries(base.q, d)
      ensures var s := old(Value()).lifo;
              DataItem(base.q, d) == s[|s| - 1] && Value() == old(Value()).(lifo := s[..|s| - 1])
    {
      hide Fits, InUse, Ok, H, W, Len, HeldBlocks, Tidy, EventsCounted, Pending, QueueOf, AddContents, Carries,
           DataItem, CanAdd, Pop, PutPair, Stack, PopContents, Popped;
      ghost var q0 := base.q;
      EmptyQueue(q0);
      TopInSpace(q0);
      base.HeaderWord(STACK_HEAD);
      base.HeaderWord(STACK_HEAD + 1);
      var gen := base.mem[STACK_HEAD + 1];
      var top := base.mem[STACK_HEAD];
      base.BlockWord(top, VALUE_OFFSET);
      d := base.mem[top + VALUE_OFFSET];
      var r := RemoveTop(top, gen);
      ghost var q1, q2 := Pop(q0, Lifo), base.q;
      PopInHand(q0);
      PoppedTop(q0, q1);
      PairZeroed(q1, top);
      base.AddEnd(top, Free);
      LifoTaken(q0, q1, q2, base.q, peak);
      CarriesHeld(base.q, d);
    }

    method ReadTime(i: int) returns (t: Time)
      requires base.Valid() && (i == LIMIT_SEC || i == TARGET_SEC || i == EMPTY_SEC)
      ensures t == if i == LIMIT_SEC then Value().limit else if i == TARGET_SEC then Value().target else Value().empty
    {
      hide Fits, InUse, Ok, H, QueueOf;
      SemWords(base.q);
      base.HeaderWord(i);
      base.HeaderWord(i + 1);
      t := Time(base.mem[i], base.mem[i + 1]);
    }

    /** Whether the item in hand has waited too long, by the limit or, under CoDel, the target. */
    method ItemExceedsDelay(d: int) returns (late: bool)
      requires Busy({d}) && Carries(base.q, d)
      modifies this`tick
      ensures Busy({d}) && tick == old(tick) + 1
      ensures late == ExceedsDelay(A.Stamp(DataItem(base.q, d)), Value().limit, Value().target, Value().empty,
                clock(old(tick)))
    {
      hide Fits, InUse, Ok, H, W, Len, QueueOf, Carries, DataItem, HeldBlocks, Tidy, EventsCounted, HeaderOk;
      CarriesBlock(base.q, d);
      StampWords(base.q, d);
      base.BlockWord(d, TM_SEC);
      base.BlockWord(d, TM_NSEC);
      var stamp := Time(base.mem[d + TM_SEC], base.mem[d + TM_NSEC]);
      var now := Now();
      var limit := ReadTime(LIMIT_SEC);
      var target := ReadTime(TARGET_SEC);
      if CodelActive(limit, target) {
        var last := ReadTime(EMPTY_SEC);
        if last.sec == 0 {
          return ExceedsLimit(stamp, limit, now);
        }
        if Less(last, Difference(now, limit)) {
          return ExceedsLimit(stamp, target, now);
        }
      }
      late := ExceedsLimit(stamp, limit, now);
    }

    /** COUNT after a removal; under CoDel, removing the last item clears the time of emptiness. */
    method Uncount(d: int) returns (count: int)
      requires Busy({d}) && Carries(base.q, d)
      modifies base`q, base.mem
      ensures Busy({d}) && Carries(base.q, d) && DataItem(base.q, d) == DataItem(old(base.q), d) &&
              Pending(base.q) == old(Pending(base.q))
      ensures count == old(Value()).count && Value() == A.Uncount(old(Value()))
    {
      hide Fits, InUse, Ok, H, W, Len, SetTo, QueueOf, Carries, DataItem, HeldBlocks, HeldSame, Tidy, EventsCounted,
           Pending;
      ghost var q0 := base.q;
      SemWords(q0);
      base.HeaderWord(COUNT);
      count := base.mem[COUNT];
      StoreSetting(COUNT, count - 1);
      ghost var q1 := base.q;
      SetKeeps(q0, q1, COUNT, count - 1, peak);
      var limit := ReadTime(LIMIT_SEC);
      var target := ReadTime(TARGET_SEC);
      if CodelActive(limit, target) && count == 1 {
        StoreTime(EMPTY_SEC, ZERO, {d});
        HeldTrans(q0, q1, base.q);
      }
      StillCarries(q0, base.q, d);
    }

    /** Whether discard is on and the item in hand has expired; the clock is read only if discard is on. */
    method Judge(d: int) returns (expired: bool)
      requires Busy({d}) && Carries(base.q, d)
      modifies this`tick
      ensures Busy({d}) && expired == A.Expired(Value(), DataItem(base.q, d), clock(old(tick))) &&
              tick == old(tick) + A.Reads(Value())
    {
      hide Fits, InUse, Ok, H, W, Len, QueueOf, Carries, DataItem, HeldBlocks, Tidy, EventsCounted, HasFlag,
           ExceedsDelay, A.Stamp;
      SemWords(base.q);
      base.HeaderWord(FLAGS);
      expired := false;
      if HasFlag(base.mem[FLAGS], A.DISCARD_EXPIRED) {
        expired := ItemExceedsDelay(d);
      }
    }

    /** The events of a removal. */
    method SignalDeq(d: int, emptied: bool, expired: bool, ghost s: A.Effect, ghost p0: seq<int>, ghost d0: nat)
      returns (ghost s': A.Effect)
      requires Busy({d}) && Carries(base.q, d) && Told(s, p0, d0)
      modifies this`peak, base, base.mem
      ensures Busy({d}) && Carries(base.q, d) && (base.mem == old(base.mem) || fresh(base.mem))
      ensures s' == A.RaiseIf(A.RaiseIf(s, emptied, A.EVNT_EMPTY), expired, A.EVNT_TIME) && Told(s', p0, d0)
      ensures peak == Max(old(peak), Use()) && old(Use()) <= Use()
    {
      hide Fits, InUse, Ok, H, W, Len, QueueOf, Carries, DataItem, HeldBlocks, HeldSame, Tidy, EventsCounted, Pending,
           HasFlag, HeaderOk, A.Raise;
      UseBound({d});
      ghost var q1 := base.q;
      s' := s;
      if emptied {
        s' := Signal(A.EVNT_EMPTY, {d}, s', p0, d0);
        StillCarries(q1, base.q, d);
      }
      ghost var q2 := base.q;
      if expired {
        s' := Signal(A.EVNT_TIME, {d}, s', p0, d0);
        StillCarries(q2, base.q, d);
      }
    }

    /** After the unlink: the count, the verdict on the item, the events of a removal; the data block is freed. */
    method PostProcessDeq(d: int, ghost p0: seq<int>, ghost d0: nat) returns (expired: bool)
      requires Busy({d}) && Carries(base.q, d) && p0 == Pending(base.q) && d0 == base.denied
      modifies this`tick, this`peak, base, base.mem
      ensures Busy({}) && (base.mem == old(base.mem) || fresh(base.mem))
      ensures var v, item, now := old(Value()), DataItem(old(base.q), d), clock(old(tick));
              && expired == A.Expired(A.Uncount(v), item, now)
              && Told(A.RaiseIf(A.RaiseIf(A.Effect(A.Uncount(v), []), v.count == 1, A.EVNT_EMPTY), expired,
                   A.EVNT_TIME), p0, d0)
              && tick == old(tick) + A.Reads(v)
      ensures peak == Max(old(peak), Use()) && old(Use()) <= Use()
    {
      hide Fits, InUse, Ok, H, W, Len, QueueOf, Carries, DataItem, HeldBlocks, HeldSame, Tidy, EventsCounted, Pending,
           HasFlag, HeaderOk, Released, A.Raise, A.Expired;
      var count := Uncount(d);
      ghost var s := A.Effect(Value(), []);
      expired := Judge(d);
      s := SignalDeq(d, count == 1, expired, s, p0, d0);
      ghost var q3 := base.q;
      CarriesBlock(q3, d);
      base.FreeDataSlots(d);
      ReleasedQuiet(q3, base.q, d, peak);
    }

    // ---------------------------------------------------------- shr_q_remove

    /** Takes the first item in the order of removal, the stack before the FIFO. */
    method TakeFirst() returns (d: int)
      requires Busy({})
      modifies base`q, base.mem
      ensures Pending(base.q) == old(Pending(base.q))
      ensures A.Order(old(Value())) == [] ==> d == 0 && Busy({}) && Value() == old(Value())
      ensures A.Order(old(Value())) != [] ==>
                && d != 0 && Busy({d}) && Carries(base.q, d) && DataItem(base.q, d) == A.First(old(Value()))
                && Value() == A.Unlink(old(Value()))
    {
      hide Fits, InUse, Ok, H, QueueOf, Carries, DataItem, HeldBlocks, Tidy, EventsCounted, Pending;
      EmptyQueue(base.q);
      T.OrderSize(Value());
      hide A.Order;
      d := 0;
      ghost var q0 := base.q;
      while d == 0
        invariant d == 0 ==> base.q == q0 && Busy({})
        invariant d != 0 ==>
                    && A.Order(QueueOf(q0)) != []
                    && Busy({d}) && Carries(base.q, d) && DataItem(base.q, d) == A.First(QueueOf(q0))
                    && Value() == A.Unlink(QueueOf(q0)) && Pending(base.q) == Pending(q0)
        decreases d == 0
      {
        base.HeaderWord(STACK_HEAD);
        base.HeaderWord(HEAD);
        base.HeaderWord(TAIL);
        if base.mem[STACK_HEAD] == 0 {
          if base.mem[HEAD] == base.mem[TAIL] {
            return;
          }
          d := FifoRemove();
        } else {
          d := LifoRemove();
        }
      }
    }

    /** Takes the first item; if it has not expired and there is a buffer for it, `item` is what it holds. */
    method Deq(buffer: Buffer, granted: bool) returns (found: bool, expired: bool, item: seq<int>, buffer': Buffer)
      requires Busy({})
      modifies this`tick, this`peak, base, base.mem
      ensures Busy({}) && (base.mem == old(base.mem) || fresh(base.mem))
      ensures found <==> A.Order(old(Value())) != []
      ensures !found ==>
                && Value() == old(Value()) && Pending(base.q) == old(Pending(base.q)) && base.denied == old(base.denied)
                && tick == old(tick) && buffer' == buffer
      ensures found ==>
                && Told(A.Take(old(Value()), clock(old(tick))), old(Pending(base.q)), old(base.denied))
                && expired == A.FirstExpired(old(Value()), clock(old(tick)))
                && buffer' == Resized(buffer, Needs(A.First(old(Value()))), granted)
                && item == (if expired || !buffer'.have then [] else A.First(old(Value())))
                && tick == old(tick) + A.Reads(old(Value()))
      ensures peak == Max(old(peak), Use())
    {
      hide Fits, InUse, Ok, H, W, Len, QueueOf, Carries, DataItem, HeldBlocks, Tidy, EventsCounted, Pending, A.Order,
           A.Raise, HasFlag, ExceedsDelay;
      var d := TakeFirst();
      if d == 0 {
        UseBound({});
        return false, false, [], buffer;
      }
      SafelyCopy(d);
      base.BlockWord(d, 0);
      base.BlockWord(d, VEC_CNT);
      var size := C.LONG * base.mem[d] - C.LONG;
      buffer' := Resized(buffer, size + C.VEC_SIZE * base.mem[d + VEC_CNT], granted);
      item := if buffer'.have then base.mem[d + 1..d + base.mem[d]] else [];
      expired := PostProcessDeq(d, Pending(base.q), base.denied);
      if expired {
        item := [];
      }
      found := true;
    }

    /** The words of the data block in hand, behind its header, are its item. */
    lemma SafelyCopy(d: int)
      requires Busy({d}) && Carries(base.q, d)
      ensures d in base.q.blk && Len(base.q, d) >= 8 && d >= HDR_END && d + Len(base.q, d) <= base.mem.Length &&
              base.mem[d] == Len(base.q, d)
      ensures base.mem[d + 1..d + Len(base.q, d)] == DataItem(base.q, d)
    {
      hide Fits, InUse, Ok, Carries, HeldBlocks, Tidy, EventsCounted, HeaderOk;
      var q := base.q;
      CarriesBlock(q, d);
      HeaderIsLength(q, d);
      base.BlockWord(d, 0);
      base.BlockWord(d, Len(q, d) - 1);
      forall j | 0 <= j < Len(q, d) ensures base.mem[d + j] == q.blk[d][j] && d + j < base.mem.Length {
        base.BlockWord(d, j);
      }
      assert base.mem[d + 1..d + Len(q, d)] == q.blk[d][1..];
    }

    /** One round of shr_q_remove: the gate, the first item, the token of the place it leaves. */
    method ServeOne(buffer: Buffer, granted: bool) returns (found: bool, expired: bool, item: seq<int>, buffer': Buffer)
      requires Valid()
      modifies this`tick, this`peak, base, base.mem
      ensures Valid() && (base.mem == old(base.mem) || fresh(base.mem))
      ensures found <==> old(Value()).deq > 0
      ensures !found ==>
                && item == [] && Value() == old(Value()) && Pending(base.q) == old(Pending(base.q))
                && base.denied == old(base.denied) && tick == old(tick) && buffer' == buffer
      ensures found ==>
                && A.Order(old(Value())) != []
                && Told(A.Serve(old(Value()), clock(old(tick))), old(Pending(base.q)), old(base.denied))
                && expired == A.FirstExpired(old(Value()), clock(old(tick)))
                && buffer' == Resized(buffer, Needs(A.First(old(Value()))), granted)
                && item == (if expired || !buffer'.have then [] else A.First(old(Value())))
                && tick == old(tick) + A.Reads(old(Value()))
      ensures peak == Max(old(peak), Use())
    {
      hide Fits, InUse, Ok, H, QueueOf, HeldBlocks, Tidy, EventsCounted, Pending, A.Order, A.Raise, A.Take, A.First,
           A.FirstExpired, A.Reads, A.Serve, A.Remove, T.Consistent, Resized, Needs;
      ghost var v := Value();
      SemWords(base.q);
      T.ConsistentSize(v);
      var gate := TryWait(DEQ_SEM, {});
      SemWords(base.q);
      UseBound({});
      if !gate {
        return false, false, [], buffer;
      }
      T.RemoveRound(v, clock, tick);
      T.ServeConsistent(v, clock(tick));
      T.ServeFields(v, clock(tick));
      found, expired, item, buffer' := Deq(buffer, granted);
      if !found {
        assert false;
      }
      Post(ENQ_SEM, {});
      SemWords(base.q);
    }

    /** Events told from a later point on are told from an earlier one. */
    lemma ToldBefore(s: A.Effect, raised: seq<int>, p0: seq<int>, d0: nat, p1: seq<int>, d1: nat)
      requires Told(s, p1, d1) && p0 <= p1 && |p1| <= |p0| + |raised| && d0 <= d1 && (d1 == d0 ==> p1 == p0 + raised)
      ensures Told(A.Effect(s.q, raised + s.raised), p0, d0)
    {
      hide Pending, QueueOf;
    }

    lemma ToldPending(s: A.Effect, p0: seq<int>, d0: nat)
      requires Told(s, p0, d0)
      ensures Value() == s.q && d0 <= base.denied && p0 <= Pending(base.q) && |Pending(base.q)| <= |p0| + |s.raised| &&
              (base.denied == d0 ==> Pending(base.q) == p0 + s.raised)
    {
    }

    /**
     * shr_q_remove: takes items, discarding those that have expired, until one
     * has not or none is left.  `granted` is what malloc answers if the i-th item
     * taken needs a larger buffer.  Without a buffer the item is freed and reported
     * as a success all the same: that is so exactly if there is no room for it.
     */
    method ShrqRemove(buffer: Buffer, granted: nat -> bool) returns (status: Status, item: seq<int>, copied: bool)
      requires Valid()
      modifies this`tick, this`peak, base, base.mem
      ensures Valid() && (base.mem == old(base.mem) || fresh(base.mem))
      ensures status == ArgStatus <==> buffer.have && buffer.size <= 0
      ensures status == StateStatus <==> !(buffer.have && buffer.size <= 0) && !mode.ReadOnly? && !mode.ReadWrite?
      ensures status == ArgStatus || status == StateStatus ==>
                && Value() == old(Value()) && Pending(base.q) == old(Pending(base.q)) && tick == old(tick)
                && base.denied == old(base.denied) && !copied && item == []
      ensures status != ArgStatus && status != StateStatus ==>
                var r := A.Remove(old(Value()), clock, old(tick));
                && status == (if r.found then OkStatus else EmptyStatus)
                && copied == (r.found && Room(buffer, r.dropped + [r.item], granted))
                && item == (if copied then r.item else [])
                && Told(A.Effect(r.q, r.raised), old(Pending(base.q)), old(base.denied))
                && tick == r.tick
      ensures peak == Max(old(peak), Use())
    {
      hide Busy, QueueOf, Pending, A.Remove, Told, Room;
      ValidFacts();
      if buffer.have && buffer.size <= 0 {
        return ArgStatus, [], false;
      }
      if !mode.ReadOnly? && !mode.ReadWrite? {
        return StateStatus, [], false;
      }
      status, item, copied := RemoveLoop(buffer, granted);
    }

    /** The loop of shr_q_remove. */
    method RemoveLoop(buffer: Buffer, granted: nat -> bool) returns (status: Status, item: seq<int>, copied: bool)
      requires Valid()
      modifies this`tick, this`peak, base, base.mem
      ensures Valid() && (base.mem == old(base.mem) || fresh(base.mem))
      ensures var r := A.Remove(old(Value()), clock, old(tick));
              && status == (if r.found then OkStatus else EmptyStatus)
              && copied == (r.found && Room(buffer, r.dropped + [r.item], granted))
              && item == (if copied then r.item else [])
              && Told(A.Effect(r.q, r.raised), old(Pending(base.q)), old(base.denied))
              && tick == r.tick
      ensures peak == Max(old(peak), Use())
    {
      hide Valid, QueueOf, Pending, A.Order, A.First, A.FirstExpired, A.Reads, A.Serve, A.Remove, Told, Room, Resized,
           Needs;
      ghost var r := A.Remove(Value(), clock, tick);
      ghost var p0, d0, t0 := Pending(base.q), base.denied, tick;
      ghost var raised, dropped := [], [];
      var buf, taken := buffer, 0;
      ToldIf(A.Effect(Value(), []), p0, d0);
      T.FollowingNone(r);
      ValidFacts();
      while true
        invariant Valid() && (base.mem == old(base.mem) || fresh(base.mem))
        invariant Told(A.Effect(Value(), raised), p0, d0)
        invariant peak == Max(old(peak), Use()) && (Use() <= old(Use()) || Value().deq <= 0)
        invariant r == T.Following(dropped, raised, A.Remove(Value(), clock, tick))
        invariant buf == BufferFor(buffer, dropped, granted) && taken == |dropped|
        decreases |Value().fifo| + |Value().lifo|
      {
        ghost var v, p1, d1, t1 := Value(), Pending(base.q), base.denied, tick;
        ToldPending(A.Effect(v, raised), p0, d0);
        ValidFacts();
        var found, expired;
        found, expired, item, buf := ServeOne(buf, granted(taken));
        if !found {
          T.RemoveNone(v, clock, t1);
          ToldIf(A.Effect(v, raised), p0, d0);
          assert raised + [] == raised;
          return EmptyStatus, [], false;
        }
        ghost var s := A.Serve(v, clock(t1));
        RoundTold(v, t1, raised, p0, d0, p1, d1);
        BufferNext(buffer, dropped, A.First(v), granted);
        FollowingRound(dropped, raised, v, t1, r);
        if !expired {
          return OkStatus, item, buf.have;
        }
        dropped, raised, taken := dropped + [A.First(v)], raised + s.raised, taken + 1;
      }
    }

    /** What a round leaves behind, told from the start of the loop. */
    lemma RoundTold(v: A.Queue, t: nat, raised: seq<int>, p0: seq<int>, d0: nat, p1: seq<int>, d1: nat)
      requires T.Consistent(v) && A.Order(v) != [] && Told(A.Serve(v, clock(t)), p1, d1)
      requires p0 <= p1 && |p1| <= |p0| + |raised| && d0 <= d1 && (d1 == d0 ==> p1 == p0 + raised)
      ensures var s := A.Serve(v, clock(t)); Value() == s.q && Told(A.Effect(s.q, raised + s.raised), p0, d0)
      ensures Use() <= |v.fifo| + |v.lifo| + |p1| || Value().deq <= 0
      ensures |Value().fifo| + |Value().lifo| < |v.fifo| + |v.lifo|
    {
      hide A.Serve, A.Order, Told, QueueOf, Pending, T.Consistent;
      var s := A.Serve(v, clock(t));
      T.ServeFields(v, clock(t));
      ToldPending(s, p1, d1);
      ServedUse(v, t, p1, d1);
      ToldBefore(s, raised, p0, d0, p1, d1);
    }

    /** What is still to come after a round. */
    lemma FollowingRound(dropped: seq<A.Item>, raised: seq<int>, v: A.Queue, t: nat, r: A.Result)
      requires v.deq > 0 && A.Order(v) != [] && r == T.Following(dropped, raised, A.Remove(v, clock, t))
      ensures var s, x := A.Serve(v, clock(t)), A.First(v);
              r == if A.FirstExpired(v, clock(t)) then
                     T.Following(dropped + [x], raised + s.raised, A.Remove(s.q, clock, t + A.Reads(v)))
                   else A.Result(true, x, dropped, s.q, raised + s.raised, t + A.Reads(v))
    {
      hide A.Order, A.First, A.FirstExpired, A.Reads, A.Serve, A.Remove;
      T.RemoveRound(v, clock, t);
      var s := A.Serve(v, clock(t));
      T.FollowingTwice(dropped, [A.First(v)], raised, s.raised, A.Remove(s.q, clock, t + A.Reads(v)));
      assert dropped + [] == dropped;
    }

    lemma BufferNext(b: Buffer, items: seq<A.Item>, x: A.Item, granted: nat -> bool)
      ensures BufferFor(b, items + [x], granted) == Resized(BufferFor(b, items, granted), Needs(x), granted(|items|))
      ensures BufferFor(b, items + [x], granted).have <==> Room(b, items + [x], granted)
    {
      hide Needs, Room;
      assert (items + [x])[..|items|] == items;
      RoomIff(b, items + [x], granted);
    }

    lemma ValidFacts()
      requires Valid()
      ensures T.Consistent(Value()) && Use() <= peak && |NodeBlocks(base.q)| <= 3 + peak
    {
      hide Busy, QueueOf, NodeBlocks;
      UseBound({});
    }

    /** A round leaves no more nodes in use than before, unless it was the last: only that raises two events. */
    lemma ServedUse(v: A.Queue, t: nat, p: seq<int>, d: nat)
      requires T.Consistent(v) && A.Order(v) != [] && Told(A.Serve(v, clock(t)), p, d)
      ensures Use() <= |v.fifo| + |v.lifo| + |p| || Value().deq <= 0
    {
      hide A.Serve, A.Order, Pending, QueueOf;
      T.ServeFields(v, clock(t));
      T.ServeRaises(v, clock(t));
      T.ConsistentSize(v);
    }

    lemma ToldIf(s: A.Effect, p0: seq<int>, d0: nat)
      requires Value() == s.q && d0 <= base.denied && p0 <= Pending(base.q) && |Pending(base.q)| <= |p0| + |s.raised| &&
              (base.denied == d0 ==> Pending(base.q) == p0 + s.raised)
      ensures Told(s, p0, d0)
    {
    }

    // ---------------------------------------------------------- shr_q_clean

    /** One round of shr_q_clean behind its gate: the front item of the FIFO goes, if it has expired. */
    method CleanOne(limit: Time) returns (removed: bool)
      requires Busy({})
      modifies this`tick, base`q, base.mem
      ensures Busy({}) && Pending(base.q) == old(Pending(base.q))
      ensures var v := old(Value());
              && removed == (v.fifo != [] && ExceedsLimit(A.Stamp(v.fifo[0]), limit, clock(old(tick))))
              && Value() == (if removed then v.(fifo := v.fifo[1..], count := v.count - 1) else v)
              && tick == old(tick) + if v.fifo == [] then 0 else 1
    {
      hide Fits, InUse, Ok, H, W, Len, QueueOf, Carries, HeldBlocks, HeldSame, Tidy, EventsCounted, Pending,
           RemoveContents, InHand, AddContents, CanAdd, SetTo, Empty, ImageOps.RemoveFront, ImageOps.AddEnd,
           FrontBlock, HeaderOk, Released, Push, A.Stamp;
      ghost var q0 := base.q;
      EmptyQueue(q0);
      EmptyIff(q0, Items);
      base.HeaderWord(HEAD);
      base.HeaderWord(HEAD + 1);
      base.HeaderWord(TAIL);
      removed := false;
      var gen := base.mem[HEAD + 1];
      var head := base.mem[HEAD];
      if head == base.mem[TAIL] {
        return;
      }
      var d := NextItem(head);
      FrontStamp(q0);
      base.BlockWord(d, TM_SEC);
      base.BlockWord(d, TM_NSEC);
      var now := Now();
      if !ExceedsLimit(Time(base.mem[d + TM_SEC], base.mem[d + TM_NSEC]), limit, now) {
        return;
      }
      var r := base.RemoveFront(head, gen, Items);
      if r == 0 {
        return;
      }
      ghost var q1 := base.q;
      base.HeaderWord(COUNT);
      StoreSetting(COUNT, base.mem[COUNT] - 1);
      ghost var qc := base.q;
      HandReady(q0, q1);
      SetKeeps(q1, qc, COUNT, H(q1, COUNT) - 1, peak);
      NodeKept(q1, qc, head);
      base.AddEnd(head, Free);
      ghost var q2 := base.q;
      CleanTaken(q0, q1, qc, q2, peak);
      CarriesBlock(q2, d);
      CarriesHeld(q2, d);
      base.FreeDataSlots(d);
      ReleasedQuiet(q2, base.q, d, peak);
      removed := true;
    }

    /** A round of shr_q_clean with its gate; a token that finds nothing to clean is given back. */
    method CleanRound(limit: Time) returns (more: bool)
      requires Valid()
      modifies this`tick, base`q, base.mem
      ensures Valid() && Pending(base.q) == old(Pending(base.q))
      ensures var v := old(Value());
              && more == (v.deq > 0 && v.fifo != [] && ExceedsLimit(A.Stamp(v.fifo[0]), limit, clock(old(tick))))
              && Value() == (if more
                 then v.(fifo := v.fifo[1..], count := v.count - 1, deq := v.deq - 1, enq := v.enq + 1) else v)
              && tick == old(tick) + if v.deq <= 0 || v.fifo == [] then 0 else 1
    {
      hide Fits, InUse, Ok, H, QueueOf, HeldBlocks, HeldSame, Tidy, EventsCounted, Pending, ExceedsLimit, A.Stamp;
      SemWords(base.q);
      var gate := TryWait(DEQ_SEM, {});
      SemWords(base.q);
      if !gate {
        return false;
      }
      more := CleanOne(limit);
      SemWords(base.q);
      if more {
        Post(ENQ_SEM, {});
      } else {
        Post(DEQ_SEM, {});
      }
      SemWords(base.q);
    }

    /** shr_q_clean: removes expired items from the front of the FIFO. */
    method ShrqClean(limit: Time, given: bool) returns (status: Status)
      requires Valid()
      modifies this`tick, base`q, base.mem
      ensures Valid() && Pending(base.q) == old(Pending(base.q))
      ensures status == if !given then ArgStatus else if mode.ReadOnly? || mode.ReadWrite? then OkStatus
              else StateStatus
      ensures (Value(), tick) == if status == OkStatus then A.Clean(old(Value()), limit, clock, old(tick))
              else (old(Value()), old(tick))
    {
      hide Valid, QueueOf, Pending, ExceedsLimit, A.Stamp;
      if !given {
        return ArgStatus;
      }
      if !mode.ReadOnly? && !mode.ReadWrite? {
        return StateStatus;
      }
      var more := true;
      while more
        invariant Valid() && Pending(base.q) == old(Pending(base.q))
        invariant more ==> A.Clean(Value(), limit, clock, tick) == A.Clean(old(Value()), limit, clock, old(tick))
        invariant !more ==> (Value(), tick) == A.Clean(old(Value()), limit, clock, old(tick))
        decreases more, |Value().fifo|
      {
        more := CleanRound(limit);
      }
      status := OkStatus;
    }

    // ---------------------------------------------------------- shr_q_event

    /** shr_q_event: the oldest pending event, or SQ_EVNT_NONE. */
    method ShrqEvent() returns (event: int)
      requires Valid()
      modifies base`q, base.mem
      ensures Valid() && Value() == old(Value())
      ensures var p := old(Pending(base.q));
              if p == [] then event == EVNT_NONE && Pending(base.q) == []
                else event == p[0] && Pending(base.q) == p[1..]
    {
      hide Fits, InUse, Ok, H, W, Len, QueueOf, HeldBlocks, HeldSame, Tidy, Pending, RemoveContents, InHand,
           AddContents, CanAdd, SetTo, Empty, ImageOps.RemoveFront, ImageOps.AddEnd;
      ghost var q0 := base.q;
      event := EVNT_NONE;
      base.HeaderWord(EVNT_SEM);
      if base.mem[EVNT_SEM] <= 0 {
        return;
      }
      StoreSetting(EVNT_SEM, base.mem[EVNT_SEM] - 1);
      ghost var q1 := base.q;
      SetKeeps(q0, q1, EVNT_SEM, H(q0, EVNT_SEM) - 1, peak);
      PendingEmpty(q1);
      EmptyIff(q1, Events);
      base.HeaderWord(EVENT_HEAD);
      base.HeaderWord(EVENT_HEAD + 1);
      base.HeaderWord(EVENT_TAIL);
      var gen := base.mem[EVENT_HEAD + 1];
      var head := base.mem[EVENT_HEAD];
      if head == base.mem[EVENT_TAIL] {
        assert false;
      }
      EventInSpace(q1);
      base.BlockWord(head, 0);
      base.BlockWord(base.mem[head], EVENT_OFFSET);
      event := base.mem[base.mem[head] + EVENT_OFFSET];
      var r := base.RemoveFront(head, gen, Events);
      ghost var q2 := base.q;
      HandEmpty(q1, q2);
      base.AddEnd(head, Free);
      EventTaken(q0, q1, q2, base.q, peak);
      SemWords(q0);
      SemWords(base.q);
    }

    // ---------------------------------------------------------- configuration

    /** clear_flag: turns off those of the flags that are on; returns whether there was one. */
    method ClearFlag(mask: int) returns (turned: bool)
      requires Busy({}) && IsFlags(mask)
      modifies base`q, base.mem
      ensures Busy({}) && Pending(base.q) == old(Pending(base.q))
      ensures turned <==> Common(old(Value()).flags, mask) != 0
      ensures Value() == old(Value()).(flags := ClearFlags(old(Value()).flags, mask))
    {
      hide Fits, InUse, Ok, SetTo, H, HeldBlocks, HeldSame, Tidy, EventsCounted, Pending, QueueOf, HasFlag;
      ghost var q0 := base.q;
      SemWords(q0);
      base.HeaderWord(FLAGS);
      var prev := base.mem[FLAGS];
      turned := Common(prev, mask) != 0;
      if turned {
        StoreSetting(FLAGS, prev - Common(prev, mask));
        SetKeeps(q0, base.q, FLAGS, prev - Common(prev, mask), peak);
      }
    }

    /** shr_q_discard and shr_q_limit_lifo turn a flag on or off. */
    method Configure(mask: int, on: bool)
      requires Valid() && IsFlags(mask) && mask != A.ACTIVATED
      modifies base`q, base.mem
      ensures Valid() && Pending(base.q) == old(Pending(base.q))
      ensures var f := old(Value()).flags;
              Value() == old(Value()).(flags := if on then SetFlags(f, mask) else ClearFlags(f, mask))
    {
      hide Fits, InUse, Ok, H, HeldBlocks, HeldSame, Tidy, EventsCounted, Pending, QueueOf, HasFlag, Common;
      SemWords(base.q);
      if on {
        var _ := SetFlag(mask, {});
      } else {
        var _ := ClearFlag(mask);
      }
      SemWords(base.q);
    }

    /** shr_q_subscribe and shr_q_unsubscribe, for one event or all. */
    method ShrqSubscribe(event: int, on: bool)
      requires Valid()
      modifies base`q, base.mem
      ensures Valid() && Pending(base.q) == old(Pending(base.q))
      ensures var f, n := old(Value()).flags, A.EventFlags(event);
              Value() == old(Value()).(flags := if n == 0 then f else if on then SetFlags(f, n) else ClearFlags(f, n))
    {
      hide Valid, Busy, QueueOf, Pending, SetFlags, ClearFlags;
      var flag := A.EventFlags(event);
      if flag != 0 {
        Configure(flag, on);
      }
    }

    /** shr_q_level. */
    method ShrqLevel(level: int) returns (ok: bool)
      requires Valid()
      modifies base`q, base.mem
      ensures Valid() && Pending(base.q) == old(Pending(base.q))
      ensures ok <==> level > 0
      ensures Value() == if ok then old(Value()).(level := level) else old(Value())
    {
      hide Fits, InUse, Ok, H, SetTo, HeldBlocks, HeldSame, Tidy, EventsCounted, Pending, QueueOf;
      ok := level > 0;
      if ok {
        ghost var q0 := base.q;
        SemWords(q0);
        StoreSetting(LEVEL, level);
        SetKeeps(q0, base.q, LEVEL, level, peak);
        SemWords(base.q);
      }
    }

    /** shr_q_timelimit. */
    method ShrqTimelimit(limit: Time)
      requires Valid()
      modifies base`q, base.mem
      ensures Valid() && Pending(base.q) == old(Pending(base.q)) && Value() == old(Value()).(limit := limit)
    {
      hide Fits, InUse, Ok, H, HeldBlocks, HeldSame, Tidy, EventsCounted, Pending, QueueOf;
      SemWords(base.q);
      StoreTime(LIMIT_SEC, limit, {});
      SemWords(base.q);
    }

    /** shr_q_target_delay, which also turns on the discarding of expired items. */
    method ShrqTargetDelay(target: Time)
      requires Valid()
      modifies base`q, base.mem
      ensures Valid() && Pending(base.q) == old(Pending(base.q))
      ensures Value() == old(Value()).(target := target, flags := SetFlags(old(Value()).flags, A.DISCARD_EXPIRED))
    {
      hide Fits, InUse, Ok, H, HeldBlocks, HeldSame, Tidy, EventsCounted, Pending, QueueOf, SetFlags;
      SemWords(base.q);
      StoreTime(TARGET_SEC, target, {});
      SemWords(base.q);
      Configure(A.DISCARD_EXPIRED, true);
    }
  }
}
