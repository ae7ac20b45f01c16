/**
 * Runs of the queue in shared memory, one call after the other, on the array
 * itself: they are the runs of AdaptiveRuns, and no more nodes are ever carved
 * than the items and events queued at once need.
 */
module SharedRuns {
  import opened Timespec
  import opened FlagBits
  import opened Image
  import opened ImageContents
  import opened QueueSteps
  import opened SharedQueue
  import A = AdaptiveQueue
  import C = Codec
  import R = AdaptiveRuns
  import Layout

  /** A call that passes the checks of its arguments; one that does not changes nothing. */
  datatype Call =
    | CallAdd(value: seq<C.Byte>)
    | CallAddv(fs: seq<C.Field>)
    | CallRemove(buffer: Buffer, granted: nat -> bool)
    | CallClean(limit: Time)
    | CallEvent
    | CallLevel(level: int)
    | CallTimelimit(limit: Time)
    | CallTargetDelay(target: Time)
    | CallSubscribe(event: int, on: bool)
    | CallDiscard(on: bool)
    | CallLimitLifo(on: bool)

  ghost predicate WellFormed(c: Call) {
    match c
    case CallAdd(value) => 0 < |value| <= C.LONG * (0x4000_0000 - Layout.DATA_HDR)
    case CallAddv(fs) =>
      && Sound(fs) && (forall f :: f in fs ==> C.InRange(f)) && |fs| <= C.INT_MAX
      && if |fs| == 1 then |fs[0].data| <= C.LONG * (0x4000_0000 - Layout.DATA_HDR)
         else C.Space(fs) + C.LONG * C.Ragged(fs) <= C.LONG * 0x4000_0000
    case CallRemove(buffer, _) => buffer.have ==> buffer.size > 0
    case _ => true
  }

  /** What can be seen between two calls: the queue, the pending events, the clock read, the refusals of memory. */
  datatype View = View(v: A.Queue, p: seq<int>, tick: nat, denied: nat)

  ghost function Seen(queue: ShrQueue): View
    reads queue, queue.base
  {
    View(queue.Value(), Pending(queue.base.q), queue.tick, queue.base.denied)
  }

  /** The nodes that hold something at that moment. */
  ghost function UseOf(a: View): nat {
    |a.v.fifo| + |a.v.lifo| + |a.p|
  }

  ghost function Highest(views: seq<View>): nat {
    if views == [] then 0 else Max(Highest(views[..|views| - 1]), UseOf(views[|views| - 1]))
  }

  /** A value or a vector, as an item holds it. */
  ghost function Stored(c: Call): seq<C.Field>
    requires c.CallAdd? || c.CallAddv?
  {
    if c.CallAdd? then [C.Field(STREAM, c.value, true)] else c.fs
  }

  /** The operation of AdaptiveRuns that a call is; an add stores an item with the types and bytes given, or fails. */
  ghost predicate IsOp(c: Call, op: R.Op) {
    match c
    case CallAdd(_) => op.AddRefused? || (op.AddItem? && FieldsOf(op.item) == Stored(c))
    case CallAddv(_) => op.AddRefused? || (op.AddItem? && FieldsOf(op.item) == Stored(c))
    case CallRemove(_, _) => op == R.RemoveItem
    case CallClean(limit) => op == R.CleanItems(limit)
    case CallEvent => op == R.TakeEvent
    case CallLevel(level) => op == R.SetLevel(level)
    case CallTimelimit(limit) => op == R.SetLimit(limit)
    case CallTargetDelay(target) => op == R.SetTarget(target)
    case CallSubscribe(event, on) => op ==
        (if on then R.TurnOn(A.EventFlags(event)) else R.TurnOff(A.EventFlags(event)))
    case CallDiscard(on) => op == (if on then R.TurnOn(A.DISCARD_EXPIRED) else R.TurnOff(A.DISCARD_EXPIRED))
    case CallLimitLifo(on) => op == (if on then R.TurnOn(A.LIFO_ON_LEVEL) else R.TurnOff(A.LIFO_ON_LEVEL))
  }

  /** A history that starts here. */
  ghost function From(a: View): R.History {
    R.History(a.v, a.tick, a.p, [], [], [], [], [])
  }

  ghost function Values(items: seq<A.Item>): seq<seq<C.Field>> {
    seq(|items|, i requires 0 <= i < |items| => FieldsOf(items[i]))
  }

  /**
   * What a call gives its caller: the item in the buffer, if any, an event, and
   * for an add what it has accepted, and whether it was told that the queue is
   * full; `taken` is the item it reports, copied or not.
   */
  datatype Output = Output(items: seq<A.Item>, taken: seq<A.Item>, events: seq<int>, accepted: seq<seq<C.Field>>,
                           full: bool)

  /** An item is in the buffer exactly if there was room for it. */
  ghost predicate Copies(c: Call, clock: nat -> Time, a: View, out: Output) {
    if c.CallRemove? then
      var r := A.Remove(a.v, clock, a.tick);
      out.items == if r.found && Room(c.buffer, r.dropped + [r.item], c.granted) then [r.item] else []
    else out.items == []
  }

  /** Without refusals, the events pending are those of the operation; with them, some can be missing. */
  ghost predicate EventsFollow(c: Call, h: R.History, a: View, b: View) {
    if b.denied == a.denied then b.p == h.pending
    else !c.CallEvent? && a.p <= b.p && |b.p| <= |h.pending|
  }

  /**
   * The call has done what the operation does; an add fails only without a free
   * place or without memory.
   */
  ghost predicate Does(c: Call, clock: nat -> Time, op: R.Op, a: View, b: View, out: Output) {
    var h := R.Step(From(a), clock, op);
    && IsOp(c, op) && a.denied <= b.denied
    && b.v == h.q && b.tick == h.tick && EventsFollow(c, h, a, b)
    && out.events == h.seen && out.accepted == Values(h.added) && out.taken == h.delivered && Copies(c, clock, a, out)
    && (op.AddRefused? ==> a.v.enq <= 0 || b.denied > a.denied)
    && (out.full <==> (c.CallAdd? || c.CallAddv?) && a.v.enq <= 0)
  }

  // ------------------------------------------------------------ one call

  lemma OneValue(item: A.Item)
    ensures Values([item]) == [FieldsOf(item)] && Values([]) == []
  {
  }

  method Add(queue: ShrQueue, c: Call) returns (ghost out: Output, ghost op: R.Op)
    requires queue.Valid() && queue.mode.ReadWrite? && WellFormed(c) && (c.CallAdd? || c.CallAddv?)
    modifies queue, queue.base, queue.base.mem
    ensures queue.Valid() && (queue.base.mem == old(queue.base.mem) || fresh(queue.base.mem))
    ensures Does(c, queue.clock, op, old(Seen(queue)), Seen(queue), out)
    ensures queue.peak == Max(old(queue.peak), queue.Use())
  {
    hide queue.Valid, QueueOf, Pending, A.Add, FieldsOf, C.Extent, C.Ragged, Sound;
    var status;
    ghost var item, leaked;
    if c.CallAdd? {
      status, item := queue.ShrqAdd(c.value, true);
    } else {
      SoundSome(c.fs);
      status, item, leaked := queue.ShrqAddv(c.fs, true);
    }
    OneValue(item);
    op := if status == OkStatus then R.AddItem(item) else R.AddRefused;
    out := Output([], [], [], if status == OkStatus then [Stored(c)] else [],
                  status == LimitStatus);
  }

  lemma SoundSome(fs: seq<C.Field>)
    requires Sound(fs)
    ensures |fs| > 0
  {
  }

  method Remove(queue: ShrQueue, c: Call) returns (ghost out: Output)
    requires queue.Valid() && queue.mode.ReadWrite? && WellFormed(c) && c.CallRemove?
    modifies queue, queue.base, queue.base.mem
    ensures queue.Valid() && (queue.base.mem == old(queue.base.mem) || fresh(queue.base.mem))
    ensures Does(c, queue.clock, R.RemoveItem, old(Seen(queue)), Seen(queue), out)
    ensures queue.peak == Max(old(queue.peak), queue.Use())
  {
    hide queue.Valid, QueueOf, Pending, A.Remove, Room;
    ghost var r := A.Remove(queue.Value(), queue.clock, queue.tick);
    var status, item, copied := queue.ShrqRemove(c.buffer, c.granted);
    out := Output(if copied then [item] else [], if r.found then [r.item] else [], [], [], false);
  }

  method TakeEvent(queue: ShrQueue) returns (event: int, ghost out: Output)
    requires queue.Valid()
    modifies queue.base`q, queue.base.mem
    ensures queue.Valid()
    ensures Does(CallEvent, queue.clock, R.TakeEvent, old(Seen(queue)), Seen(queue), out)
    ensures out.events == if old(Pending(queue.base.q)) == [] then [] else [event]
  {
    hide queue.Valid, QueueOf, Pending;
    ghost var p := Pending(queue.base.q);
    event := queue.ShrqEvent();
    out := Output([], [], if p == [] then [] else [event], [], false);
  }

  /** The calls that turn flags on or off. */
  method Turn(queue: ShrQueue, c: Call) returns (ghost op: R.Op)
    requires queue.Valid() && (c.CallSubscribe? || c.CallDiscard? || c.CallLimitLifo?)
    modifies queue.base`q, queue.base.mem
    ensures queue.Valid()
    ensures Does(c, queue.clock, op, old(Seen(queue)), Seen(queue), Output([], [], [], [], false))
  {
    hide queue.Valid, QueueOf, Pending, SetFlags, ClearFlags, A.Add, A.Remove, A.Clean, FieldsOf, Room;
    match c
    case CallSubscribe(event, on) =>
      op := if on then R.TurnOn(A.EventFlags(event)) else R.TurnOff(A.EventFlags(event));
      queue.ShrqSubscribe(event, on);
    case CallDiscard(on) =>
      op := if on then R.TurnOn(A.DISCARD_EXPIRED) else R.TurnOff(A.DISCARD_EXPIRED);
      queue.Configure(A.DISCARD_EXPIRED, on);
    case CallLimitLifo(on) =>
      op := if on then R.TurnOn(A.LIFO_ON_LEVEL) else R.TurnOff(A.LIFO_ON_LEVEL);
      queue.Configure(A.LIFO_ON_LEVEL, on);
  }

  /** The calls that change a limit, and the clean-up. */
  method Set(queue: ShrQueue, c: Call) returns (ghost op: R.Op)
    requires queue.Valid() && queue.mode.ReadWrite?
    requires (c.CallClean? || c.CallLevel? || c.CallTimelimit? || c.CallTargetDelay?)
    modifies queue`tick, queue.base`q, queue.base.mem
    ensures queue.Valid()
    ensures Does(c, queue.clock, op, old(Seen(queue)), Seen(queue), Output([], [], [], [], false))
  {
    hide queue.Valid, QueueOf, Pending, A.Clean, SetFlags, ClearFlags;
    match c
    case CallClean(limit) =>
      op := R.CleanItems(limit);
      var _ := queue.ShrqClean(limit, true);
    case CallLevel(level) =>
      op := R.SetLevel(level);
      var _ := queue.ShrqLevel(level);
    case CallTimelimit(limit) =>
      op := R.SetLimit(limit);
      queue.ShrqTimelimit(limit);
    case CallTargetDelay(target) =>
      op := R.SetTarget(target);
      queue.ShrqTargetDelay(target);
  }

  method Perform(queue: ShrQueue, c: Call) returns (ghost out: Output, ghost op: R.Op)
    requires queue.Valid() && queue.mode.ReadWrite? && WellFormed(c)
    modifies queue, queue.base, queue.base.mem
    ensures queue.Valid() && (queue.base.mem == old(queue.base.mem) || fresh(queue.base.mem))
    ensures Does(c, queue.clock, op, old(Seen(queue)), Seen(queue), out)
    ensures queue.peak == Max(old(queue.peak), queue.Use())
  {
    hide queue.Valid, QueueOf, Pending, Does;
    queue.ValidFacts();
    if c.CallAdd? || c.CallAddv? {
      out, op := Add(queue, c);
    } else if c.CallRemove? {
      out := Remove(queue, c);
      op := R.RemoveItem;
    } else if c.CallEvent? {
      var event;
      event, out := TakeEvent(queue);
      op := R.TakeEvent;
      queue.ValidFacts();
    } else {
      if c.CallSubscribe? || c.CallDiscard? || c.CallLimitLifo? {
        op := Turn(queue, c);
      } else {
        op := Set(queue, c);
      }
      out := Output([], [], [], [], false);
      queue.ValidFacts();
    }
  }

  // ------------------------------------------------------------ runs of calls

  /** What was seen before the first call and after each, and what each call did. */
  ghost predicate Trace(maxDepth: nat, clock: nat -> Time, calls: seq<Call>, views: seq<View>, ops: seq<R.Op>,
                        outs: seq<Output>) {
    && |views| == |calls| + 1 && |ops| == |calls| && |outs| == |calls|
    && views[0] == View(NewValue(maxDepth), [], 0, 0)
    && forall i, j :: 0 <= i && j == i + 1 && j < |views| ==> Does(calls[i], clock, ops[i], views[i], views[j], outs[i])
  }

  lemma TraceNext(maxDepth: nat, clock: nat -> Time, calls: seq<Call>, views: seq<View>, ops: seq<R.Op>,
                  outs: seq<Output>,
                  c: Call, view: View, op: R.Op, out: Output)
    requires Trace(maxDepth, clock, calls, views, ops, outs) && Does(c, clock, op, views[|calls|], view, out)
    ensures Trace(maxDepth, clock, calls + [c], views + [view], ops + [op], outs + [out])
  {
    hide Does;
  }

  lemma HighestNext(views: seq<View>, view: View)
    ensures Highest(views + [view]) == Max(Highest(views), UseOf(view))
  {
    hide UseOf;
    assert (views + [view])[..|views|] == views;
  }

  /**
   * A new queue, and any calls one after the other.  The array never holds more
   * nodes than the three dummies and the most items and pending events that were
   * queued at once between the calls.
   */
  method RunCalls(maxDepth: nat, clock: nat -> Time, calls: seq<Call>)
    returns (queue: ShrQueue, ghost views: seq<View>, ghost ops: seq<R.Op>, ghost outs: seq<Output>)
    requires maxDepth <= 0x7fff_ffff && forall c :: c in calls ==> WellFormed(c)
    ensures fresh(queue) && queue.Valid() && queue.clock == clock
    ensures Trace(maxDepth, clock, calls, views, ops, outs) && views[|calls|] == Seen(queue)
    ensures |NodeBlocks(queue.base.q)| <= 3 + Highest(views)
  {
    hide queue.Valid, QueueOf, Pending, Does, WellFormed, Trace, Highest, NodeBlocks, NewValue;
    var status, created := ShrQueue.Create(maxDepth, clock, ReadWrite);
    queue := created;
    views, ops, outs := [Seen(queue)], [], [];
    NoCalls(maxDepth, clock, views[0]);
    for i := 0 to |calls|
      invariant fresh(queue) && fresh(queue.base) && fresh(queue.base.mem)
      invariant queue.Valid() && queue.mode.ReadWrite? && queue.clock == clock
      invariant |views| == i + 1 && views[i] == Seen(queue)
      invariant Trace(maxDepth, clock, calls[..i], views, ops, outs) && queue.peak == Highest(views)
    {
      ghost var out, op;
      out, op := Perform(queue, calls[i]);
      TraceNext(maxDepth, clock, calls[..i], views, ops, outs, calls[i], Seen(queue), op, out);
      HighestNext(views, Seen(queue));
      assert calls[..i + 1] == calls[..i] + [calls[i]];
      views, ops, outs := views + [Seen(queue)], ops + [op], outs + [out];
    }
    queue.ValidFacts();
    assert calls[..|calls|] == calls;
  }

  lemma NoCalls(maxDepth: nat, clock: nat -> Time, view: View)
    requires view == View(NewValue(maxDepth), [], 0, 0)
    ensures Trace(maxDepth, clock, [], [view], [], []) && Highest([view]) == 0
  {
    assert [view][..0] == [];
  }

  // ------------------------------------------------------------ refinement

  ghost function Items(outs: seq<Output>): seq<A.Item> {
    if outs == [] then [] else Items(outs[..|outs| - 1]) + outs[|outs| - 1].items
  }

  ghost function Taken(outs: seq<Output>): seq<A.Item> {
    if outs == [] then [] else Taken(outs[..|outs| - 1]) + outs[|outs| - 1].taken
  }

  ghost function Events(outs: seq<Output>): seq<int> {
    if outs == [] then [] else Events(outs[..|outs| - 1]) + outs[|outs| - 1].events
  }

  ghost function Accepted(outs: seq<Output>): seq<seq<C.Field>> {
    if outs == [] then [] else Accepted(outs[..|outs| - 1]) + outs[|outs| - 1].accepted
  }

  /** The run of AdaptiveRuns with these operations. */
  ghost function Abstract(maxDepth: nat, clock: nat -> Time, ops: seq<R.Op>): R.History {
    R.Run(R.New(NewValue(maxDepth).depth), clock, ops)
  }

  /**
   * The queue is where the history is, and has given out what the history says; so
   * have the events, without refusals.
   */
  ghost predicate Agrees(view: View, h: R.History, outs: seq<Output>) {
    && view.v == h.q && view.tick == h.tick
    && Taken(outs) == h.delivered && Accepted(outs) == Values(h.added)
    && (view.denied == 0 ==> view.p == h.pending && Events(outs) == h.seen)
  }

  /** What a step adds to a history does not depend on what is in it, and nothing but the events on those pending. */
  lemma StepAppends(h: R.History, view: View, clock: nat -> Time, op: R.Op)
    requires view.v == h.q && view.tick == h.tick
    ensures var h1, h' := R.Step(From(view), clock, op), R.Step(h, clock, op);
            && h'.q == h1.q && h'.tick == h1.tick && h'.delivered == h.delivered + h1.delivered
            && h'.added == h.added + h1.added
            && (view.p == h.pending ==> h'.pending == h1.pending && h'.seen == h.seen + h1.seen)
  {
    hide A.Add, A.Remove, A.Clean, SetFlags, ClearFlags;
  }

  lemma ValuesAppend(a: seq<A.Item>, b: seq<A.Item>)
    ensures Values(a + b) == Values(a) + Values(b)
  {
  }

  lemma OutputsAppend(outs: seq<Output>, out: Output)
    ensures Items(outs + [out]) == Items(outs) + out.items && Taken(outs + [out]) == Taken(outs) + out.taken
    ensures Events(outs + [out]) == Events(outs) + out.events && Accepted(outs + [out]) == Accepted(outs) + out.accepted
  {
    assert (outs + [out])[..|outs|] == outs;
  }

  lemma AgreesNext(c: Call, clock: nat -> Time, op: R.Op, a: View, b: View, h: R.History, outs: seq<Output>,
                   out: Output)
    requires Agrees(a, h, outs) && Does(c, clock, op, a, b, out)
    ensures Agrees(b, R.Step(h, clock, op), outs + [out])
  {
    hide R.Step, FieldsOf, Values, Copies, IsOp, Items, Taken, Events, Accepted;
    StepAppends(h, a, clock, op);
    ValuesAppend(h.added, R.Step(From(a), clock, op).added);
    OutputsAppend(outs, out);
  }

  /** The last call, and the run before it. */
  lemma LastCall(maxDepth: nat, clock: nat -> Time, calls: seq<Call>, views: seq<View>, ops: seq<R.Op>,
                 outs: seq<Output>)
    requires Trace(maxDepth, clock, calls, views, ops, outs) && calls != []
    ensures var k := |calls| - 1;
            && |views| == k + 2 && |ops| == |outs| == k + 1
            && Trace(maxDepth, clock, calls[..k], views[..k + 1], ops[..k], outs[..k])
            && Does(calls[k], clock, ops[k], views[k], views[k + 1], outs[k])
  {
    hide Does;
    var k := |calls| - 1;
    var j := k + 1;
    assert Does(calls[k], clock, ops[k], views[k], views[j], outs[k]);
  }

  lemma NoneYet(maxDepth: nat, clock: nat -> Time, views: seq<View>, ops: seq<R.Op>, outs: seq<Output>)
    requires Trace(maxDepth, clock, [], views, ops, outs)
    ensures Agrees(views[0], R.New(NewValue(maxDepth).depth), outs) && ops == [] && outs == []
  {
    assert Values([]) == [];
  }

  /**
   * The queue in the array and every item it has given out are those of the run
   * of AdaptiveRuns with the operations that the calls are, whether or not memory
   * was refused; and so are the events, as long as it was not.
   */
  lemma {:induction false} RunsRefine(maxDepth: nat, clock: nat -> Time, calls: seq<Call>, views: seq<View>,
                                      ops: seq<R.Op>, outs: seq<Output>)
    requires Trace(maxDepth, clock, calls, views, ops, outs)
    ensures Agrees(views[|calls|], Abstract(maxDepth, clock, ops), outs)
  {
    if calls == [] {
      NoneYet(maxDepth, clock, views, ops, outs);
    } else {
      var k := |calls| - 1;
      LastCall(maxDepth, clock, calls, views, ops, outs);
      hide Trace, Does, Agrees, R.Step, R.New, NewValue;
      RunsRefine(maxDepth, clock, calls[..k], views[..k + 1], ops[..k], outs[..k]);
      var h := Abstract(maxDepth, clock, ops[..k]);
      assert views[..k + 1][k] == views[k];
      assert outs[..k] + [outs[k]] == outs;
      AgreesNext(calls[k], clock, ops[k], views[k], views[k + 1], h, outs[..k], outs[k]);
    }
  }

  /** Every buffer that a remove asks malloc for is granted. */
  ghost predicate AllGranted(calls: seq<Call>) {
    forall c, i: nat :: c in calls && c.CallRemove? ==> c.granted(i)
  }

  lemma GrantedCopies(c: Call, clock: nat -> Time, op: R.Op, a: View, b: View, out: Output)
    requires Does(c, clock, op, a, b, out) && (c.CallRemove? ==> forall i: nat :: c.granted(i))
    ensures out.items == out.taken
  {
    hide A.Add, A.Clean, A.Remove, SetFlags, ClearFlags, FieldsOf;
    if c.CallRemove? {
      var r := A.Remove(a.v, clock, a.tick);
      var items := r.dropped + [r.item];
      assert Granted(items, c.granted, |r.dropped|);
      assert Room(c.buffer, items, c.granted);
      hide Room;
    }
  }

  /** With every buffer granted, each item taken is in the caller's buffer. */
  lemma {:induction false} TakenIsCopied(maxDepth: nat, clock: nat -> Time, calls: seq<Call>, views: seq<View>,
                                         ops: seq<R.Op>, outs: seq<Output>)
    requires Trace(maxDepth, clock, calls, views, ops, outs) && AllGranted(calls)
    ensures Items(outs) == Taken(outs)
  {
    if calls == [] {
      assert outs == [];
    } else {
      var k := |calls| - 1;
      LastCall(maxDepth, clock, calls, views, ops, outs);
      hide Trace, Does;
      assert calls[k] in calls;
      GrantedCopies(calls[k], clock, ops[k], views[k], views[k + 1], outs[k]);
      TakenIsCopied(maxDepth, clock, calls[..k], views[..k + 1], ops[..k], outs[..k]);
    }
  }

  lemma TraceOps(maxDepth: nat, clock: nat -> Time, calls: seq<Call>, views: seq<View>, ops: seq<R.Op>,
                 outs: seq<Output>, i: nat)
    requires Trace(maxDepth, clock, calls, views, ops, outs) && i < |calls|
    ensures IsOp(calls[i], ops[i]) && calls[i] in calls
  {
    var j := i + 1;
    assert Does(calls[i], clock, ops[i], views[i], views[j], outs[i]);
    hide IsOp, R.Step;
  }

  // ------------------------------------------------------------ what comes of it

  lemma WithoutOne(b: seq<A.Item>, i: nat)
    requires i < |b|
    ensures multiset(b[..i] + b[i + 1..]) == multiset(b) - multiset{b[i]}
    ensures multiset(Values(b)) == multiset{FieldsOf(b[i])} + multiset(Values(b[..i] + b[i + 1..]))
  {
    hide FieldsOf;
    assert b == b[..i] + [b[i]] + b[i + 1..];
    OneValue(b[i]);
    ValuesAppend(b[..i] + [b[i]], b[i + 1..]);
    ValuesAppend(b[..i], [b[i]]);
    ValuesAppend(b[..i], b[i + 1..]);
  }

  lemma {:induction false} ValuesBag(a: seq<A.Item>, b: seq<A.Item>)
    requires multiset(a) == multiset(b)
    ensures multiset(Values(a)) == multiset(Values(b))
  {
    hide FieldsOf, Values;
    if a == [] {
      assert multiset(b) == multiset{} && |b| == |multiset(b)|;
      assert a == b;
    } else {
      assert a[0] in multiset(b);
      var i :| 0 <= i < |b| && b[i] == a[0];
      WithoutOne(a, 0);
      WithoutOne(b, i);
      ValuesBag(a[..0] + a[1..], b[..i] + b[i + 1..]);
    }
  }

  /**
   * Every value and every vector that an add has accepted was taken by exactly
   * one remover, was lost once, or is still in the queue, with its types, lengths
   * and bytes; what was lost had expired when a remove or a clean took it.
   */
  lemma ValuesConserved(maxDepth: nat, clock: nat -> Time, calls: seq<Call>, views: seq<View>, ops: seq<R.Op>,
                        outs: seq<Output>)
    requires Trace(maxDepth, clock, calls, views, ops, outs)
    ensures var lost := Abstract(maxDepth, clock, ops).lost;
            && multiset(Accepted(outs)) ==
                 multiset(Values(Taken(outs))) + multiset(Values(lost)) + multiset(Values(A.Order(views[|calls|].v)))
            && (forall x :: x in lost ==> R.LostExpired(NewValue(maxDepth).depth, clock, ops, x))
            && (AllGranted(calls) ==> Items(outs) == Taken(outs))
  {
    hide A.Order, Values, R.Run, Trace, Items, Accepted, Events, Taken, R.LostExpired;
    var depth := NewValue(maxDepth).depth;
    RunsRefine(maxDepth, clock, calls, views, ops, outs);
    R.NothingLostNothingTwice(depth, clock, ops);
    R.OnlyExpiredLost(depth, clock, ops);
    var h := Abstract(maxDepth, clock, ops);
    ValuesBag(h.added, h.delivered + h.lost + A.Order(h.q));
    ValuesAppend(h.delivered + h.lost, A.Order(h.q));
    ValuesAppend(h.delivered, h.lost);
    if AllGranted(calls) {
      TakenIsCopied(maxDepth, clock, calls, views, ops, outs);
    }
  }

  /** Discard is never turned on, and nothing is cleaned. */
  ghost predicate KeepingCalls(calls: seq<Call>) {
    forall c :: c in calls ==> !c.CallClean? && !c.CallTargetDelay? && !(c.CallDiscard? && c.on)
  }

  lemma KeepingOp(c: Call, op: R.Op)
    requires IsOp(c, op) && !c.CallClean? && !c.CallTargetDelay? && !(c.CallDiscard? && c.on)
    ensures !op.CleanItems? && !op.SetTarget? && !(op.TurnOn? && op.mask == A.DISCARD_EXPIRED)
  {
    hide FieldsOf;
  }

  lemma KeepingOps(maxDepth: nat, clock: nat -> Time, calls: seq<Call>, views: seq<View>, ops: seq<R.Op>,
                   outs: seq<Output>)
    requires Trace(maxDepth, clock, calls, views, ops, outs) && KeepingCalls(calls)
    ensures R.Keeping(ops)
  {
    hide IsOp, Does;
    forall i | 0 <= i < |ops|
      ensures !ops[i].CleanItems? && !ops[i].SetTarget? && !(ops[i].TurnOn? && ops[i].mask == A.DISCARD_EXPIRED) {
      TraceOps(maxDepth, clock, calls, views, ops, outs, i);
      KeepingOp(calls[i], ops[i]);
    }
  }

  /**
   * Without discard and clean nothing is lost, with adaptive LIFO on or off: all
   * that was accepted was taken or is queued.
   */
  lemma ValuesKept(maxDepth: nat, clock: nat -> Time, calls: seq<Call>, views: seq<View>, ops: seq<R.Op>,
                   outs: seq<Output>)
    requires Trace(maxDepth, clock, calls, views, ops, outs) && KeepingCalls(calls)
    ensures multiset(Accepted(outs)) == multiset(Values(Taken(outs))) + multiset(Values(A.Order(views[|calls|].v)))
  {
    hide A.Order, R.Run, Trace, Items, Accepted, Events, Taken, R.LostExpired, FieldsOf;
    ValuesConserved(maxDepth, clock, calls, views, ops, outs);
    KeepingOps(maxDepth, clock, calls, views, ops, outs);
    R.NothingLost(NewValue(maxDepth).depth, clock, ops);
    assert Values([]) == [];
  }

  /** Neither is adaptive LIFO turned on. */
  ghost predicate PlainCalls(calls: seq<Call>) {
    KeepingCalls(calls) && forall c :: c in calls ==> !(c.CallLimitLifo? && c.on)
  }

  lemma PlainOp(c: Call, op: R.Op)
    requires IsOp(c, op) && !(c.CallLimitLifo? && c.on)
    ensures op.TurnOn? ==> op.mask != A.LIFO_ON_LEVEL
  {
    hide FieldsOf;
  }

  /** Then the values come out in the order in which they were accepted, byte for byte, none missing. */
  lemma ValuesInOrder(maxDepth: nat, clock: nat -> Time, calls: seq<Call>, views: seq<View>, ops: seq<R.Op>,
                      outs: seq<Output>)
    requires Trace(maxDepth, clock, calls, views, ops, outs) && PlainCalls(calls)
    ensures Values(Taken(outs)) + Values(A.Order(views[|calls|].v)) == Accepted(outs)
  {
    hide A.Order, Values, R.Run, Items, Accepted, Events, Taken, Trace, IsOp;
    RunsRefine(maxDepth, clock, calls, views, ops, outs);
    KeepingOps(maxDepth, clock, calls, views, ops, outs);
    forall i | 0 <= i < |ops| ensures ops[i].TurnOn? ==> ops[i].mask != A.LIFO_ON_LEVEL {
      SameLength(maxDepth, clock, calls, views, ops, outs);
      TraceOps(maxDepth, clock, calls, views, ops, outs, i);
      PlainOp(calls[i], ops[i]);
    }
    R.FirstInFirstOut(NewValue(maxDepth).depth, clock, ops);
    var h := Abstract(maxDepth, clock, ops);
    ValuesAppend(h.delivered, A.Order(h.q));
  }

  lemma SameLength(maxDepth: nat, clock: nat -> Time, calls: seq<Call>, views: seq<View>, ops: seq<R.Op>,
                   outs: seq<Output>)
    requires Trace(maxDepth, clock, calls, views, ops, outs)
    ensures |ops| == |calls|
  {
  }
}
