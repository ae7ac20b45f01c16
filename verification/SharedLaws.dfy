/**
 * Laws of the runs of the queue in shared memory: how many items it holds, when
 * an add is told that it is full, and what becomes of the subscriptions.
 */
module SharedLaws {
  import opened Timespec
  import opened FlagBits
  import opened SharedQueue
  import opened SharedRuns
  import opened AdaptiveTheorems
  import A = AdaptiveQueue
  import L = AdaptiveLaws
  import R = AdaptiveRuns

  /** The run up to the n-th call. */
  lemma TracePrefix(maxDepth: nat, clock: nat -> Time, calls: seq<Call>, views: seq<View>, ops: seq<R.Op>,
                    outs: seq<Output>, n: nat)
    requires Trace(maxDepth, clock, calls, views, ops, outs) && n <= |calls|
    ensures |views| == |calls| + 1 && |ops| == |outs| == |calls|
    ensures Trace(maxDepth, clock, calls[..n], views[..n + 1], ops[..n], outs[..n])
  {
    SameLength(maxDepth, clock, calls, views, ops, outs);
    hide Does;
  }

  /** What is seen after n calls is the history of the first n operations. */
  lemma ViewIsHistory(maxDepth: nat, clock: nat -> Time, calls: seq<Call>, views: seq<View>, ops: seq<R.Op>,
                      outs: seq<Output>, n: nat)
    requires Trace(maxDepth, clock, calls, views, ops, outs) && n <= |calls|
    ensures |views| == |calls| + 1 && |ops| == |outs| == |calls|
    ensures views[n].v == Abstract(maxDepth, clock, ops[..n]).q
  {
    TracePrefix(maxDepth, clock, calls, views, ops, outs, n);
    hide Trace, Does, Taken, Accepted, Events, Values, R.Run;
    RunsRefine(maxDepth, clock, calls[..n], views[..n + 1], ops[..n], outs[..n]);
  }

  lemma CallDoes(maxDepth: nat, clock: nat -> Time, calls: seq<Call>, views: seq<View>, ops: seq<R.Op>,
                 outs: seq<Output>, n: nat)
    requires Trace(maxDepth, clock, calls, views, ops, outs) && n < |calls|
    ensures |views| == |calls| + 1 && |ops| == |outs| == |calls|
    ensures Does(calls[n], clock, ops[n], views[n], views[n + 1], outs[n])
  {
    var j := n + 1;
    assert Does(calls[n], clock, ops[n], views[n], views[j], outs[n]);
    hide Does;
  }

  // ------------------------------------------------------------ the depth

  /**
   * At every moment of every run there are no more items than the depth asked
   * for, where zero stands for 2^31 - 1; the free places are what is left of it.
   */
  lemma DepthIsKept(maxDepth: nat, clock: nat -> Time, calls: seq<Call>, views: seq<View>, ops: seq<R.Op>,
                    outs: seq<Output>, n: nat)
    requires Trace(maxDepth, clock, calls, views, ops, outs) && n <= |calls|
    ensures var most := if maxDepth == 0 then 0x7fff_ffff else maxDepth;
            |views| == |calls| + 1 && |A.Order(views[n].v)| <= most &&
            views[n].v.enq == most - |A.Order(views[n].v)|
  {
    hide A.Order, Trace, R.Run, NewValue;
    ViewIsHistory(maxDepth, clock, calls, views, ops, outs, n);
    NewDepth(maxDepth);
    R.NothingLostNothingTwice(NewValue(maxDepth).depth, clock, ops[..n]);
  }

  /**
   * An add is told that the queue is full exactly if so many items are queued;
   * it is accepted exactly if not, as long as memory is not refused.
   */
  lemma FullIff(maxDepth: nat, clock: nat -> Time, calls: seq<Call>, views: seq<View>, ops: seq<R.Op>,
                outs: seq<Output>, n: nat)
    requires Trace(maxDepth, clock, calls, views, ops, outs) && n < |calls| && (calls[n].CallAdd? || calls[n].CallAddv?)
    ensures var most := if maxDepth == 0 then 0x7fff_ffff else maxDepth;
            && |views| == |calls| + 1 && |outs| == |calls|
            && (outs[n].full <==> |A.Order(views[n].v)| == most)
            && (views[n + 1].denied == views[n].denied ==>
                  outs[n].accepted == if outs[n].full then [] else [Stored(calls[n])])
            && (outs[n].accepted == [] ==> views[n + 1].v == views[n].v)
  {
    hide A.Order, Trace, Does;
    DepthIsKept(maxDepth, clock, calls, views, ops, outs, n);
    CallDoes(maxDepth, clock, calls, views, ops, outs, n);
    AddDoes(calls[n], clock, ops[n], views[n], views[n + 1], outs[n]);
  }

  lemma AddDoes(c: Call, clock: nat -> Time, op: R.Op, a: View, b: View, out: Output)
    requires Does(c, clock, op, a, b, out) && (c.CallAdd? || c.CallAddv?)
    ensures out.full <==> a.v.enq <= 0
    ensures b.denied == a.denied ==> out.accepted == if out.full then [] else [Stored(c)]
    ensures out.accepted == [] ==> b.v == a.v
  {
    hide FieldsOf, A.Add, EventsFollow, Stored;
    if op.AddItem? {
      OneValue(op.item);
      AddShape(a, clock, op);
    }
  }

  lemma AddShape(a: View, clock: nat -> Time, op: R.Op)
    requires op.AddItem?
    ensures var h := R.Step(From(a), clock, op);
            if a.v.enq <= 0 then h.added == [] && h.q == a.v else h.added == [op.item]
  {
    hide A.Add;
  }

  // ------------------------------------------------------------ subscriptions

  /** Some event is subscribed. */
  ghost predicate SomeSubscribed(q: A.Queue) {
    exists e :: 1 <= e <= 6 && A.Subscribed(q, e)
  }

  /** The call makes a subscription to e: to e itself, if it has none, or to all events, if none is subscribed. */
  ghost predicate Makes(c: Call, q: A.Queue, e: int) {
    c.CallSubscribe? && c.on &&
    ((c.event == e && !A.Subscribed(q, e)) || (c.event == 0 && !SomeSubscribed(q)))
  }

  /** The call withdraws one: that to e, or those to all events. */
  ghost predicate Withdraws(c: Call, q: A.Queue, e: int) {
    c.CallSubscribe? && !c.on && (c.event == e || c.event == 0) && A.Subscribed(q, e)
  }

  /** How many of the calls make one, given what is seen before each. */
  ghost function MadeByCalls(calls: seq<Call>, views: seq<View>, e: int): nat
    requires |views| >= |calls|
  {
    if calls == [] then 0 else
    var k := |calls| - 1;
    MadeByCalls(calls[..k], views[..k], e) + if Makes(calls[k], views[k].v, e) then 1 else 0
  }

  ghost function WithdrawnByCalls(calls: seq<Call>, views: seq<View>, e: int): nat
    requires |views| >= |calls|
  {
    if calls == [] then 0 else
    var k := |calls| - 1;
    WithdrawnByCalls(calls[..k], views[..k], e) + if Withdraws(calls[k], views[k].v, e) then 1 else 0
  }

  /** The flags a call turns on or off decide what subscriptions it makes and withdraws. */
  lemma CallsSubscribe(c: Call, op: R.Op, h: R.History, e: int)
    requires 1 <= e <= 6 && IsOp(c, op)
    ensures R.MadeBy(h, op, e) == if Makes(c, h.q, e) then 1 else 0
    ensures R.WithdrawnBy(h, op, e) == if Withdraws(c, h.q, e) then 1 else 0
  {
    hide FieldsOf, HasFlag, Common, SetFlags, ClearFlags, SomeSubscribed;
    EventMasks(e, e);
    if c.CallSubscribe? {
      SubscribeMasks(c.event, e);
      if c.event == 0 {
        L.CommonIsAny(h.q);
        SomeIsAny(h.q);
      } else if c.event == e {
        L.CommonIsOne(h.q.flags, A.EventMask(e));
      }
    }
  }

  lemma SomeIsAny(q: A.Queue)
    ensures SomeSubscribed(q) <==> L.AnySubscribed(q)
  {
    hide A.Subscribed;
  }

  /** The flags of an event are turned on or off by subscribing to it, or to all. */
  lemma SubscribeMasks(event: int, e: int)
    requires 1 <= e <= 6
    ensures var n := A.EventFlags(event);
            && (R.Turns(n) && Among(A.EventMask(e), n) <==> event == e || event == 0)
            && (event == 0 ==> n == EVENT_FLAGS) && (event == e ==> n == A.EventMask(e))
  {
  }

  lemma {:induction false} SubscriptionsCounted(maxDepth: nat, clock: nat -> Time, calls: seq<Call>, views: seq<View>,
                                                ops: seq<R.Op>, outs: seq<Output>, e: int)
    requires Trace(maxDepth, clock, calls, views, ops, outs) && 1 <= e <= 6
    ensures |views| == |calls| + 1
    ensures var depth := NewValue(maxDepth).depth;
            && R.Made(depth, clock, ops, e) == MadeByCalls(calls, views, e)
            && R.Withdrawn(depth, clock, ops, e) == WithdrawnByCalls(calls, views, e)
  {
    SameLength(maxDepth, clock, calls, views, ops, outs);
    if calls != [] {
      hide Trace, R.MadeBy, R.WithdrawnBy, Makes, Withdraws, NewValue, R.Run, IsOp;
      var k := |calls| - 1;
      TracePrefix(maxDepth, clock, calls, views, ops, outs, k);
      SubscriptionsCounted(maxDepth, clock, calls[..k], views[..k + 1], ops[..k], outs[..k], e);
      ViewIsHistory(maxDepth, clock, calls, views, ops, outs, k);
      TraceOps(maxDepth, clock, calls, views, ops, outs, k);
      CallsSubscribe(calls[k], ops[k], Abstract(maxDepth, clock, ops[..k]), e);
      FewerViews(calls[..k], views[..k + 1], e);
      FewerViews(calls, views, e);
      assert views[..k + 1][..k] == views[..k];
    }
  }

  /** Only what is seen before a call matters. */
  lemma FewerViews(calls: seq<Call>, views: seq<View>, e: int)
    requires |views| >= |calls|
    ensures MadeByCalls(calls, views, e) == MadeByCalls(calls, views[..|calls|], e)
    ensures WithdrawnByCalls(calls, views, e) == WithdrawnByCalls(calls, views[..|calls|], e)
  {
    hide Makes, Withdraws;
    if calls != [] {
      var k := |calls| - 1;
      assert views[..|calls|][..k] == views[..k] && views[..|calls|][k] == views[k];
    }
  }

  /**
   * Over every run in which memory is not refused, each subscription to an event
   * that the calls have made was used up by one event, delivered or pending,
   * was withdrawn by a call, or is in force.
   */
  lemma SubscriptionsConserved(maxDepth: nat, clock: nat -> Time, calls: seq<Call>, views: seq<View>, ops: seq<R.Op>,
                               outs: seq<Output>, e: int)
    requires Trace(maxDepth, clock, calls, views, ops, outs) && 1 <= e <= 6
    requires |views| == |calls| + 1 && views[|calls|].denied == 0
    ensures var last := views[|calls|];
            multiset(Events(outs))[e] + multiset(last.p)[e] + (if A.Subscribed(last.v, e) then 1 else 0) +
              WithdrawnByCalls(calls, views, e) == MadeByCalls(calls, views, e)
  {
    hide Trace, R.Run, R.Made, R.Withdrawn, MadeByCalls, WithdrawnByCalls, Taken, Accepted, Events, Values,
         A.Subscribed, NewValue;
    NewDepth(maxDepth);
    RunsRefine(maxDepth, clock, calls, views, ops, outs);
    SubscriptionsCounted(maxDepth, clock, calls, views, ops, outs, e);
    R.OneEventForOneSubscription(NewValue(maxDepth).depth, clock, ops, e);
  }
}
