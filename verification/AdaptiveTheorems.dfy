/**
 * What the operations of the queue promise: the order of removal, the discard
 * loop, the clean-up, the counters, and the one-shot events.
 */
module AdaptiveTheorems {
  import opened FlagBits
  import opened Timespec
  import opened AdaptiveQueue

  /** COUNT, DEQ_SEM and ENQ_SEM agree with the number of items. */
  ghost predicate Consistent(q: Queue) {
    q.count == |q.fifo| + |q.lifo| == q.deq && q.enq == q.depth - q.deq
  }

  // ------------------------------------------------------------ the order of removal

  /** An item added under overload is the next to be removed, any other the last. */
  lemma LinkOrder(q: Queue, item: Item)
    ensures Order(Link(q, item)) ==
              if HasFlag(q.flags, 4) && q.count >= q.level then [item] + Order(q) else Order(q) + [item]
  {
    if GoesOnStack(q) {
      var q' := Link(q, item);
      assert q'.lifo[..|q'.lifo| - 1] == q.lifo;
      assert Reverse(q'.lifo) == [item] + Reverse(q.lifo);
    }
  }

  lemma FirstIsFirst(q: Queue)
    requires Order(q) != []
    ensures First(q) == Order(q)[0] && Order(Unlink(q)) == Order(q)[1..]
    ensures |Unlink(q).fifo| + |Unlink(q).lifo| == |q.fifo| + |q.lifo| - 1
  {
    if q.lifo != [] {
      assert Reverse(q.lifo) == [q.lifo[|q.lifo| - 1]] + Reverse(q.lifo[..|q.lifo| - 1]);
    } else {
      assert Order(q) == q.fifo;
    }
  }

  // ------------------------------------------------------------ events

  predicate IsEvent(e: int) {
    EVNT_INIT <= e <= EVNT_NONEMPTY
  }

  lemma EventMasks(e: int, f: int)
    requires IsEvent(e) && IsEvent(f)
    ensures IsMask(EventMask(e)) && EventMask(e) >= 8 && (EventMask(e) == EventMask(f) ==> e == f)
  {
  }

  /** The subscriptions of an event in force: one or none. */
  function Subscriptions(q: Queue, e: int): nat {
    if Subscribed(q, e) then 1 else 0
  }

  /** How often an event was raised. */
  function Times(raised: seq<int>, e: int): nat {
    multiset(raised)[e]
  }

  /** Raising an event changes only the flag word, and of that no more than the event's own bit. */
  lemma RaiseEffect(s: Effect, f: int)
    requires IsEvent(f)
    ensures var s' := Raise(s, f);
            && s'.q == s.q.(flags := s'.q.flags)
            && (HasFlag(s'.q.flags, ACTIVATED) <==> HasFlag(s.q.flags, ACTIVATED))
            && (Discards(s'.q) <==> Discards(s.q))
            && (HasFlag(s'.q.flags, LIFO_ON_LEVEL) <==> HasFlag(s.q.flags, LIFO_ON_LEVEL))
  {
    EventMasks(f, f);
    hide HasFlag, WithoutFlag;
    FlagsApart(s.q.flags, ACTIVATED, EventMask(f));
    FlagsApart(s.q.flags, DISCARD_EXPIRED, EventMask(f));
    FlagsApart(s.q.flags, LIFO_ON_LEVEL, EventMask(f));
  }

  /** An event is raised exactly when a subscription is used up. */
  lemma RaiseOnce(s: Effect, f: int, e: int)
    requires IsEvent(f) && IsEvent(e)
    ensures Times(Raise(s, f).raised, e) + Subscriptions(Raise(s, f).q, e) == Times(s.raised, e) + Subscriptions(s.q, e)
  {
    EventMasks(e, f);
    EventMasks(f, e);
    hide HasFlag, WithoutFlag, EventMask;
    FlagsApart(s.q.flags, EventMask(e), EventMask(f));
  }

  lemma ActivationKeepsEvents(q: Queue, e: int)
    requires IsEvent(e)
    ensures Subscriptions(q.(flags := WithFlag(q.flags, ACTIVATED)), e) == Subscriptions(q, e)
  {
    EventMasks(e, e);
    hide HasFlag, WithFlag, EventMask;
    FlagsApart(q.flags, EventMask(e), ACTIVATED);
  }

  lemma RaiseIfOnce(s: Effect, when: bool, f: int, e: int)
    requires IsEvent(f) && IsEvent(e)
    ensures var s' := RaiseIf(s, when, f);
            Times(s'.raised, e) + Subscriptions(s'.q, e) == Times(s.raised, e) + Subscriptions(s.q, e)
  {
    hide Raise, Times, Subscriptions;
    RaiseOnce(s, f, e);
  }

  lemma SameFlags(q: Queue, q': Queue, e: int)
    requires q'.flags == q.flags
    ensures Subscriptions(q', e) == Subscriptions(q, e)
  {
  }

  /** Each subscription yields at most one event: in an add, events raised and subscriptions used up balance. */
  lemma AddRaisesOnce(q: Queue, item: Item, now: Time, e: int)
    requires IsEvent(e)
    ensures Times(Add(q, item, now).raised, e) + Subscriptions(Add(q, item, now).q, e) == Subscriptions(q, e)
  {
    hide RaiseIf, Times, Subscriptions, HasFlag, WithFlag, GoesOnStack;
    var q0 := Link(q.(enq := q.enq - 1), item);
    var q1 := if q.count == 0 then TouchEmpty(q0, now) else q0;
    SameFlags(q, q1, e);
    var s1 := Effect(q1.(flags := WithFlag(q1.flags, ACTIVATED)), []);
    ActivationKeepsEvents(q1, e);
    NoneRaised(e);
    var s2 := RaiseIf(s1, !HasFlag(q1.flags, ACTIVATED), EVNT_INIT);
    var s3 := RaiseIf(s2, q.count == 0, EVNT_NONEMPTY);
    RaiseIfOnce(s1, !HasFlag(q1.flags, ACTIVATED), EVNT_INIT, e);
    RaiseIfOnce(s2, q.count == 0, EVNT_NONEMPTY, e);
    RaiseIfOnce(s3, q.count == q0.depth - 1, EVNT_LIMIT, e);
    var s4 := Enqueue(q.(enq := q.enq - 1), item, now);
    var s5 := s4.(q := s4.q.(deq := s4.q.deq + 1));
    SameFlags(RaiseIf(s3, q.count == q0.depth - 1, EVNT_LIMIT).q, s5.q, e);
    RaiseIfOnce(s5, s5.q.level > 0 && s5.q.count >= s5.q.level, EVNT_LEVEL, e);
  }

  lemma NoneRaised(e: int)
    ensures Times([], e) == 0
  {
  }

  lemma ServeRaisesOnce(q: Queue, now: Time, e: int)
    requires IsEvent(e) && Order(q) != []
    ensures Times(Serve(q, now).raised, e) + Subscriptions(Serve(q, now).q, e) == Subscriptions(q, e)
  {
    hide RaiseIf, Times, Subscriptions, HasFlag, ExceedsDelay;
    var q0 := q.(deq := q.deq - 1);
    assert Order(q0) == Order(q);
    hide Reverse;
    var q1 := Uncount(Unlink(q0));
    var s1 := Effect(q1, []);
    SameFlags(q, q1, e);
    NoneRaised(e);
    var s2 := RaiseIf(s1, q0.count == 1, EVNT_EMPTY);
    RaiseIfOnce(s1, q0.count == 1, EVNT_EMPTY, e);
    RaiseIfOnce(s2, Expired(q1, First(q0), now), EVNT_TIME, e);
    SameFlags(Take(q0, now).q, Serve(q, now).q, e);
  }

  lemma TimesAdd(a: seq<int>, b: seq<int>, e: int)
    ensures Times(a + b, e) == Times(a, e) + Times(b, e)
  {
  }

  /** The same in a remove, however many items it discards. */
  lemma {:induction false} RemoveRaisesOnce(q: Queue, clock: nat -> Time, tick: nat, e: int)
    requires IsEvent(e)
    ensures var r := Remove(q, clock, tick); Times(r.raised, e) + Subscriptions(r.q, e) == Subscriptions(q, e)
    decreases |q.lifo| + |q.fifo|
  {
    hide Times, Subscriptions, Serve, FirstExpired, First, Reads;
    NoneRaised(e);
    if q.deq > 0 && Order(q) != [] {
      hide Order;
      var s := Serve(q, clock(tick));
      ServeRaisesOnce(q, clock(tick), e);
      ServeFields(q, clock(tick));
      RemoveRaisesOnce(s.q, clock, tick + Reads(q), e);
      TimesAdd(s.raised, Remove(s.q, clock, tick + Reads(q)).raised, e);
    }
  }

  lemma RaiseIfEffect(s: Effect, when: bool, f: int)
    requires IsEvent(f)
    ensures var s' := RaiseIf(s, when, f);
            && s'.q == s.q.(flags := s'.q.flags)
            && (HasFlag(s'.q.flags, ACTIVATED) <==> HasFlag(s.q.flags, ACTIVATED))
            && (Discards(s'.q) <==> Discards(s.q))
            && (HasFlag(s'.q.flags, LIFO_ON_LEVEL) <==> HasFlag(s.q.flags, LIFO_ON_LEVEL))
  {
    RaiseEffect(s, f);
    hide Raise, HasFlag;
  }

  /** Serving an item raises at most one event, two if it was the last. */
  lemma ServeRaises(q: Queue, now: Time)
    requires Order(q) != []
    ensures |Serve(q, now).raised| <= if q.count == 1 then 2 else 1
  {
    var q0 := q.(deq := q.deq - 1);
    assert Order(q0) == Order(q);
    hide HasFlag, WithoutFlag, Reverse, Expired, Uncount;
  }

  /** What serving an item does, the flag word aside. */
  lemma ServeFields(q: Queue, now: Time)
    requires Order(q) != []
    ensures var q' := Serve(q, now).q;
            && q' == Uncount(Unlink(q)).(flags := q'.flags, deq := q.deq - 1, enq := q.enq + 1)
            && (Discards(q') <==> Discards(q))
            && (HasFlag(q'.flags, ACTIVATED) <==> HasFlag(q.flags, ACTIVATED))
            && Order(q') == Order(q)[1..] && First(q) == Order(q)[0]
            && |q'.fifo| + |q'.lifo| == |q.fifo| + |q.lifo| - 1
  {
    FirstIsFirst(q);
    var q0 := q.(deq := q.deq - 1);
    assert Order(q0) == Order(q);
    var s1 := Effect(Uncount(Unlink(q0)), []);
    assert Discards(s1.q) == Discards(q) && s1.q.flags == q.flags;
    assert Order(Uncount(Unlink(q)).(flags := Serve(q, now).q.flags, deq := q.deq - 1, enq := q.enq + 1)) ==
        Order(Unlink(q));
    hide RaiseIf, HasFlag, Reverse, Expired;
    RaiseIfEffect(s1, q0.count == 1, EVNT_EMPTY);
    RaiseIfEffect(RaiseIf(s1, q0.count == 1, EVNT_EMPTY), Expired(s1.q, First(q0), now), EVNT_TIME);
  }

  // ------------------------------------------------------------ the discard loop

  /**
   * The verdict on the item at position j of the order of removal, when it is
   * taken at the j-th reading of the clock: under CoDel the last one is judged
   * after the time of emptiness has been cleared, hence by the limit.
   */
  ghost predicate Verdict(q: Queue, j: nat, clock: nat -> Time, tick: nat)
    requires j < |Order(q)|
  {
    Discards(q) &&
    ExceedsDelay(Stamp(Order(q)[j]), q.limit, q.target,
                 if CodelActive(q.limit, q.target) && j == |Order(q)| - 1 then ZERO else q.empty, clock(tick + j))
  }

  /**
   * The remove has dropped exactly the k first items, all expired, and returned the
   * one behind them, if there is one.
   */
  ghost predicate Removed(q: Queue, r: Result, clock: nat -> Time, tick: nat, k: nat) {
    && k <= |Order(q)| && r.dropped == Order(q)[..k]
    && (forall j :: 0 <= j < k ==> Verdict(q, j, clock, tick))
    && (if r.found then
          && k < |Order(q)| && r.item == Order(q)[k] && !Verdict(q, k, clock, tick) && Order(r.q) == Order(q)[k + 1..]
        else
          k == |Order(q)| && Order(r.q) == [])
    && Consistent(r.q) && r.q.depth == q.depth
    && (HasFlag(r.q.flags, ACTIVATED) <==> HasFlag(q.flags, ACTIVATED))
  }

  lemma OrderSize(q: Queue)
    ensures |Order(q)| == |q.fifo| + |q.lifo|
  {
  }

  lemma FirstVerdict(q: Queue, clock: nat -> Time, tick: nat)
    requires Consistent(q) && Order(q) != []
    ensures FirstExpired(q, clock(tick)) <==> Verdict(q, 0, clock, tick)
  {
    FirstIsFirst(q);
    OrderSize(q);
    hide HasFlag, ExceedsDelay, Order;
  }

  lemma NextVerdict(q: Queue, q1: Queue, j: nat, clock: nat -> Time, tick: nat)
    requires Consistent(q) && Order(q) != [] && Order(q1) == Order(q)[1..] && j < |Order(q1)|
    requires (Discards(q1) <==> Discards(q)) && q1.limit == q.limit && q1.target == q.target
    requires q.count > 1 ==> q1.empty == q.empty
    ensures Verdict(q1, j, clock, tick + 1) <==> Verdict(q, j + 1, clock, tick)
  {
    OrderSize(q);
    hide HasFlag, ExceedsDelay, Order;
    assert tick + 1 + j == tick + (j + 1);
  }

  /** A remove returns the first item in the order of removal that has not expired, and drops those before it. */
  lemma {:induction false} RemoveReturnsFirstFresh(q: Queue, clock: nat -> Time, tick: nat) returns (k: nat)
    requires Consistent(q)
    ensures Removed(q, Remove(q, clock, tick), clock, tick, k)
    decreases |q.lifo| + |q.fifo|
  {
    k := 0;
    OrderSize(q);
    hide Order, Serve, FirstExpired, Verdict, First;
    if Order(q) != [] {
      var q1 := Serve(q, clock(tick)).q;
      ServeFields(q, clock(tick));
      FirstVerdict(q, clock, tick);
      if FirstExpired(q, clock(tick)) {
        ServeConsistent(q, clock(tick));
        var k1 := RemoveReturnsFirstFresh(q1, clock, tick + 1);
        RemovedStep(q, q1, clock, tick, k1);
        k := k1 + 1;
      } else {
        ServeConsistent(q, clock(tick));
      }
    }
  }

  lemma ServeConsistent(q: Queue, now: Time)
    requires Consistent(q) && Order(q) != []
    ensures Consistent(Serve(q, now).q)
  {
    hide Serve, Reverse;
    ServeFields(q, now);
  }

  lemma ExpiredMeansDiscards(q: Queue, now: Time)
    requires Order(q) != [] && FirstExpired(q, now)
    ensures Discards(q)
  {
  }

  lemma RemovedStep(q: Queue, q1: Queue, clock: nat -> Time, tick: nat, k1: nat)
    requires Consistent(q) && Order(q) != [] && FirstExpired(q, clock(tick)) && Verdict(q, 0, clock, tick)
    requires q1 == Serve(q, clock(tick)).q
    requires Removed(q1, Remove(q1, clock, tick + 1), clock, tick + 1, k1)
    ensures Removed(q, Remove(q, clock, tick), clock, tick, k1 + 1)
  {
    hide Serve, FirstExpired, Verdict, First, Order;
    ServeFields(q, clock(tick));
    OrderSize(q);
    ExpiredMeansDiscards(q, clock(tick));
    hide Discards, HasFlag;
    var r := Remove(q, clock, tick);
    assert r.dropped == [Order(q)[0]] + Order(q1)[..k1];
    forall j | 0 <= j < k1 + 1 ensures Verdict(q, j, clock, tick) {
      if j > 0 {
        NextVerdict(q, q1, j - 1, clock, tick);
      }
    }
    if r.found {
      NextVerdict(q, q1, k1, clock, tick);
    }
  }

  /** Under CoDel, the last item in the queue is judged by the limit, never by the target. */
  lemma LastItemByLimit(q: Queue, clock: nat -> Time, tick: nat)
    requires Order(q) != [] && CodelActive(q.limit, q.target) && Discards(q)
    ensures var j := |Order(q)| - 1;
            Verdict(q, j, clock, tick) <==> ExceedsLimit(Stamp(Order(q)[j]), q.limit, clock(tick + j))
  {
    hide HasFlag, Order, ExceedsLimit;
  }

  // ------------------------------------------------------------ cleaning

  /** The clean has taken exactly the k first items of the FIFO, each expired when it was looked at. */
  ghost predicate Cleaned(q: Queue, limit: Time, clock: nat -> Time, tick: nat, q': Queue, k: nat) {
    && k <= |q.fifo|
    && q' == q.(fifo := q.fifo[k..], count := q.count - k, deq := q.deq - k, enq := q.enq + k)
    && (forall j :: 0 <= j < k ==> ExceedsLimit(Stamp(q.fifo[j]), limit, clock(tick + j)))
    && (k < |q.fifo| ==> !ExceedsLimit(Stamp(q.fifo[k]), limit, clock(tick + k)))
  }

  lemma {:induction false} CleanTakesExpired(q: Queue, limit: Time, clock: nat -> Time, tick: nat) returns (k: nat)
    requires Consistent(q)
    ensures Cleaned(q, limit, clock, tick, Clean(q, limit, clock, tick).0, k)
    ensures Consistent(Clean(q, limit, clock, tick).0)
    decreases |q.fifo|
  {
    hide ExceedsLimit, Stamp;
    k := 0;
    if q.fifo != [] && ExceedsLimit(Stamp(q.fifo[0]), limit, clock(tick)) {
      var q1 := q.(fifo := q.fifo[1..], count := q.count - 1, deq := q.deq - 1, enq := q.enq + 1);
      var k1 := CleanTakesExpired(q1, limit, clock, tick + 1);
      k := k1 + 1;
      forall j | 0 <= j < k ensures ExceedsLimit(Stamp(q.fifo[j]), limit, clock(tick + j)) {
        if j > 0 {
          assert q1.fifo[j - 1] == q.fifo[j] && tick + 1 + (j - 1) == tick + j;
        }
      }
      if k < |q.fifo| {
        assert q1.fifo[k1] == q.fifo[k] && tick + 1 + k1 == tick + k;
      }
      assert q1.fifo[k1..] == q.fifo[k..];
    }
  }

  ghost predicate Monotone(clock: nat -> Time) {
    (forall i :: Normal(clock(i))) && (forall i, j :: i <= j ==> Nanos(clock(i)) <= Nanos(clock(j)))
  }

  /**
   * With a clock that does not go back, the clean takes exactly the longest
   * prefix of the FIFO whose items have all expired at its last reading.
   */
  lemma CleanTakesLongestPrefix(q: Queue, limit: Time, clock: nat -> Time, tick: nat, m: nat) returns (k: nat)
    requires Consistent(q) && Monotone(clock) && Normal(limit) && forall x :: x in q.fifo ==> Normal(Stamp(x))
    requires m <= |q.fifo|
    ensures Cleaned(q, limit, clock, tick, Clean(q, limit, clock, tick).0, k)
    ensures (forall j :: 0 <= j < m ==> ExceedsLimit(Stamp(q.fifo[j]), limit, clock(tick + k))) <==> m <= k
  {
    k := CleanTakesExpired(q, limit, clock, tick);
    hide ExceedsLimit, Stamp, Nanos, Normal, Clean;
    forall j | 0 <= j < k ensures ExceedsLimit(Stamp(q.fifo[j]), limit, clock(tick + k)) {
      ExpiryIsFinal(Stamp(q.fifo[j]), limit, clock(tick + j), clock(tick + k));
    }
  }

  // ------------------------------------------------------------ adding

  lemma EnqueueFields(q: Queue, item: Item, now: Time)
    ensures var q0, s := Link(q, item), Enqueue(q, item, now);
            && s.q == q0.(flags := s.q.flags, stamp := s.q.stamp, empty := s.q.empty)
            && HasFlag(s.q.flags, ACTIVATED)
  {
    hide RaiseIf, HasFlag, WithFlag, Link;
    var q0 := Link(q, item);
    var q1 := if q.count == 0 then TouchEmpty(q0, now) else q0;
    var s1 := Effect(q1.(flags := WithFlag(q1.flags, ACTIVATED)), []);
    FlagsApart(q1.flags, ACTIVATED, ACTIVATED);
    var s2 := RaiseIf(s1, !HasFlag(q1.flags, ACTIVATED), EVNT_INIT);
    var s3 := RaiseIf(s2, q.count == 0, EVNT_NONEMPTY);
    RaiseIfEffect(s1, !HasFlag(q1.flags, ACTIVATED), EVNT_INIT);
    RaiseIfEffect(s2, q.count == 0, EVNT_NONEMPTY);
    RaiseIfEffect(s3, q.count == q1.depth - 1, EVNT_LIMIT);
  }

  lemma AddFields(q: Queue, item: Item, now: Time)
    ensures var q0, q' := Link(q, item), Add(q, item, now).q;
            && q' == q0.(enq := q.enq - 1, deq := q.deq + 1, flags := q'.flags, stamp := q'.stamp, empty := q'.empty)
            && HasFlag(q'.flags, ACTIVATED)
  {
    hide RaiseIf, HasFlag, Enqueue, LIFO_ON_LEVEL;
    var q0 := q.(enq := q.enq - 1);
    EnqueueFields(q0, item, now);
    var s := Enqueue(q0, item, now);
    var s1 := s.(q := s.q.(deq := s.q.deq + 1));
    RaiseIfEffect(s1, s1.q.level > 0 && s1.q.count >= s1.q.level, EVNT_LEVEL);
  }

  /** An add puts the item where the adaptive rule says, and keeps the counters in agreement. */
  lemma AddKeepsOrder(q: Queue, item: Item, now: Time)
    requires Consistent(q)
    ensures var q' := Add(q, item, now).q;
            && Consistent(q') && q'.depth == q.depth && HasFlag(q'.flags, ACTIVATED)
            && if HasFlag(q.flags, 4) && q.count >= q.level then
                 q'.fifo == q.fifo && q'.lifo == q.lifo + [item] && Order(q') == [item] + Order(q)
               else
                 q'.fifo == q.fifo + [item] && q'.lifo == q.lifo && Order(q') == Order(q) + [item]
  {
    hide Add, HasFlag, Order;
    AddFields(q, item, now);
    LinkOrder(q, item);
    SameOrder(Link(q, item), Add(q, item, now).q);
  }

  lemma AddConsistent(q: Queue, item: Item, now: Time)
    requires Consistent(q)
    ensures Consistent(Add(q, item, now).q) && Add(q, item, now).q.enq == q.enq - 1
  {
    hide Add, HasFlag, GoesOnStack, Order;
    AddFields(q, item, now);
    AddKeepsOrder(q, item, now);
  }

  lemma ConsistentSize(q: Queue)
    requires Consistent(q)
    ensures |Order(q)| == q.deq == q.count == |q.fifo| + |q.lifo|
  {
    OrderSize(q);
    hide Order;
  }

  /** What an earlier round has dropped and raised goes before. */
  function Following(dropped: seq<Item>, raised: seq<int>, r: Result): Result {
    r.(dropped := dropped + r.dropped, raised := raised + r.raised)
  }

  lemma FollowingTwice(d1: seq<Item>, d2: seq<Item>, r1: seq<int>, r2: seq<int>, r: Result)
    ensures Following(d1, r1, Following(d2, r2, r)) == Following(d1 + d2, r1 + r2, r)
  {
    assert d1 + (d2 + r.dropped) == (d1 + d2) + r.dropped;
    assert r1 + (r2 + r.raised) == (r1 + r2) + r.raised;
  }

  lemma FollowingNone(r: Result)
    ensures Following([], [], r) == r
  {
  }

  lemma RemoveNone(q: Queue, clock: nat -> Time, tick: nat)
    requires q.deq <= 0
    ensures Remove(q, clock, tick) == Result(false, [], [], q, [], tick)
  {
  }

  /** One round of a remove. */
  lemma RemoveRound(q: Queue, clock: nat -> Time, tick: nat)
    requires q.deq > 0 && Order(q) != []
    ensures var q0, now := q.(deq := q.deq - 1), clock(tick);
            && Order(q0) != [] && First(q0) == First(q) && FirstExpired(q0, now) == FirstExpired(q, now)
            && Reads(q0) == Reads(q)
            && Serve(q, now).raised == Take(q0, now).raised
            && Serve(q, now).q == Take(q0, now).q.(enq := Take(q0, now).q.enq + 1)
            && Remove(q, clock, tick) == (if FirstExpired(q, now) then
                                            Following([First(q)], Serve(q, now).raised,
                                                Remove(Serve(q, now).q, clock, tick + Reads(q)))
                                          else Result(true, First(q), [], Serve(q, now).q, Serve(q, now).raised, tick +
                                            Reads(q)))
  {
    var q0 := q.(deq := q.deq - 1);
    SameOrder(q, q0);
    assert Discards(q0) == Discards(q);
    hide Order, Take, HasFlag, ExceedsDelay;
  }

  lemma SameOrder(q: Queue, q': Queue)
    requires q'.fifo == q.fifo && q'.lifo == q.lifo
    ensures Order(q') == Order(q)
  {
  }
}
