/**
 * What the adaptive queue does when: where an add puts its item, which events an
 * operation raises, and what the time of emptiness is, over every run, in terms
 * of the items queued, the flags, the settings and the readings of the clock.
 */
module AdaptiveLaws {
  import opened FlagBits
  import opened Timespec
  import opened AdaptiveQueue
  import opened AdaptiveTheorems
  import opened AdaptiveRuns

  /** The history after the first k operations. */
  ghost function Upto(depth: nat, clock: nat -> Time, ops: seq<Op>, k: nat): History
    requires k <= |ops|
  {
    Run(New(depth), clock, ops[..k])
  }

  lemma UptoNext(depth: nat, clock: nat -> Time, ops: seq<Op>, k: nat)
    requires k < |ops|
    ensures Upto(depth, clock, ops, k + 1) == Step(Upto(depth, clock, ops, k), clock, ops[k])
  {
    assert ops[..k + 1][..k] == ops[..k];
  }

  lemma RunLast(h: History, clock: nat -> Time, ops: seq<Op>)
    requires ops != []
    ensures Run(h, clock, ops) == Step(Run(h, clock, ops[..|ops| - 1]), clock, ops[|ops| - 1])
  {
  }

  // ------------------------------------------------------------ where an item goes

  /**
   * With adaptive LIFO on, an add that finds at least LEVEL items puts its item
   * first in the order of removal; any other add puts it last.
   */
  lemma AddOrder(q: Queue, item: Item, now: Time)
    requires Consistent(q)
    ensures var q' := Add(q, item, now).q;
            if HasFlag(q.flags, 4) && |Order(q)| >= q.level then
              Order(q') == [item] + Order(q) && q'.lifo == q.lifo + [item] && q'.fifo == q.fifo
            else
              Order(q') == Order(q) + [item] && q'.fifo == q.fifo + [item] && q'.lifo == q.lifo
  {
    OrderSize(q);
    AddKeepsOrder(q, item, now);
    hide HasFlag, Order, Add;
  }

  /** The operation leaves the level alone and adaptive LIFO on. */
  ghost predicate KeepsLevel(op: Op) {
    !op.SetLevel? && !(op.TurnOff? && op.mask == LIFO_ON_LEVEL)
  }

  /** Adaptive LIFO is on with this level, and the FIFO is no longer than that. */
  ghost predicate Level(h: History, level: int) {
    HasFlag(h.q.flags, LIFO_ON_LEVEL) && h.q.level == level && |h.q.fifo| <= level
  }

  lemma AddLevel(h: History, clock: nat -> Time, item: Item, level: int)
    requires Inv(h) && Level(h, level) && level > 0
    ensures Level(Step(h, clock, AddItem(item)), level)
  {
    hide HasFlag, Add, Order, Conserved, InitOnce;
    if h.q.enq > 0 {
      OrderSize(h.q);
      AddOrder(h.q, item, clock(h.tick + 1));
      AddLifoFlag(h.q, item, clock(h.tick + 1));
      AddLevelField(h.q, item, clock(h.tick + 1));
    }
  }

  lemma AddLevelField(q: Queue, item: Item, now: Time)
    ensures Add(q, item, now).q.level == q.level
  {
    hide HasFlag, Add;
    AddFields(q, item, now);
  }

  /** A remove leaves the settings alone and shortens the FIFO at most. */
  lemma {:induction false} RemoveLevel(q: Queue, clock: nat -> Time, tick: nat)
    requires Consistent(q)
    ensures var q' := Remove(q, clock, tick).q;
            && q'.level == q.level && |q'.fifo| <= |q.fifo|
            && (HasFlag(q'.flags, LIFO_ON_LEVEL) <==> HasFlag(q.flags, LIFO_ON_LEVEL))
    decreases |q.lifo| + |q.fifo|
  {
    hide HasFlag, Order, Serve, FirstExpired, First, Reads;
    if q.deq > 0 && Order(q) != [] {
      var s := Serve(q, clock(tick));
      ServeFields(q, clock(tick));
      ServeLifoFlag(q, clock(tick));
      ServeConsistent(q, clock(tick));
      UnlinkShorter(q);
      RemoveLevel(s.q, clock, tick + Reads(q));
    }
  }

  lemma UnlinkShorter(q: Queue)
    requires Order(q) != []
    ensures |Unlink(q).fifo| <= |q.fifo| && Unlink(q).level == q.level
  {
  }

  lemma StepLevel(h: History, clock: nat -> Time, op: Op, level: int)
    requires Inv(h) && Level(h, level) && level > 0 && KeepsLevel(op)
    ensures Level(Step(h, clock, op), level)
  {
    hide HasFlag, SetFlags, ClearFlags, Add, Remove, Clean, Conserved, InitOnce;
    match op
    case AddItem(item) =>
      AddLevel(h, clock, item, level);
    case RemoveItem =>
      RemoveLevel(h.q, clock, h.tick);
    case CleanItems(limit) =>
      var k := CleanTakesExpired(h.q, limit, clock, h.tick);
    case SetTarget(_) =>
      FlagsOf(h.q.flags, LIFO_ON_LEVEL, DISCARD_EXPIRED);
    case TurnOn(mask) =>
      if Turns(mask) {
        FlagsOf(h.q.flags, LIFO_ON_LEVEL, mask);
      }
    case TurnOff(mask) =>
      if Turns(mask) {
        FlagsOf(h.q.flags, LIFO_ON_LEVEL, mask);
      }
    case _ =>
  }

  /** A queue with adaptive LIFO turned on at a level, before anything else. */
  ghost function Leveled(level: int): seq<Op> {
    [SetLevel(level), TurnOn(LIFO_ON_LEVEL)]
  }

  /**
   * With adaptive LIFO on and a fixed level, the FIFO is never longer than the
   * level: overload goes onto the stack.
   */
  lemma {:induction false} FifoWithinLevel(depth: nat, clock: nat -> Time, level: int, ops: seq<Op>)
    requires level > 0 && forall op :: op in ops ==> KeepsLevel(op)
    ensures Level(Run(New(depth), clock, Leveled(level) + ops), level)
  {
    var all := Leveled(level) + ops;
    if ops == [] {
      LeveledStart(depth, clock, level);
      assert all == Leveled(level);
    } else {
      hide Level, Step, New, KeepsLevel, Run, Leveled, Inv;
      var k := |ops| - 1;
      LeveledPrefix(level, ops);
      FifoWithinLevel(depth, clock, level, ops[..k]);
      RunInv(depth, clock, Leveled(level) + ops[..k]);
      RunLast(New(depth), clock, all);
      StepLevel(Run(New(depth), clock, Leveled(level) + ops[..k]), clock, ops[k], level);
    }
  }

  lemma LeveledPrefix(level: int, ops: seq<Op>)
    requires ops != [] && forall op :: op in ops ==> KeepsLevel(op)
    ensures var all, k := Leveled(level) + ops, |ops| - 1;
            && all[..|all| - 1] == Leveled(level) + ops[..k] && all[|all| - 1] == ops[k] && all != []
            && KeepsLevel(ops[k]) && forall op :: op in ops[..k] ==> KeepsLevel(op)
  {
    hide KeepsLevel;
    assert ops[|ops| - 1] in ops;
  }

  lemma LeveledStart(depth: nat, clock: nat -> Time, level: int)
    requires level > 0
    ensures Level(Run(New(depth), clock, Leveled(level)), level)
  {
    var h1 := Step(New(depth), clock, SetLevel(level));
    assert Leveled(level)[..1] == [SetLevel(level)] && [SetLevel(level)][..0] == [];
    assert Run(New(depth), clock, []) == New(depth);
    assert Run(New(depth), clock, [SetLevel(level)]) == h1;
    FlagsOf(h1.q.flags, LIFO_ON_LEVEL, LIFO_ON_LEVEL);
    hide HasFlag, SetFlags;
  }

  /** In such a run an add that finds the level reached is the next to be removed, unless it has expired by then. */
  lemma OverloadIsNext(depth: nat, clock: nat -> Time, level: int, ops: seq<Op>, item: Item)
    requires level > 0 && forall op :: op in ops ==> KeepsLevel(op)
    requires var h := Run(New(depth), clock, Leveled(level) + ops); h.q.enq > 0 && |Order(h.q)| >= level
    ensures var h := Run(New(depth), clock, Leveled(level) + ops);
            var h1 := Step(h, clock, AddItem(item));
            var h2 := Step(h1, clock, RemoveItem);
            && Order(h1.q) == [item] + Order(h.q)
            && (if Verdict(h1.q, 0, clock, h1.tick) then |h2.lost| > |h.lost| && h2.lost[|h.lost|] == item
                else h2.delivered == h.delivered + [item] && Order(h2.q) == Order(h.q) && h2.lost == h.lost)
  {
    hide Add, Remove, HasFlag, Order, Verdict, Run;
    FifoWithinLevel(depth, clock, level, ops);
    RunInv(depth, clock, Leveled(level) + ops);
    var h := Run(New(depth), clock, Leveled(level) + ops);
    AddOrder(h.q, item, clock(h.tick + 1));
    AddKeepsOrder(h.q, item, clock(h.tick + 1));
    var h1 := Step(h, clock, AddItem(item));
    var k := RemoveReturnsFirstFresh(h1.q, clock, h1.tick);
    hide Inv, Level;
  }

  // ------------------------------------------------------------ which event when

  /** The event, if the condition holds. */
  function One(when: bool, e: int): seq<int> {
    if when then [e] else []
  }

  /** Raising an event on a condition: exactly if it is subscribed; no other subscription changes. */
  lemma RaiseExact(s: Effect, when: bool, f: int)
    requires IsEvent(f)
    ensures RaiseIf(s, when, f).raised == s.raised + One(when && Subscribed(s.q, f), f)
    ensures forall e :: IsEvent(e) && e != f ==> (Subscribed(RaiseIf(s, when, f).q, e) <==> Subscribed(s.q, e))
  {
    hide HasFlag, WithoutFlag;
    forall e | IsEvent(e) && e != f ensures Subscribed(RaiseIf(s, when, f).q, e) <==> Subscribed(s.q, e) {
      EventMasks(e, f);
      EventMasks(f, e);
      hide EventMask;
      FlagsApart(s.q.flags, EventMask(e), EventMask(f));
    }
  }

  lemma ActivationApart(q: Queue)
    ensures forall e :: IsEvent(e) ==> (Subscribed(q.(flags := WithFlag(q.flags, ACTIVATED)), e) <==> Subscribed(q, e))
  {
    hide HasFlag, WithFlag;
    forall e | IsEvent(e) ensures Subscribed(q.(flags := WithFlag(q.flags, ACTIVATED)), e) <==> Subscribed(q, e) {
      EventMasks(e, e);
      hide EventMask;
      FlagsApart(q.flags, EventMask(e), ACTIVATED);
    }
  }

  /**
   * The events of an add, in order: INIT for the first add, NONEMPTY if the queue
   * was empty, LIMIT if the last place is taken, LEVEL if a level is set and the
   * depth reaches it; each exactly if it is subscribed.
   */
  lemma AddEvents(q: Queue, item: Item, now: Time)
    requires Consistent(q)
    ensures Add(q, item, now).raised ==
              One(Subscribed(q, 1) && !HasFlag(q.flags, 1), 1) + One(Subscribed(q, 6) && |Order(q)| == 0, 6) +
              One(Subscribed(q, 2) && |Order(q)| + 1 == q.depth, 2) +
              One(Subscribed(q, 4) && q.level > 0 && |Order(q)| + 1 >= q.level, 4)
  {
    OrderSize(q);
    hide RaiseIf, HasFlag, Subscribed, Order, One, Add, IsEvent;
    var s1, s6 := AddRounds(q, item, now);
    var w1, w2, w3 := !HasFlag(q.flags, 1), q.count == 0, q.count == q.depth - 1;
    var s4 := RaiseIf(RaiseIf(RaiseIf(s1, w1, EVNT_INIT), w2, EVNT_NONEMPTY), w3, EVNT_LIMIT);
    ThreeEvents(s1, w1, w2, w3);
    SameSubscribed(s4.q, s6.q);
    assert IsEvent(1) && IsEvent(2) && IsEvent(4) && IsEvent(6) by {
      EventNumbers();
    }
    RaiseExact(s6, s6.q.level > 0 && s6.q.count >= s6.q.level, EVNT_LEVEL);
  }

  /**
   * The part of an add behind the link, on a queue with `count` items before: the
   * events pending, the time of emptiness, and the time of the last add.
   */
  ghost predicate AddTells(q: Queue, count: int, stamp: Time, now: Time, p: seq<int>, q': Queue, p': seq<int>) {
    && p' == p + One(Subscribed(q, 1) && !HasFlag(q.flags, 1), 1) + One(Subscribed(q, 6) && count == 0, 6) +
             One(Subscribed(q, 2) && count + 1 == q.depth, 2)
    && q'.empty == (if count == 0 && Less(q.empty, now) then now else q.empty) && q'.stamp == stamp
  }

  lemma AfterEnqTells(q: Queue, count: int, stamp: Time, now: Time, p: seq<int>)
    ensures var s := AfterEnq(q, count, stamp, now); AddTells(q, count, stamp, now, p, s.q, p + s.raised)
  {
    hide RaiseIf, HasFlag, WithFlag, Subscribed, One, Less;
    var q1 := if count == 0 then TouchEmpty(q, now) else q;
    SameSubscribed(q, q1);
    var s1 := Effect(q1.(flags := WithFlag(q1.flags, ACTIVATED)), []);
    ActivationApart(q1);
    ThreeEvents(s1, !HasFlag(q1.flags, ACTIVATED), count == 0, count == q1.depth - 1);
    assert IsEvent(1) && IsEvent(6) && IsEvent(2) by {
      EventNumbers();
    }
  }

  lemma EventNumbers()
    ensures IsEvent(1) && IsEvent(2) && IsEvent(3) && IsEvent(4) && IsEvent(5) && IsEvent(6)
  {
  }

  /** The four checks of an add, from its state after activation to that before the level is looked at. */
  lemma AddRounds(q: Queue, item: Item, now: Time) returns (s1: Effect, s6: Effect)
    ensures s1.raised == [] && forall e :: IsEvent(e) ==> (Subscribed(s1.q, e) <==> Subscribed(q, e))
    ensures var s3 := RaiseIf(RaiseIf(s1, !HasFlag(q.flags, 1), 1), q.count == 0, 6);
            var s4 := RaiseIf(s3, q.count == q.depth - 1, 2);
            s6.raised == s4.raised && s6.q.flags == s4.q.flags
    ensures s6.q.level == q.level && s6.q.count == q.count + 1
    ensures Add(q, item, now) == RaiseIf(s6, s6.q.level > 0 && s6.q.count >= s6.q.level, 4)
  {
    hide RaiseIf, HasFlag, WithFlag, GoesOnStack, Subscribed;
    var q0 := Link(q.(enq := q.enq - 1), item);
    var q1 := if q.count == 0 then TouchEmpty(q0, now) else q0;
    SameSubscribed(q, q1);
    s1 := Effect(q1.(flags := WithFlag(q1.flags, ACTIVATED)), []);
    ActivationApart(q1);
    var w1, w2, w3 := !HasFlag(q1.flags, ACTIVATED), q.count == 0, q.count == q0.depth - 1;
    var s4 := RaiseIf(RaiseIf(RaiseIf(s1, w1, EVNT_INIT), w2, EVNT_NONEMPTY), w3, EVNT_LIMIT);
    ThreeEvents(s1, w1, w2, w3);
    var s5 := Enqueue(q.(enq := q.enq - 1), item, now);
    assert s5 == s4.(q := s4.q.(stamp := Stamp(item)));
    s6 := s5.(q := s5.q.(deq := s5.q.deq + 1));
  }

  lemma ThreeEvents(s1: Effect, w1: bool, w2: bool, w3: bool)
    ensures var s4 := RaiseIf(RaiseIf(RaiseIf(s1, w1, EVNT_INIT), w2, EVNT_NONEMPTY), w3, EVNT_LIMIT);
            && s4.raised == s1.raised + One(w1 && Subscribed(s1.q, 1), 1) + One(w2 && Subscribed(s1.q, 6), 6) +
                            One(w3 && Subscribed(s1.q, 2), 2)
            && (Subscribed(s4.q, 4) <==> Subscribed(s1.q, 4)) && s4.q == s1.q.(flags := s4.q.flags)
  {
    hide RaiseIf, HasFlag, Subscribed, One;
    var s2 := RaiseIf(s1, w1, EVNT_INIT);
    RaiseExact(s1, w1, EVNT_INIT);
    RaiseIfEffect(s1, w1, EVNT_INIT);
    var s3 := RaiseIf(s2, w2, EVNT_NONEMPTY);
    RaiseExact(s2, w2, EVNT_NONEMPTY);
    RaiseIfEffect(s2, w2, EVNT_NONEMPTY);
    RaiseExact(s3, w3, EVNT_LIMIT);
    RaiseIfEffect(s3, w3, EVNT_LIMIT);
  }

  lemma SameSubscribed(q: Queue, q': Queue)
    requires q'.flags == q.flags
    ensures forall e :: Subscribed(q', e) <==> Subscribed(q, e)
  {
  }

  lemma TokenAside(q: Queue, now: Time)
    requires Order(q) != []
    ensures var q0 := q.(deq := q.deq - 1);
            Order(q0) == Order(q) && First(q0) == First(q) && FirstExpired(q0, now) == FirstExpired(q, now)
  {
    var q0 := q.(deq := q.deq - 1);
    assert Order(q0) == Order(q);
    hide HasFlag, ExceedsDelay, Order;
  }

  /** Serving an item raises EMPTY if it is the last, and TIME if it has expired. */
  lemma ServeEvents(q: Queue, now: Time)
    requires Consistent(q) && Order(q) != []
    ensures Serve(q, now).raised ==
              One(Subscribed(q, 5) && |Order(q)| == 1, 5) + One(Subscribed(q, 3) && FirstExpired(q, now), 3)
    ensures Subscribed(Serve(q, now).q, 5) ==> Subscribed(q, 5)
    ensures |Order(q)| > 1 ==> (Subscribed(Serve(q, now).q, 5) <==> Subscribed(q, 5))
    ensures FirstExpired(q, now) ==> !Subscribed(Serve(q, now).q, 3)
  {
    OrderSize(q);
    TokenAside(q, now);
    hide RaiseIf, HasFlag, Subscribed, Order, ExceedsDelay;
    var q0 := q.(deq := q.deq - 1);
    var q1 := Uncount(Unlink(q0));
    SameSubscribed(q, q1);
    var s1 := Effect(q1, []);
    var w1, w2 := q0.count == 1, Expired(q1, First(q0), now);
    var s2 := RaiseIf(s1, w1, EVNT_EMPTY);
    RaiseExact(s1, w1, EVNT_EMPTY);
    RaiseExact(s2, w2, EVNT_TIME);
    UsedUp(s2, EVNT_TIME);
    UsedUp(s1, EVNT_EMPTY);
    RaiseKept(s1, w1, EVNT_EMPTY);
    SameSubscribed(Take(q0, now).q, Serve(q, now).q);
  }

  lemma UsedUp(s: Effect, f: int)
    requires IsEvent(f)
    ensures !Subscribed(RaiseIf(s, true, f).q, f)
  {
    hide HasFlag, WithoutFlag;
    EventMasks(f, f);
    hide EventMask;
    FlagsApart(s.q.flags, EventMask(f), EventMask(f));
  }

  lemma RaiseKept(s: Effect, when: bool, f: int)
    ensures !when ==> RaiseIf(s, when, f) == s
  {
  }

  /**
   * The events of a remove: EMPTY once if it takes the last item, TIME once if it
   * discards one; each exactly if it is subscribed; and no other.
   */
  lemma {:induction false} RemoveEvents(q: Queue, clock: nat -> Time, tick: nat, e: int)
    requires Consistent(q)
    ensures var r := Remove(q, clock, tick);
            Times(r.raised, e) ==
              if e == 5 && Subscribed(q, 5) && Order(q) != [] && Order(r.q) == [] then 1
              else if e == 3 && Subscribed(q, 3) && r.dropped != [] then 1 else 0
    decreases |q.lifo| + |q.fifo|
  {
    hide HasFlag, Order, Serve, FirstExpired, First, Reads, Subscribed, Times;
    NoneRaised(e);
    OrderSize(q);
    if q.deq > 0 && Order(q) != [] {
      var s := Serve(q, clock(tick));
      ServeEvents(q, clock(tick));
      ServeFields(q, clock(tick));
      ServeConsistent(q, clock(tick));
      TimesOne(Subscribed(q, 5) && |Order(q)| == 1, 5, e);
      TimesOne(Subscribed(q, 3) && FirstExpired(q, clock(tick)), 3, e);
      var last, late := Subscribed(q, 5) && |Order(q)| == 1, Subscribed(q, 3) && FirstExpired(q, clock(tick));
      TimesAdd(One(last, 5), One(late, 3), e);
      if FirstExpired(q, clock(tick)) {
        var r := Remove(s.q, clock, tick + Reads(q));
        RemoveEvents(s.q, clock, tick + Reads(q), e);
        TimesAdd(s.raised, r.raised, e);
        if Order(s.q) == [] {
          OrderSize(s.q);
          assert r == Result(false, [], [], s.q, [], tick + Reads(q));
        }
      }
    }
  }

  lemma TimesOne(when: bool, f: int, e: int)
    ensures Times(One(when, f), e) == if when && e == f then 1 else 0
  {
  }

  /** The first add activates the queue, and nothing else does. */
  lemma {:induction false} ActivatedIffAdded(depth: nat, clock: nat -> Time, ops: seq<Op>)
    ensures var h := Run(New(depth), clock, ops); HasFlag(h.q.flags, 1) <==> h.added != []
  {
    if ops != [] {
      hide New, HasFlag, Step, Run, Inv;
      var k := |ops| - 1;
      RunLast(New(depth), clock, ops);
      ActivatedIffAdded(depth, clock, ops[..k]);
      RunInv(depth, clock, ops[..k]);
      StepActivates(Run(New(depth), clock, ops[..k]), clock, ops[k]);
    } else {
      hide Run;
      EmptyRun(New(depth), clock);
    }
  }

  lemma EmptyRun(h: History, clock: nat -> Time)
    ensures Run(h, clock, []) == h
  {
  }

  lemma StepActivates(h: History, clock: nat -> Time, op: Op)
    requires Inv(h) && (HasFlag(h.q.flags, 1) <==> h.added != [])
    ensures var h' := Step(h, clock, op); HasFlag(h'.q.flags, 1) <==> h'.added != []
  {
    hide HasFlag, SetFlags, ClearFlags, Add, Remove, Clean, Conserved, InitOnce, Order;
    match op
    case AddItem(item) =>
      AddFields(h.q, item, clock(h.tick + 1));
    case RemoveItem =>
      hide Verdict;
      var k := RemoveReturnsFirstFresh(h.q, clock, h.tick);
    case CleanItems(limit) =>
      var k := CleanTakesExpired(h.q, limit, clock, h.tick);
    case SetTarget(_) =>
      FlagsOf(h.q.flags, ACTIVATED, DISCARD_EXPIRED);
    case TurnOn(mask) =>
      if Turns(mask) {
        FlagsOf(h.q.flags, ACTIVATED, mask);
      }
    case TurnOff(mask) =>
      if Turns(mask) {
        FlagsOf(h.q.flags, ACTIVATED, mask);
      }
    case _ =>
  }

  /** What an operation raises. */
  ghost function Raised(h: History, clock: nat -> Time, op: Op): seq<int> {
    var h' := Step(h, clock, op);
    if |h.raised| <= |h'.raised| then h'.raised[|h.raised|..] else []
  }

  lemma RaisedIs(h: History, clock: nat -> Time, op: Op)
    ensures Step(h, clock, op).raised == h.raised + Raised(h, clock, op)
    ensures op.AddItem? && h.q.enq > 0 ==> Raised(h, clock, op) == Add(h.q, op.item, clock(h.tick + 1)).raised
    ensures op.RemoveItem? ==> Raised(h, clock, op) == Remove(h.q, clock, h.tick).raised
    ensures (op.AddItem? && h.q.enq <= 0) || (!op.AddItem? && !op.RemoveItem?) ==> Raised(h, clock, op) == []
  {
    hide Add, Remove, Clean, SetFlags, ClearFlags;
  }

  /**
   * Which event is raised when, for every operation of every run: an add that
   * finds a place raises, in this order and each if it is subscribed, INIT if it
   * is the first, NONEMPTY if the queue is empty, LIMIT if it takes the last
   * place, LEVEL if a level is set and reached; a remove raises EMPTY if it takes
   * the last item and TIME if it discards one, once each if subscribed; nothing
   * else raises anything.
   */
  lemma WhichEventWhen(depth: nat, clock: nat -> Time, ops: seq<Op>, op: Op, e: int)
    ensures var h := Run(New(depth), clock, ops);
            var raised, h', n := Raised(h, clock, op), Step(h, clock, op), |Order(h.q)|;
            && h'.raised == h.raised + raised
            && (op.AddItem? && n < depth ==>
                  raised ==
                    One(Subscribed(h.q, 1) && h.added == [], 1) + One(Subscribed(h.q, 6) && n == 0, 6) +
                    One(Subscribed(h.q, 2) && n + 1 == depth, 2) +
                    One(Subscribed(h.q, 4) && h.q.level > 0 && n + 1 >= h.q.level, 4))
            && (op.RemoveItem? ==>
                  Times(raised, e) ==
                    if e == 5 && Subscribed(h.q, 5) && n > 0 && Order(h'.q) == [] then 1
                    else if e == 3 && Subscribed(h.q, 3) && h'.lost != h.lost then 1 else 0)
            && ((op.AddItem? && n >= depth) || (!op.AddItem? && !op.RemoveItem?) ==> raised == [])
  {
    RunInv(depth, clock, ops);
    ActivatedIffAdded(depth, clock, ops);
    var h := Run(New(depth), clock, ops);
    hide Run, HasFlag, Subscribed, Order, Add, Remove, Clean, Times, Conserved, InitOnce, Raised;
    OrderSize(h.q);
    RaisedIs(h, clock, op);
    if op.AddItem? {
      AddEvents(h.q, op.item, clock(h.tick + 1));
      hide Step;
    } else if op.RemoveItem? {
      RemoveEvents(h.q, clock, h.tick, e);
      assert h.lost + Remove(h.q, clock, h.tick).dropped != h.lost <==> Remove(h.q, clock, h.tick).dropped != [];
    } else {
      hide Step;
    }
  }

  // ------------------------------------------------------------ the time of emptiness

  /** A clock that does not go back, from a time that is not negative. */
  ghost predicate Forward(clock: nat -> Time) {
    Monotone(clock) && Nanos(clock(0)) >= 0
  }

  /** The operation is an add that finds a place and no item. */
  ghost predicate FillsEmpty(h: History, op: Op) {
    op.AddItem? && h.q.enq > 0 && Order(h.q) == []
  }

  /** The operation is a remove that takes the last item while limit and target are set. */
  ghost predicate Drains(h: History, clock: nat -> Time, op: Op) {
    op.RemoveItem? && h.q.limit != Time(0, 0) && h.q.target != Time(0, 0) &&
    Order(h.q) != [] && Order(Step(h, clock, op).q) == []
  }

  /** The time of emptiness is an earlier reading of the clock, or zero. */
  ghost predicate EmptyRead(h: History, clock: nat -> Time) {
    h.q.empty == ZERO || exists t: nat :: t < h.tick && h.q.empty == clock(t)
  }

  lemma NotLater(h: History, clock: nat -> Time, t: nat)
    requires Forward(clock) && EmptyRead(h, clock) && h.tick <= t
    ensures Less(h.q.empty, clock(t)) || h.q.empty == clock(t)
    ensures Normal(h.q.empty)
  {
    var now := clock(t);
    assert Nanos(clock(0)) <= Nanos(now) && Normal(now);
    if h.q.empty != ZERO {
      var i: nat :| i < h.tick && h.q.empty == clock(i);
      assert Normal(clock(i)) && Nanos(clock(i)) <= Nanos(now);
    }
    LessIsLess(h.q.empty, now);
    if Nanos(h.q.empty) == Nanos(now) {
      SameNanos(h.q.empty, now);
    }
  }

  lemma SameNanos(a: Time, b: Time)
    requires Normal(a) && Normal(b) && Nanos(a) == Nanos(b)
    ensures a == b
  {
  }

  /** The time of emptiness after an add. */
  lemma AddEmpty(q: Queue, item: Item, now: Time)
    ensures var q' := Add(q, item, now).q;
            && q'.empty == (if q.count == 0 && Less(q.empty, now) then now else q.empty)
            && q'.limit == q.limit && q'.target == q.target && q'.stamp == Stamp(item)
  {
    hide HasFlag, WithFlag, GoesOnStack, Subscribed, RaiseIf, One, Less, Stamp;
    var s1, s6 := AddRounds(q, item, now);
    AddFields(q, item, now);
    AddTimes(q, item, now);
  }

  lemma AddTimes(q: Queue, item: Item, now: Time)
    ensures var q' := Add(q, item, now).q;
            q'.empty == (if q.count == 0 && Less(q.empty, now) then now else q.empty) && q'.stamp == Stamp(item)
  {
    hide HasFlag, WithFlag, GoesOnStack, RaiseIf, Less, Stamp;
    var q0 := Link(q.(enq := q.enq - 1), item);
    var q1 := if q.count == 0 then TouchEmpty(q0, now) else q0;
    var s1 := Effect(q1.(flags := WithFlag(q1.flags, ACTIVATED)), []);
    var w1, w2, w3 := !HasFlag(q1.flags, ACTIVATED), q.count == 0, q.count == q0.depth - 1;
    var s4 := RaiseIf(RaiseIf(RaiseIf(s1, w1, EVNT_INIT), w2, EVNT_NONEMPTY), w3, EVNT_LIMIT);
    ThreeEvents(s1, w1, w2, w3);
    var s5 := Enqueue(q.(enq := q.enq - 1), item, now);
    assert s5 == s4.(q := s4.q.(stamp := Stamp(item)));
    var s6 := s5.(q := s5.q.(deq := s5.q.deq + 1));
    RaiseIfEffect(s6, s6.q.level > 0 && s6.q.count >= s6.q.level, EVNT_LEVEL);
  }

  /** The time of emptiness after a remove: cleared exactly if the last item went under CoDel. */
  lemma {:induction false} RemoveEmpty(q: Queue, clock: nat -> Time, tick: nat)
    requires Consistent(q)
    ensures var q' := Remove(q, clock, tick).q;
            && q'.empty ==
                 (if CodelActive(q.limit, q.target) && Order(q) != [] && Order(q') == [] then ZERO else q.empty)
            && q'.limit == q.limit && q'.target == q.target && q'.stamp == q.stamp
            && Remove(q, clock, tick).tick >= tick
    decreases |q.lifo| + |q.fifo|
  {
    hide HasFlag, Order, Serve, FirstExpired, First, Reads, CodelActive;
    OrderSize(q);
    if q.deq > 0 && Order(q) != [] {
      var s := Serve(q, clock(tick));
      ServeFields(q, clock(tick));
      ServeConsistent(q, clock(tick));
      ServeEmpty(q, clock(tick));
      OrderSize(s.q);
      if FirstExpired(q, clock(tick)) {
        RemoveEmpty(s.q, clock, tick + Reads(q));
      }
    }
  }

  lemma ServeEmpty(q: Queue, now: Time)
    requires Consistent(q) && Order(q) != []
    ensures var q' := Serve(q, now).q;
            && q'.empty == (if CodelActive(q.limit, q.target) && |Order(q)| == 1 then ZERO else q.empty)
            && q'.limit == q.limit && q'.target == q.target && q'.stamp == q.stamp
  {
    OrderSize(q);
    ServeFields(q, now);
    assert Unlink(q).count == q.count && Unlink(q).limit == q.limit && Unlink(q).target == q.target &&
      Unlink(q).empty == q.empty && Unlink(q).stamp == q.stamp;
    hide HasFlag, Order, Serve, Unlink;
  }

  lemma SetNanos(limit: Time, target: Time)
    requires Normal(limit) && Normal(target)
    ensures CodelActive(limit, target) <==> Nanos(limit) != 0 && Nanos(target) != 0
  {
  }

  lemma EmptyReadKept(h: History, h': History, clock: nat -> Time)
    requires EmptyRead(h, clock) && h.tick <= h'.tick
    requires h'.q.empty == h.q.empty || h'.q.empty == ZERO || exists t: nat :: t < h'.tick && h'.q.empty == clock(t)
    ensures EmptyRead(h', clock)
  {
    hide Normal;
  }

  lemma AddStepEmpty(h: History, clock: nat -> Time, item: Item)
    requires Consistent(h.q) && EmptyRead(h, clock) && Forward(clock)
    ensures var h' := Step(h, clock, AddItem(item));
            && h'.q.empty == (if FillsEmpty(h, AddItem(item)) then clock(h.tick + 1) else h.q.empty)
            && EmptyRead(h', clock)
  {
    hide HasFlag, Add, Order, Forward, Less, Normal, EmptyRead;
    var h' := Step(h, clock, AddItem(item));
    OrderSize(h.q);
    AddEmpty(h.q, item, clock(h.tick + 1));
    NotLater(h, clock, h.tick + 1);
    EmptyReadKept(h, h', clock);
  }

  lemma RemoveStepEmpty(h: History, clock: nat -> Time)
    requires Consistent(h.q) && EmptyRead(h, clock)
    ensures var h' := Step(h, clock, RemoveItem);
            && h'.q.empty == (if Drains(h, clock, RemoveItem) then ZERO else h.q.empty)
            && EmptyRead(h', clock)
  {
    hide HasFlag, Remove, Order, Normal, Nanos, EmptyRead;
    var h' := Step(h, clock, RemoveItem);
    RemoveEmpty(h.q, clock, h.tick);
    EmptyReadKept(h, h', clock);
  }

  lemma CleanStepEmpty(h: History, clock: nat -> Time, limit: Time)
    requires Consistent(h.q) && EmptyRead(h, clock)
    ensures var h' := Step(h, clock, CleanItems(limit)); h'.q.empty == h.q.empty && EmptyRead(h', clock)
  {
    hide Clean, Normal, EmptyRead, Stamp, ExceedsLimit;
    var k := CleanTakesExpired(h.q, limit, clock, h.tick);
    CleanTick(h.q, limit, clock, h.tick);
    EmptyReadKept(h, Step(h, clock, CleanItems(limit)), clock);
  }

  lemma SettingStepEmpty(h: History, clock: nat -> Time, op: Op)
    requires EmptyRead(h, clock) && !op.AddItem? && !op.RemoveItem? && !op.CleanItems?
    ensures Step(h, clock, op).q.empty == h.q.empty && EmptyRead(Step(h, clock, op), clock)
  {
    hide SetFlags, ClearFlags, Normal, EmptyRead;
    EmptyReadKept(h, Step(h, clock, op), clock);
  }

  /** What one operation does to the time of emptiness. */
  lemma StepEmpty(h: History, clock: nat -> Time, op: Op)
    requires Inv(h) && EmptyRead(h, clock) && Forward(clock)
    ensures var h' := Step(h, clock, op);
            && h'.q.empty ==
                 (if FillsEmpty(h, op) then clock(h.tick + 1) else if Drains(h, clock, op) then ZERO else h.q.empty)
            && EmptyRead(h', clock)
  {
    hide Step, Forward, EmptyRead, Nanos, Order, Consistent, Conserved, InitOnce;
    if op.AddItem? {
      AddStepEmpty(h, clock, op.item);
    } else if op.RemoveItem? {
      RemoveStepEmpty(h, clock);
    } else if op.CleanItems? {
      CleanStepEmpty(h, clock, op.limit);
    } else {
      SettingStepEmpty(h, clock, op);
    }
  }

  lemma {:induction false} CleanTick(q: Queue, limit: Time, clock: nat -> Time, tick: nat)
    ensures Clean(q, limit, clock, tick).1 >= tick
    decreases |q.fifo|
  {
    hide ExceedsLimit, Stamp;
    if q.deq > 0 && q.fifo != [] && ExceedsLimit(Stamp(q.fifo[0]), limit, clock(tick)) {
      var q1 := q.(fifo := q.fifo[1..], count := q.count - 1, deq := q.deq - 1, enq := q.enq + 1);
      CleanTick(q1, limit, clock, tick + 1);
    }
  }

  /** Operation k sets the time of emptiness, or clears it. */
  ghost predicate Marks(depth: nat, clock: nat -> Time, ops: seq<Op>, k: nat)
    requires k < |ops|
  {
    FillsEmpty(Upto(depth, clock, ops, k), ops[k]) || Drains(Upto(depth, clock, ops, k), clock, ops[k])
  }

  /** Operation k is the last that does; -1 stands for none. */
  ghost predicate LastMark(depth: nat, clock: nat -> Time, ops: seq<Op>, k: int) {
    && -1 <= k < |ops|
    && (k >= 0 ==> Marks(depth, clock, ops, k))
    && forall j :: k < j < |ops| ==> !Marks(depth, clock, ops, j)
  }

  /** The reading that operation k has left as the time of emptiness. */
  ghost function EmptySince(depth: nat, clock: nat -> Time, ops: seq<Op>, k: int): Time
    requires -1 <= k < |ops|
  {
    if k >= 0 && ops[k].AddItem? then clock(Upto(depth, clock, ops, k).tick + 1) else ZERO
  }

  /**
   * Over every run, the time of emptiness is the reading of the clock in the
   * latest add that found the queue empty, and zero if there was none, or none
   * since the last item was taken with limit and target set.
   */
  lemma {:induction false} EmptyTime(depth: nat, clock: nat -> Time, ops: seq<Op>) returns (k: int)
    requires Forward(clock)
    ensures LastMark(depth, clock, ops, k)
    ensures Run(New(depth), clock, ops).q.empty == EmptySince(depth, clock, ops, k)
    ensures EmptyRead(Run(New(depth), clock, ops), clock)
  {
    if ops == [] {
      k := -1;
      EmptyRun(New(depth), clock);
      hide Run;
    } else {
      hide Run, Step, Forward, Inv, EmptyRead, New, FillsEmpty, Drains, LastMark;
      var n := |ops| - 1;
      var k0 := EmptyTime(depth, clock, ops[..n]);
      RunInv(depth, clock, ops[..n]);
      var h := Run(New(depth), clock, ops[..n]);
      RunLast(New(depth), clock, ops);
      StepEmpty(h, clock, ops[n]);
      MarkKind(h, clock, ops[n]);
      k := if Marks(depth, clock, ops, n) then n else k0;
      LastMarkNext(depth, clock, ops, k0);
      if k == k0 {
        SameSince(depth, clock, ops, k);
      }
    }
  }

  lemma LastMarkNext(depth: nat, clock: nat -> Time, ops: seq<Op>, k0: int)
    requires ops != [] && LastMark(depth, clock, ops[..|ops| - 1], k0)
    ensures var n := |ops| - 1; LastMark(depth, clock, ops, if Marks(depth, clock, ops, n) then n else k0)
  {
    hide Marks;
    SameMarks(depth, clock, ops);
  }

  lemma SameSince(depth: nat, clock: nat -> Time, ops: seq<Op>, k: int)
    requires ops != [] && -1 <= k < |ops| - 1
    ensures EmptySince(depth, clock, ops[..|ops| - 1], k) == EmptySince(depth, clock, ops, k)
  {
    if k >= 0 {
      assert ops[..|ops| - 1][..k] == ops[..k];
    }
  }

  lemma MarkKind(h: History, clock: nat -> Time, op: Op)
    ensures FillsEmpty(h, op) ==> op.AddItem? && !Drains(h, clock, op)
    ensures Drains(h, clock, op) ==> op.RemoveItem?
  {
  }

  lemma SameMarks(depth: nat, clock: nat -> Time, ops: seq<Op>)
    requires ops != []
    ensures var n := |ops| - 1;
            forall j :: 0 <= j < n ==> (Marks(depth, clock, ops[..n], j) <==> Marks(depth, clock, ops, j))
  {
    hide FillsEmpty, Drains, Run;
    var n := |ops| - 1;
    forall j | 0 <= j < n ensures Marks(depth, clock, ops[..n], j) <==> Marks(depth, clock, ops, j) {
      assert ops[..n][..j] == ops[..j] && ops[..n][j] == ops[j];
    }
  }

  /**
   * When a remove holds an item to the target: with discard on, the item at
   * position j is discarded exactly if it is older than a bound that is the
   * target if limit and target are set, the item is not the last one, and the
   * latest add that found the queue empty, with no clearing since, is longer ago
   * than the limit; else the bound is the limit.
   */
  lemma WhenTargetApplies(depth: nat, clock: nat -> Time, ops: seq<Op>, j: nat) returns (k: int)
    requires Forward(clock)
    requires var h := Run(New(depth), clock, ops);
             j < |Order(h.q)| && Normal(Stamp(Order(h.q)[j])) && Normal(h.q.limit) && Normal(h.q.target)
    ensures LastMark(depth, clock, ops, k)
    ensures var h := Run(New(depth), clock, ops);
            var since, now := EmptySince(depth, clock, ops, k), Nanos(clock(h.tick + j));
            var age := now - Nanos(Stamp(Order(h.q)[j]));
            var codel := Nanos(h.q.limit) != 0 && Nanos(h.q.target) != 0 && j < |Order(h.q)| - 1 && since.sec != 0 &&
              Nanos(since) < now - Nanos(h.q.limit);
            var bound := if codel then Nanos(h.q.target) else Nanos(h.q.limit);
            Verdict(h.q, j, clock, h.tick) <==> HasFlag(h.q.flags, 2) && bound != 0 && age > bound
  {
    k := EmptyTime(depth, clock, ops);
    var h := Run(New(depth), clock, ops);
    hide Run, LastMark, EmptySince, Verdict, Order, Stamp, Nanos, Normal;
    NotLater(h, clock, h.tick);
    TargetRule(h.q, j, clock, h.tick);
  }

  lemma TargetRule(q: Queue, j: nat, clock: nat -> Time, tick: nat)
    requires Forward(clock) && j < |Order(q)| && Normal(Stamp(Order(q)[j]))
    requires Normal(q.limit) && Normal(q.target) && Normal(q.empty)
    ensures var now := Nanos(clock(tick + j));
            var codel := Nanos(q.limit) != 0 && Nanos(q.target) != 0 && j < |Order(q)| - 1 && q.empty.sec != 0 &&
              Nanos(q.empty) < now - Nanos(q.limit);
            var bound := if codel then Nanos(q.target) else Nanos(q.limit);
            Verdict(q, j, clock, tick) <==> HasFlag(q.flags, 2) && bound != 0 && now - Nanos(Stamp(Order(q)[j])) > bound
  {
    hide Order, HasFlag, Stamp;
    SetNanos(q.limit, q.target);
    var now := clock(tick + j);
    assert Normal(now);
    hide Monotone, ExceedsDelay, Nanos, Normal, CodelActive;
    var last := if CodelActive(q.limit, q.target) && j == |Order(q)| - 1 then ZERO else q.empty;
    assert Normal(ZERO) by {
      ZeroIsNormal();
    }
    DelayRule(Stamp(Order(q)[j]), q.limit, q.target, last, now);
  }

  lemma ZeroIsNormal()
    ensures Normal(ZERO)
  {
  }

  /** Over every run, the time of the last add is the one its item carries. */
  lemma {:induction false} LastAddTime(depth: nat, clock: nat -> Time, ops: seq<Op>)
    ensures var h := Run(New(depth), clock, ops);
            h.q.stamp == if h.added == [] then ZERO else Stamp(h.added[|h.added| - 1])
  {
    if ops == [] {
      EmptyRun(New(depth), clock);
      hide Run;
    } else {
      hide Run, Step, Inv, New, Stamp;
      var k := |ops| - 1;
      LastAddTime(depth, clock, ops[..k]);
      RunInv(depth, clock, ops[..k]);
      RunLast(New(depth), clock, ops);
      StepStamp(Run(New(depth), clock, ops[..k]), clock, ops[k]);
    }
  }

  lemma StepStamp(h: History, clock: nat -> Time, op: Op)
    requires Inv(h)
    ensures var h' := Step(h, clock, op);
            if op.AddItem? && h.q.enq > 0 then h'.q.stamp == Stamp(op.item) && h'.added == h.added + [op.item]
            else h'.q.stamp == h.q.stamp && h'.added == h.added
  {
    hide HasFlag, SetFlags, ClearFlags, Add, Remove, Clean, Order, Conserved, InitOnce, Stamp;
    match op
    case AddItem(item) =>
      AddEmpty(h.q, item, clock(h.tick + 1));
    case RemoveItem =>
      RemoveEmpty(h.q, clock, h.tick);
    case CleanItems(limit) =>
      var k := CleanTakesExpired(h.q, limit, clock, h.tick);
    case _ =>
  }

  /** A remove reads the clock once for each item it takes while discard is on, and not at all otherwise. */
  lemma {:induction false} RemoveReads(q: Queue, clock: nat -> Time, tick: nat)
    requires Consistent(q)
    ensures var r := Remove(q, clock, tick);
            r.tick == tick + if HasFlag(q.flags, 2) then |r.dropped| + (if r.found then 1 else 0) else 0
    decreases |q.lifo| + |q.fifo|
  {
    hide HasFlag, Order, Serve, FirstExpired, First;
    if q.deq > 0 && Order(q) != [] {
      ServeFields(q, clock(tick));
      ServeConsistent(q, clock(tick));
      if FirstExpired(q, clock(tick)) {
        ExpiredMeansDiscards(q, clock(tick));
        RemoveReads(Serve(q, clock(tick)).q, clock, tick + Reads(q));
      }
    }
  }

  /** A clean reads it once for each item it looks at. */
  lemma {:induction false} CleanReads(q: Queue, limit: Time, clock: nat -> Time, tick: nat)
    requires Consistent(q)
    ensures var (q', t) := Clean(q, limit, clock, tick);
            t == tick + |q.fifo| - |q'.fifo| + if q'.fifo == [] then 0 else 1
    decreases |q.fifo|
  {
    hide ExceedsLimit, Stamp;
    if q.fifo != [] && ExceedsLimit(Stamp(q.fifo[0]), limit, clock(tick)) {
      var q1 := q.(fifo := q.fifo[1..], count := q.count - 1, deq := q.deq - 1, enq := q.enq + 1);
      CleanReads(q1, limit, clock, tick + 1);
    }
  }

  // ------------------------------------------------------------ subscriptions

  /** Some event is subscribed. */
  ghost predicate AnySubscribed(q: Queue) {
    exists e :: IsEvent(e) && Subscribed(q, e)
  }

  /** What a subscription turns on: the event, or all six if none of them is; other calls change nothing. */
  lemma SubscribingTurnsOn(q: Queue, event: int, e: int)
    requires IsEvent(e)
    ensures var n := EventFlags(event);
            var q' := if n == 0 then q else q.(flags := SetFlags(q.flags, n));
            Subscribed(q', e) <==> Subscribed(q, e) || event == e || (event == 0 && !AnySubscribed(q))
    ensures EventMask(1) == 8 && EventMask(2) == 16 && EventMask(3) == 32
    ensures EventMask(4) == 64 && EventMask(5) == 128 && EventMask(6) == 256
  {
    EventMasks(e, e);
    var n := EventFlags(event);
    hide HasFlag, SetFlags, Common;
    if n != 0 {
      FlagsOf(q.flags, EventMask(e), n);
      if event == 0 {
        CommonIsAny(q);
      } else {
        EventMasks(event, e);
        assert n == EventMask(event);
        CommonIsOne(q.flags, n);
      }
    }
  }

  lemma CommonIsOne(f: int, n: int)
    requires IsMask(n) && n <= 256
    ensures Common(f, n) == 0 <==> !HasFlag(f, n)
  {
  }

  lemma CommonIsAny(q: Queue)
    ensures Common(q.flags, EVENT_FLAGS) != 0 <==> AnySubscribed(q)
  {
    hide HasFlag, Common;
    FlagsOf(q.flags, 8, EVENT_FLAGS);
    if Common(q.flags, EVENT_FLAGS) != 0 {
      var k :| IsMask(k) && Among(k, EVENT_FLAGS) && HasFlag(q.flags, k);
      var e := if k == 8 then 1 else if k == 16 then 2 else if k == 32 then 3
               else if k == 64 then 4 else if k == 128 then 5 else 6;
      assert EventMask(e) == k && Subscribed(q, e);
    }
    if AnySubscribed(q) {
      var e :| IsEvent(e) && Subscribed(q, e);
      EventMasks(e, e);
      assert Among(EventMask(e), EVENT_FLAGS);
    }
  }

  /** What it turns off: the event, or all six. */
  lemma SubscribingTurnsOff(q: Queue, event: int, e: int)
    requires IsEvent(e)
    ensures var n := EventFlags(event);
            var q' := if n == 0 then q else q.(flags := ClearFlags(q.flags, n));
            Subscribed(q', e) <==> Subscribed(q, e) && event != e && event != 0
  {
    EventMasks(e, e);
    var n := EventFlags(event);
    hide HasFlag, ClearFlags;
    if n != 0 {
      FlagsOf(q.flags, EventMask(e), n);
      if event != 0 {
        EventMasks(event, e);
      }
    }
  }
}
