/**
 * Whole runs of the queue, one operation after the other: no item is lost or
 * delivered twice, the counters agree throughout, and the INIT event comes once.
 */
module AdaptiveRuns {
  import opened FlagBits
  import opened Timespec
  import opened AdaptiveQueue
  import opened AdaptiveTheorems

  datatype Op =
    | AddItem(item: Item)
    | AddRefused               // an add that finds no memory; it has read the clock
    | RemoveItem
    | CleanItems(limit: Time)
    | TakeEvent
    | SetLevel(level: int)
    | SetLimit(limit: Time)
    | SetTarget(target: Time)
    | TurnOn(mask: int)         // subscriptions, discard, adaptive LIFO
    | TurnOff(mask: int)

  /**
   * The queue, the events pending, and what has gone in, come out, been
   * discarded or cleaned, been raised, and been delivered as an event so far.
   */
  datatype History = History(q: Queue, tick: nat, pending: seq<int>,
                             added: seq<Item>, delivered: seq<Item>, lost: seq<Item>, raised: seq<int>, seen: seq<int>)

  function Step(h: History, clock: nat -> Time, op: Op): History {
    match op
    case AddItem(item) =>
      if h.q.enq <= 0 then h else
      var s := Add(h.q, item, clock(h.tick + 1));
      h.(q := s.q, tick := h.tick + (if h.q.count == 0 then 2 else 1), pending := h.pending + s.raised,
         added := h.added + [item], raised := h.raised + s.raised)
    case AddRefused =>
      if h.q.enq <= 0 then h else h.(tick := h.tick + 1)
    case RemoveItem =>
      var r := Remove(h.q, clock, h.tick);
      h.(q := r.q, tick := r.tick, pending := h.pending + r.raised,
         delivered := if r.found then h.delivered + [r.item] else h.delivered,
         lost := h.lost + r.dropped, raised := h.raised + r.raised)
    case CleanItems(limit) =>
      var (q', tick) := Clean(h.q, limit, clock, h.tick);
      h.(q := q', tick := tick, lost := h.lost +
        h.q.fifo[..if |q'.fifo| <= |h.q.fifo| then |h.q.fifo| - |q'.fifo| else 0])
    case TakeEvent =>
      if h.pending == [] then h else h.(pending := h.pending[1..], seen := h.seen + [h.pending[0]])
    case SetLevel(level) => if level > 0 then h.(q := h.q.(level := level)) else h
    case SetLimit(limit) => h.(q := h.q.(limit := limit))
    case SetTarget(target) => h.(q := h.q.(target := target, flags := SetFlags(h.q.flags, DISCARD_EXPIRED)))
    case TurnOn(mask) => if Turns(mask) then h.(q := h.q.(flags := SetFlags(h.q.flags, mask))) else h
    case TurnOff(mask) => if Turns(mask) then h.(q := h.q.(flags := ClearFlags(h.q.flags, mask))) else h
  }

  /** The flags that callers turn on and off. */
  predicate Turns(mask: int) {
    IsFlags(mask) && mask != ACTIVATED
  }

  function Run(h: History, clock: nat -> Time, ops: seq<Op>): History {
    if ops == [] then h else Step(Run(h, clock, ops[..|ops| - 1]), clock, ops[|ops| - 1])
  }

  /** A new queue. */
  function New(depth: nat): History {
    History(Queue([], [], 0, 0, depth, 0, 0, depth, ZERO, ZERO, ZERO, ZERO), 0, [], [], [], [], [], [])
  }

  // ------------------------------------------------------------ the INIT event

  lemma RaiseIfOther(s: Effect, when: bool, f: int, e: int)
    requires f != e || !when
    ensures Times(RaiseIf(s, when, f).raised, e) == Times(s.raised, e)
  {
    hide HasFlag, WithoutFlag, EventMask;
  }

  /** INIT is raised by no add to a queue that has been activated. */
  lemma NoSecondInit(q: Queue, item: Item, now: Time)
    requires HasFlag(q.flags, ACTIVATED)
    ensures Times(Add(q, item, now).raised, EVNT_INIT) == 0
  {
    hide RaiseIf, Times, HasFlag, WithFlag, GoesOnStack;
    var q0 := Link(q.(enq := q.enq - 1), item);
    var q1 := if q.count == 0 then TouchEmpty(q0, now) else q0;
    var s1 := Effect(q1.(flags := WithFlag(q1.flags, ACTIVATED)), []);
    assert q1.flags == q.flags;
    NoneRaised(EVNT_INIT);
    var s2 := RaiseIf(s1, !HasFlag(q1.flags, ACTIVATED), EVNT_INIT);
    var s3 := RaiseIf(s2, q.count == 0, EVNT_NONEMPTY);
    RaiseIfOther(s1, !HasFlag(q1.flags, ACTIVATED), EVNT_INIT, EVNT_INIT);
    RaiseIfOther(s2, q.count == 0, EVNT_NONEMPTY, EVNT_INIT);
    RaiseIfOther(s3, q.count == q0.depth - 1, EVNT_LIMIT, EVNT_INIT);
    var s4 := Enqueue(q.(enq := q.enq - 1), item, now);
    var s5 := s4.(q := s4.q.(deq := s4.q.deq + 1));
    RaiseIfOther(s5, s5.q.level > 0 && s5.q.count >= s5.q.level, EVNT_LEVEL, EVNT_INIT);
  }

  lemma AddInits(q: Queue, item: Item, now: Time)
    ensures Times(Add(q, item, now).raised, EVNT_INIT) <= if HasFlag(q.flags, ACTIVATED) then 0 else 1
  {
    hide Add, Times, HasFlag, Subscriptions;
    AddRaisesOnce(q, item, now, EVNT_INIT);
    AtMostOneSubscription(q, EVNT_INIT);
    if HasFlag(q.flags, ACTIVATED) {
      NoSecondInit(q, item, now);
    }
  }

  lemma AtMostOneSubscription(q: Queue, e: int)
    ensures Subscriptions(q, e) <= 1
  {
  }

  lemma {:induction false} RemoveNoInit(q: Queue, clock: nat -> Time, tick: nat)
    ensures Times(Remove(q, clock, tick).raised, EVNT_INIT) == 0
    decreases |q.lifo| + |q.fifo|
  {
    hide Times, Serve, FirstExpired, First, Reads;
    NoneRaised(EVNT_INIT);
    if q.deq > 0 && Order(q) != [] {
      hide Order;
      var s := Serve(q, clock(tick));
      ServeNoInit(q, clock(tick));
      ServeFields(q, clock(tick));
      RemoveNoInit(s.q, clock, tick + Reads(q));
      TimesAdd(s.raised, Remove(s.q, clock, tick + Reads(q)).raised, EVNT_INIT);
    }
  }

  lemma ServeNoInit(q: Queue, now: Time)
    requires Order(q) != []
    ensures Times(Serve(q, now).raised, EVNT_INIT) == 0
  {
    hide RaiseIf, Times, HasFlag, ExceedsDelay;
    var q0 := q.(deq := q.deq - 1);
    assert Order(q0) == Order(q);
    hide Reverse;
    var q1 := Uncount(Unlink(q0));
    NoneRaised(EVNT_INIT);
    RaiseIfOther(Effect(q1, []), q0.count == 1, EVNT_EMPTY, EVNT_INIT);
    RaiseIfOther(RaiseIf(Effect(q1, []), q0.count == 1, EVNT_EMPTY), Expired(q1, First(q0), now), EVNT_TIME, EVNT_INIT);
  }

  // ------------------------------------------------------------ the invariant of a run

  ghost predicate Conserved(h: History) {
    multiset(h.added) == multiset(h.delivered) + multiset(h.lost) + multiset(Order(h.q))
  }

  ghost predicate InitOnce(h: History) {
    Times(h.raised, EVNT_INIT) <= if HasFlag(h.q.flags, ACTIVATED) then 1 else 0
  }

  ghost predicate Inv(h: History) {
    Consistent(h.q) && h.q.enq >= 0 && Conserved(h) && InitOnce(h)
  }

  lemma Split(s: seq<Item>, k: nat)
    requires k <= |s|
    ensures multiset(s) == multiset(s[..k]) + multiset(s[k..])
  {
    assert s == s[..k] + s[k..];
  }

  lemma AddInv(h: History, clock: nat -> Time, item: Item)
    requires Inv(h) && h.q.enq > 0
    ensures Inv(Step(h, clock, AddItem(item))) && Step(h, clock, AddItem(item)).q.depth == h.q.depth
  {
    hide Add, HasFlag, GoesOnStack, Order, Times;
    var s := Add(h.q, item, clock(h.tick + 1));
    AddKeepsOrder(h.q, item, clock(h.tick + 1));
    AddInits(h.q, item, clock(h.tick + 1));
    TimesAdd(h.raised, s.raised, EVNT_INIT);
    AddFields(h.q, item, clock(h.tick + 1));
    assert multiset(h.added + [item]) == multiset(h.added) + multiset{item};
    assert multiset([item] + Order(h.q)) == multiset(Order(h.q) + [item]) == multiset(Order(h.q)) + multiset{item};
  }

  /** A list taken apart into what was dropped, the item delivered, and the rest. */
  lemma RemoveBags(added: seq<Item>, delivered: seq<Item>, lost: seq<Item>, order: seq<Item>, k: nat, found: bool)
    requires multiset(added) == multiset(delivered) + multiset(lost) + multiset(order)
    requires k <= |order| && (found ==> k < |order|) && (!found ==> k == |order|)
    ensures found ==>
              multiset(added) ==
                multiset(delivered + [order[k]]) + multiset(lost + order[..k]) + multiset(order[k + 1..])
    ensures !found ==> multiset(added) == multiset(delivered) + multiset(lost + order[..k])
  {
    Split(order, k);
    if found {
      assert order[k..] == [order[k]] + order[k + 1..];
    }
  }

  lemma RemoveConserves(h: History, clock: nat -> Time)
    requires Consistent(h.q) && Conserved(h)
    ensures Conserved(Step(h, clock, RemoveItem)) && Consistent(Step(h, clock, RemoveItem).q)
    ensures Step(h, clock, RemoveItem).q.depth == h.q.depth && |Order(Step(h, clock, RemoveItem).q)| <= |Order(h.q)|
    ensures HasFlag(Step(h, clock, RemoveItem).q.flags, ACTIVATED) <==> HasFlag(h.q.flags, ACTIVATED)
  {
    hide Remove, HasFlag, Order, Verdict;
    var r := Remove(h.q, clock, h.tick);
    var k := RemoveReturnsFirstFresh(h.q, clock, h.tick);
    RemoveBags(h.added, h.delivered, h.lost, Order(h.q), k, r.found);
  }

  lemma RemoveInv(h: History, clock: nat -> Time)
    requires Inv(h)
    ensures Inv(Step(h, clock, RemoveItem)) && Step(h, clock, RemoveItem).q.depth == h.q.depth
  {
    hide Remove, HasFlag, Order, Times, Conserved;
    RemoveConserves(h, clock);
    RemoveNoInit(h.q, clock, h.tick);
    TimesAdd(h.raised, Remove(h.q, clock, h.tick).raised, EVNT_INIT);
    OrderSize(h.q);
    OrderSize(Step(h, clock, RemoveItem).q);
  }

  lemma OrderBag(q: Queue)
    ensures multiset(Order(q)) == multiset(Reverse(q.lifo)) + multiset(q.fifo)
  {
    hide Reverse;
  }

  lemma CleanBags(h: History, q': Queue, k: nat)
    requires Conserved(h) && k <= |h.q.fifo| && q'.fifo == h.q.fifo[k..] && q'.lifo == h.q.lifo
    ensures multiset(h.added) == multiset(h.delivered) + multiset(h.lost + h.q.fifo[..k]) + multiset(Order(q'))
  {
    hide Order;
    Split(h.q.fifo, k);
    OrderBag(h.q);
    OrderBag(q');
    hide Reverse;
    assert multiset(h.lost + h.q.fifo[..k]) == multiset(h.lost) + multiset(h.q.fifo[..k]);
  }

  lemma CleanInv(h: History, clock: nat -> Time, limit: Time)
    requires Inv(h)
    ensures Inv(Step(h, clock, CleanItems(limit))) && Step(h, clock, CleanItems(limit)).q.depth == h.q.depth
  {
    hide Clean, HasFlag, Times, Order, ExceedsLimit, Conserved;
    var q' := Clean(h.q, limit, clock, h.tick).0;
    var k := CleanTakesExpired(h.q, limit, clock, h.tick);
    CleanBags(h, q', k);
    var h' := Step(h, clock, CleanItems(limit));
    assert h'.lost == h.lost + h.q.fifo[..k];
    BagsUnfold(h');
  }

  lemma BagsUnfold(h: History)
    ensures Conserved(h) <==> multiset(h.added) == multiset(h.delivered) + multiset(h.lost) + multiset(Order(h.q))
  {
  }

  lemma IdleInv(h: History, tick: nat)
    requires Inv(h)
    ensures Inv(h.(tick := tick))
  {
    hide HasFlag, Order, Times;
  }

  lemma TakeEventInv(h: History, clock: nat -> Time)
    requires Inv(h)
    ensures Inv(Step(h, clock, TakeEvent)) && Step(h, clock, TakeEvent).q == h.q
  {
    hide HasFlag, Order, Times;
  }

  lemma StepInv(h: History, clock: nat -> Time, op: Op)
    requires Inv(h)
    ensures Inv(Step(h, clock, op)) && Step(h, clock, op).q.depth == h.q.depth
  {
    hide Inv, Add, Remove, Clean, HasFlag, SetFlags, ClearFlags;
    match op
    case AddItem(item) =>
      if h.q.enq > 0 {
        AddInv(h, clock, item);
      }
    case AddRefused =>
      IdleInv(h, h.tick + 1);
    case RemoveItem =>
      RemoveInv(h, clock);
    case CleanItems(limit) =>
      CleanInv(h, clock, limit);
    case TakeEvent =>
      TakeEventInv(h, clock);
    case SetLevel(_) =>
      SettingInv(h, Step(h, clock, op));
    case SetLimit(_) =>
      SettingInv(h, Step(h, clock, op));
    case SetTarget(_) =>
      FlagsOf(h.q.flags, ACTIVATED, DISCARD_EXPIRED);
      SettingInv(h, Step(h, clock, op));
    case TurnOn(mask) =>
      if Turns(mask) {
        FlagsOf(h.q.flags, ACTIVATED, mask);
        SettingInv(h, Step(h, clock, op));
      }
    case TurnOff(mask) =>
      if Turns(mask) {
        FlagsOf(h.q.flags, ACTIVATED, mask);
        SettingInv(h, Step(h, clock, op));
      }
  }

  lemma SettingInv(h: History, h': History)
    requires Inv(h) && h' == h.(q := h'.q)
    requires h'.q == h.q.(flags := h'.q.flags, level := h'.q.level, limit := h'.q.limit, target := h'.q.target)
    requires HasFlag(h'.q.flags, ACTIVATED) <==> HasFlag(h.q.flags, ACTIVATED)
    ensures Inv(h')
  {
    hide HasFlag, Times;
    SameOrder(h.q, h'.q);
  }

  lemma {:induction false} RunInv(depth: nat, clock: nat -> Time, ops: seq<Op>)
    ensures Inv(Run(New(depth), clock, ops)) && Run(New(depth), clock, ops).q.depth == depth
  {
    if ops == [] {
      assert Order(New(depth).q) == [];
    } else {
      RunInv(depth, clock, ops[..|ops| - 1]);
      hide Inv, Step;
      StepInv(Run(New(depth), clock, ops[..|ops| - 1]), clock, ops[|ops| - 1]);
    }
  }

  /**
   * Over every run: every item ever added has been delivered, discarded or
   * cleaned exactly once, or is still in the queue; the counters agree with the
   * contents and never leave their bounds; and INIT has been raised at most once.
   */
  lemma NothingLostNothingTwice(depth: nat, clock: nat -> Time, ops: seq<Op>)
    ensures var h := Run(New(depth), clock, ops);
            && multiset(h.added) == multiset(h.delivered) + multiset(h.lost) + multiset(Order(h.q))
            && h.q.count == h.q.deq == |Order(h.q)| && h.q.enq == depth - h.q.count && 0 <= h.q.count <= depth
            && Times(h.raised, EVNT_INIT) <= 1
  {
    RunInv(depth, clock, ops);
    hide Order, Run, Times, HasFlag;
    OrderSize(Run(New(depth), clock, ops).q);
  }

  // ------------------------------------------------------------ plain FIFO

  /** Neither the adaptive LIFO nor the discard of expired items is turned on, and nothing is cleaned. */
  ghost predicate Plain(ops: seq<Op>) {
    forall i :: 0 <= i < |ops| ==>
      !ops[i].CleanItems? && !ops[i].SetTarget? &&
      (ops[i].TurnOn? ==> ops[i].mask != LIFO_ON_LEVEL && ops[i].mask != DISCARD_EXPIRED)
  }

  ghost predicate FifoSoFar(h: History) {
    h.delivered + Order(h.q) == h.added && !Discards(h.q) && !HasFlag(h.q.flags, LIFO_ON_LEVEL)
  }

  lemma AddLifoFlag(q: Queue, item: Item, now: Time)
    ensures (HasFlag(Add(q, item, now).q.flags, LIFO_ON_LEVEL) <==> HasFlag(q.flags, LIFO_ON_LEVEL)) &&
            (Discards(Add(q, item, now).q) <==> Discards(q))
  {
    hide RaiseIf, HasFlag, WithFlag, GoesOnStack;
    var q0 := Link(q.(enq := q.enq - 1), item);
    var q1 := if q.count == 0 then TouchEmpty(q0, now) else q0;
    var s1 := Effect(q1.(flags := WithFlag(q1.flags, ACTIVATED)), []);
    FlagsApart(q1.flags, LIFO_ON_LEVEL, ACTIVATED);
    FlagsApart(q1.flags, DISCARD_EXPIRED, ACTIVATED);
    var s2 := RaiseIf(s1, !HasFlag(q1.flags, ACTIVATED), EVNT_INIT);
    var s3 := RaiseIf(s2, q.count == 0, EVNT_NONEMPTY);
    RaiseIfEffect(s1, !HasFlag(q1.flags, ACTIVATED), EVNT_INIT);
    RaiseIfEffect(s2, q.count == 0, EVNT_NONEMPTY);
    RaiseIfEffect(s3, q.count == q1.depth - 1, EVNT_LIMIT);
    var s4 := Enqueue(q.(enq := q.enq - 1), item, now);
    var s5 := s4.(q := s4.q.(deq := s4.q.deq + 1));
    RaiseIfEffect(s5, s5.q.level > 0 && s5.q.count >= s5.q.level, EVNT_LEVEL);
  }

  lemma PlainRemove(q: Queue, clock: nat -> Time, tick: nat)
    requires Consistent(q) && !Discards(q) && !HasFlag(q.flags, LIFO_ON_LEVEL)
    ensures var r := Remove(q, clock, tick);
            && (if r.found then Order(q) == [r.item] + Order(r.q) else Order(q) == Order(r.q))
            && !Discards(r.q) && !HasFlag(r.q.flags, LIFO_ON_LEVEL)
  {
    if q.deq > 0 && Order(q) != [] {
      hide HasFlag, Order, Serve;
      ServeFields(q, clock(tick));
      ServeLifoFlag(q, clock(tick));
      assert !FirstExpired(q, clock(tick));
    }
  }

  lemma ServeLifoFlag(q: Queue, now: Time)
    requires Order(q) != []
    ensures HasFlag(Serve(q, now).q.flags, LIFO_ON_LEVEL) <==> HasFlag(q.flags, LIFO_ON_LEVEL)
  {
    hide RaiseIf, HasFlag, ExceedsDelay;
    var q0 := q.(deq := q.deq - 1);
    assert Order(q0) == Order(q);
    hide Reverse;
    var s1 := Effect(Uncount(Unlink(q0)), []);
    RaiseIfEffect(s1, q0.count == 1, EVNT_EMPTY);
    RaiseIfEffect(RaiseIf(s1, q0.count == 1, EVNT_EMPTY), Expired(s1.q, First(q0), now), EVNT_TIME);
  }

  lemma PlainAdd(h: History, clock: nat -> Time, item: Item)
    requires Inv(h) && FifoSoFar(h)
    ensures FifoSoFar(Step(h, clock, AddItem(item)))
  {
    hide Order, Add, Conserved, InitOnce;
    AddKeepsOrder(h.q, item, clock(h.tick + 1));
    AddLifoFlag(h.q, item, clock(h.tick + 1));
    hide HasFlag;
    var s := Add(h.q, item, clock(h.tick + 1));
    if h.q.enq > 0 {
      assert h.delivered + (Order(h.q) + [item]) == (h.delivered + Order(h.q)) + [item];
    }
  }

  lemma PlainRemoval(h: History, clock: nat -> Time)
    requires Inv(h) && FifoSoFar(h)
    ensures FifoSoFar(Step(h, clock, RemoveItem))
  {
    hide Order, Remove, HasFlag, Conserved, InitOnce;
    PlainRemove(h.q, clock, h.tick);
    var r := Remove(h.q, clock, h.tick);
    if r.found {
      assert h.delivered + ([r.item] + Order(r.q)) == (h.delivered + [r.item]) + Order(r.q);
    }
  }

  lemma PlainSetting(h: History, h': History)
    requires FifoSoFar(h) && h' == h.(q := h'.q) && h'.q.fifo == h.q.fifo && h'.q.lifo == h.q.lifo
    requires (HasFlag(h'.q.flags, LIFO_ON_LEVEL) ==> HasFlag(h.q.flags, LIFO_ON_LEVEL))
    requires (Discards(h'.q) ==> Discards(h.q))
    ensures FifoSoFar(h')
  {
    hide HasFlag;
    SameOrder(h.q, h'.q);
  }

  lemma PlainStep(h: History, clock: nat -> Time, op: Op)
    requires Inv(h) && FifoSoFar(h) && Plain([op])
    ensures FifoSoFar(Step(h, clock, op))
  {
    assert [op][0] == op;
    hide HasFlag, Order, Add, Remove, SetFlags, ClearFlags, Inv;
    match op
    case AddItem(item) =>
      PlainAdd(h, clock, item);
    case AddRefused =>
    case RemoveItem =>
      PlainRemoval(h, clock);
    case TakeEvent =>
    case TurnOn(mask) =>
      if Turns(mask) {
        FlagsOf(h.q.flags, LIFO_ON_LEVEL, mask);
        FlagsOf(h.q.flags, DISCARD_EXPIRED, mask);
        PlainSetting(h, Step(h, clock, op));
      }
    case TurnOff(mask) =>
      if Turns(mask) {
        FlagsOf(h.q.flags, LIFO_ON_LEVEL, mask);
        FlagsOf(h.q.flags, DISCARD_EXPIRED, mask);
        PlainSetting(h, Step(h, clock, op));
      }
    case SetLevel(_) =>
      PlainSetting(h, Step(h, clock, op));
    case SetLimit(_) =>
      PlainSetting(h, Step(h, clock, op));
  }

  /**
   * Without adaptive LIFO, discard and clean, items come out in the order in which
   * they went in, and none is missing.
   */
  lemma {:induction false} FirstInFirstOut(depth: nat, clock: nat -> Time, ops: seq<Op>)
    requires Plain(ops)
    ensures var h := Run(New(depth), clock, ops); h.delivered + Order(h.q) == h.added
    ensures FifoSoFar(Run(New(depth), clock, ops))
  {
    if ops == [] {
      assert Order(New(depth).q) == [];
    } else {
      var k := |ops| - 1;
      FirstInFirstOut(depth, clock, ops[..k]);
      RunInv(depth, clock, ops[..k]);
      hide Inv, Step, FifoSoFar;
      PlainStep(Run(New(depth), clock, ops[..k]), clock, ops[k]);
      FifoUnfolded(Step(Run(New(depth), clock, ops[..k]), clock, ops[k]));
    }
  }

  lemma FifoUnfolded(h: History)
    requires FifoSoFar(h)
    ensures h.delivered + Order(h.q) == h.added
  {
  }

  // ------------------------------------------------------------ events and subscriptions

  /** How often a subscription to e was made in the run: by a call that turned its flag on. */
  ghost function Made(depth: nat, clock: nat -> Time, ops: seq<Op>, e: int): nat {
    if ops == [] then 0 else
    var k := |ops| - 1;
    Made(depth, clock, ops[..k], e) + MadeBy(Run(New(depth), clock, ops[..k]), ops[k], e)
  }

  ghost function MadeBy(h: History, op: Op, e: int): nat {
    if op.TurnOn? && Turns(op.mask) && Among(EventMask(e), op.mask) && Common(h.q.flags, op.mask) == 0 then 1 else 0
  }

  /** How often a subscription to e that was in force was withdrawn. */
  ghost function Withdrawn(depth: nat, clock: nat -> Time, ops: seq<Op>, e: int): nat {
    if ops == [] then 0 else
    var k := |ops| - 1;
    Withdrawn(depth, clock, ops[..k], e) + WithdrawnBy(Run(New(depth), clock, ops[..k]), ops[k], e)
  }

  ghost function WithdrawnBy(h: History, op: Op, e: int): nat {
    if op.TurnOff? && Turns(op.mask) && Among(EventMask(e), op.mask) && Subscribed(h.q, e) then 1 else 0
  }

  /** One step: what is raised, in force and withdrawn grows by what is made. */
  ghost predicate Balances(h: History, h': History, op: Op, e: int) {
    Times(h'.raised, e) + Subscriptions(h'.q, e) + WithdrawnBy(h, op, e) == Times(h.raised, e) + Subscriptions(h.q, e) +
      MadeBy(h, op, e)
  }

  lemma FlagsBalance(h: History, clock: nat -> Time, op: Op, e: int)
    requires IsEvent(e) && (op.TurnOn? || op.TurnOff?)
    ensures Balances(h, Step(h, clock, op), op, e)
  {
    EventMasks(e, e);
    hide HasFlag, SetFlags, ClearFlags, EventMask, Times, Common;
    if Turns(op.mask) {
      FlagsOf(h.q.flags, EventMask(e), op.mask);
      if MadeBy(h, op, e) == 1 {
        NotInForce(h, op.mask, e);
      }
    }
  }

  /** A flag is off if none of those it is among is on. */
  lemma NotInForce(h: History, n: int, e: int)
    requires IsEvent(e) && IsFlags(n) && Among(EventMask(e), n) && Common(h.q.flags, n) == 0
    ensures !Subscribed(h.q, e)
  {
    EventMasks(e, e);
    FlagsOf(h.q.flags, EventMask(e), n);
  }

  lemma StepBalances(h: History, clock: nat -> Time, op: Op, e: int)
    requires IsEvent(e)
    ensures Balances(h, Step(h, clock, op), op, e)
  {
    hide HasFlag, SetFlags, ClearFlags, Times, Subscriptions, Add, Remove, Clean;
    match op
    case AddItem(item) =>
      if h.q.enq > 0 {
        AddRaisesOnce(h.q, item, clock(h.tick + 1), e);
        TimesAdd(h.raised, Add(h.q, item, clock(h.tick + 1)).raised, e);
      }
    case AddRefused =>
    case RemoveItem =>
      RemoveRaisesOnce(h.q, clock, h.tick, e);
      TimesAdd(h.raised, Remove(h.q, clock, h.tick).raised, e);
    case CleanItems(limit) =>
      CleanFlags(h.q, limit, clock, h.tick);
      SameFlags(h.q, Clean(h.q, limit, clock, h.tick).0, e);
    case TakeEvent =>
    case SetLevel(level) =>
      SameFlags(h.q, h.q.(level := level), e);
    case SetLimit(limit) =>
      SameFlags(h.q, h.q.(limit := limit), e);
    case SetTarget(_) =>
      DiscardBalances(h, clock, op, e);
    case TurnOn(_) =>
      FlagsBalance(h, clock, op, e);
    case TurnOff(_) =>
      FlagsBalance(h, clock, op, e);
  }

  lemma {:induction false} CleanFlags(q: Queue, limit: Time, clock: nat -> Time, tick: nat)
    ensures Clean(q, limit, clock, tick).0.flags == q.flags
    decreases |q.fifo|
  {
    hide ExceedsLimit, Stamp;
    if q.deq > 0 && q.fifo != [] && ExceedsLimit(Stamp(q.fifo[0]), limit, clock(tick)) {
      CleanFlags(q.(fifo := q.fifo[1..], count := q.count - 1, deq := q.deq - 1, enq := q.enq + 1), limit, clock,
                 tick + 1);
    }
  }

  lemma DiscardBalances(h: History, clock: nat -> Time, op: Op, e: int)
    requires IsEvent(e) && op.SetTarget?
    ensures Balances(h, Step(h, clock, op), op, e)
  {
    EventMasks(e, e);
    hide HasFlag, SetFlags, EventMask, Times;
    FlagsOf(h.q.flags, EventMask(e), DISCARD_EXPIRED);
  }

  lemma {:induction false} RunBalances(depth: nat, clock: nat -> Time, ops: seq<Op>, e: int)
    requires IsEvent(e)
    ensures var h := Run(New(depth), clock, ops);
            && Times(h.raised, e) + Subscriptions(h.q, e) + Withdrawn(depth, clock, ops, e) ==
                 Made(depth, clock, ops, e)
            && h.raised == h.seen + h.pending
  {
    if ops == [] {
      NoneSubscribed(depth, e);
    } else {
      hide Step, Times, Subscriptions, MadeBy, WithdrawnBy, New;
      var k := |ops| - 1;
      RunBalances(depth, clock, ops[..k], e);
      var h := Run(New(depth), clock, ops[..k]);
      StepBalances(h, clock, ops[k], e);
      StepEvents(h, clock, ops[k]);
    }
  }

  lemma NoneSubscribed(depth: nat, e: int)
    ensures Times(New(depth).raised, e) == 0 && Subscriptions(New(depth).q, e) == 0
  {
  }

  lemma StepEvents(h: History, clock: nat -> Time, op: Op)
    requires h.raised == h.seen + h.pending
    ensures var h' := Step(h, clock, op); h'.raised == h'.seen + h'.pending
  {
    hide Add, Remove, Clean, SetFlags, ClearFlags;
    if op.TakeEvent? && h.pending != [] {
      assert h.pending == [h.pending[0]] + h.pending[1..];
    }
  }

  /**
   * Over every run, each subscription to an event ever made has been used up by
   * one event raised, withdrawn, or is in force; and the events raised are those
   * delivered, in that order, followed by those pending.
   */
  lemma OneEventForOneSubscription(depth: nat, clock: nat -> Time, ops: seq<Op>, e: int)
    requires IsEvent(e)
    ensures var h := Run(New(depth), clock, ops);
            && Times(h.seen, e) + Times(h.pending, e) + Subscriptions(h.q, e) + Withdrawn(depth, clock, ops, e) ==
                 Made(depth, clock, ops, e)
            && h.raised == h.seen + h.pending && Subscriptions(h.q, e) <= 1
  {
    RunBalances(depth, clock, ops, e);
    hide Run, Times;
    var h := Run(New(depth), clock, ops);
    TimesAdd(h.seen, h.pending, e);
    AtMostOneSubscription(h.q, e);
  }

  // ------------------------------------------------------------ what is lost

  /** The operation takes the item because it has expired: by the verdict of a remove, or by the limit of a clean. */
  ghost predicate Expires(h: History, clock: nat -> Time, op: Op, x: Item) {
    match op
    case RemoveItem => exists j :: 0 <= j < |Order(h.q)| && Order(h.q)[j] == x && Verdict(h.q, j, clock, h.tick)
    case CleanItems(limit) =>
      exists j :: 0 <= j < |h.q.fifo| && h.q.fifo[j] == x && ExceedsLimit(Stamp(h.q.fifo[j]), limit, clock(h.tick + j))
    case _ => false
  }

  /** What a step loses has expired. */
  ghost predicate LosesExpired(h: History, clock: nat -> Time, op: Op) {
    var h' := Step(h, clock, op);
    h.lost <= h'.lost && forall i :: |h.lost| <= i < |h'.lost| ==> Expires(h, clock, op, h'.lost[i])
  }

  lemma RemoveLoses(h: History, clock: nat -> Time)
    requires Consistent(h.q)
    ensures LosesExpired(h, clock, RemoveItem)
  {
    hide Remove, Order, Verdict, HasFlag;
    var k := RemoveReturnsFirstFresh(h.q, clock, h.tick);
    var h' := Step(h, clock, RemoveItem);
    forall i | |h.lost| <= i < |h'.lost| ensures Expires(h, clock, RemoveItem, h'.lost[i]) {
      var j := i - |h.lost|;
      assert h'.lost[i] == Order(h.q)[j] && Verdict(h.q, j, clock, h.tick);
    }
  }

  lemma CleanLoses(h: History, clock: nat -> Time, limit: Time)
    requires Consistent(h.q)
    ensures LosesExpired(h, clock, CleanItems(limit))
  {
    hide Clean, Stamp, ExceedsLimit;
    var k := CleanTakesExpired(h.q, limit, clock, h.tick);
    var h' := Step(h, clock, CleanItems(limit));
    forall i | |h.lost| <= i < |h'.lost| ensures Expires(h, clock, CleanItems(limit), h'.lost[i]) {
      var j := i - |h.lost|;
      assert h'.lost[i] == h.q.fifo[j];
    }
  }

  lemma StepLoses(h: History, clock: nat -> Time, op: Op)
    requires Consistent(h.q)
    ensures LosesExpired(h, clock, op)
  {
    if op.RemoveItem? {
      RemoveLoses(h, clock);
    } else if op.CleanItems? {
      CleanLoses(h, clock, op.limit);
    } else {
      hide Add, SetFlags, ClearFlags;
    }
  }

  /** The item was lost in the run: by some operation, which found it expired. */
  ghost predicate LostExpired(depth: nat, clock: nat -> Time, ops: seq<Op>, x: Item) {
    exists k :: 0 <= k < |ops| && Expires(Run(New(depth), clock, ops[..k]), clock, ops[k], x)
  }

  lemma LostEarlier(depth: nat, clock: nat -> Time, ops: seq<Op>, x: Item)
    requires ops != [] && LostExpired(depth, clock, ops[..|ops| - 1], x)
    ensures LostExpired(depth, clock, ops, x)
  {
    hide Expires, Run;
    var gs := ops[..|ops| - 1];
    var k :| 0 <= k < |gs| && Expires(Run(New(depth), clock, gs[..k]), clock, gs[k], x);
    assert gs[..k] == ops[..k] && gs[k] == ops[k];
  }

  /** Over every run, an item is lost only if it had expired when it was taken. */
  lemma {:induction false} OnlyExpiredLost(depth: nat, clock: nat -> Time, ops: seq<Op>)
    ensures forall x :: x in Run(New(depth), clock, ops).lost ==> LostExpired(depth, clock, ops, x)
  {
    if ops != [] {
      var k := |ops| - 1;
      OnlyExpiredLost(depth, clock, ops[..k]);
      RunInv(depth, clock, ops[..k]);
      var h := Run(New(depth), clock, ops[..k]);
      hide Step, Expires, Conserved, InitOnce, Consistent;
      StepLoses(h, clock, ops[k]);
      var h' := Step(h, clock, ops[k]);
      forall x | x in h'.lost ensures LostExpired(depth, clock, ops, x) {
        var i :| 0 <= i < |h'.lost| && h'.lost[i] == x;
        if i < |h.lost| {
          assert x == h.lost[i];
          LostEarlier(depth, clock, ops, x);
        }
      }
    }
  }

  /** Discard is never turned on, and nothing is cleaned; adaptive LIFO may be on. */
  ghost predicate Keeping(ops: seq<Op>) {
    forall i :: 0 <= i < |ops| ==>
      !ops[i].CleanItems? && !ops[i].SetTarget? && !(ops[i].TurnOn? && ops[i].mask == DISCARD_EXPIRED)
  }

  lemma TurnKeeps(h: History, clock: nat -> Time, op: Op)
    requires !Discards(h.q) && (op.TurnOn? || op.TurnOff?) && (op.TurnOn? ==> op.mask != DISCARD_EXPIRED)
    ensures !Discards(Step(h, clock, op).q) && Step(h, clock, op).lost == h.lost
  {
    hide HasFlag, SetFlags, ClearFlags;
    if Turns(op.mask) {
      FlagsOf(h.q.flags, DISCARD_EXPIRED, op.mask);
    }
  }

  lemma AddKeeps(h: History, clock: nat -> Time, item: Item)
    requires !Discards(h.q)
    ensures !Discards(Step(h, clock, AddItem(item)).q) && Step(h, clock, AddItem(item)).lost == h.lost
  {
    hide HasFlag, Add;
    AddLifoFlag(h.q, item, clock(h.tick + 1));
  }

  lemma StepKeeps(h: History, clock: nat -> Time, op: Op)
    requires Consistent(h.q) && !Discards(h.q) && h.lost == [] && Keeping([op])
    ensures !Discards(Step(h, clock, op).q) && Step(h, clock, op).lost == []
  {
    assert [op][0] == op;
    hide HasFlag, SetFlags, ClearFlags, Remove, Order;
    if op.AddItem? {
      hide Step, Discards;
      AddKeeps(h, clock, op.item);
    } else if op.TurnOn? || op.TurnOff? {
      hide Step, Discards;
      TurnKeeps(h, clock, op);
    } else if op.RemoveItem? {
      KeepingRemove(h.q, clock, h.tick);
    }
  }

  lemma KeepingRemove(q: Queue, clock: nat -> Time, tick: nat)
    requires Consistent(q) && !Discards(q)
    ensures Remove(q, clock, tick).dropped == [] && !Discards(Remove(q, clock, tick).q)
  {
    if q.deq > 0 && Order(q) != [] {
      hide HasFlag, Order, Serve;
      ServeFields(q, clock(tick));
      assert !FirstExpired(q, clock(tick));
    }
  }

  /** Without discard and clean nothing is lost, with adaptive LIFO on or off. */
  lemma {:induction false} NothingLost(depth: nat, clock: nat -> Time, ops: seq<Op>)
    requires Keeping(ops)
    ensures Run(New(depth), clock, ops).lost == [] && !Discards(Run(New(depth), clock, ops).q)
  {
    if ops != [] {
      var k := |ops| - 1;
      NothingLost(depth, clock, ops[..k]);
      RunInv(depth, clock, ops[..k]);
      hide Step, Discards, Conserved, InitOnce, Consistent, New;
      StepKeeps(Run(New(depth), clock, ops[..k]), clock, ops[k]);
    }
  }
}
