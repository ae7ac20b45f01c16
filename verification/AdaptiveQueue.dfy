/**
 * The queue as its callers see it: a FIFO, a LIFO stack for times of overload,
 * counters, limits, and events.  Each operation is a function of the state and
 * of the readings of the clock; what it does to memory is in SharedQueue.
 */
module AdaptiveQueue {
  import opened FlagBits
  import opened Timespec

  const ACTIVATED := 1
  const DISCARD_EXPIRED := 2
  const LIFO_ON_LEVEL := 4

  const EVNT_INIT := 1
  const EVNT_LIMIT := 2
  const EVNT_TIME := 3
  const EVNT_LEVEL := 4
  const EVNT_EMPTY := 5
  const EVNT_NONEMPTY := 6

  /** An item: the words of its data block behind the size; the first two are the time it was added. */
  type Item = seq<int>

  /** The stack is listed from the bottom.  `deq` and `enq` are the values of the two semaphores. */
  datatype Queue = Queue(
    fifo: seq<Item>, lifo: seq<Item>,
    count: int, deq: int, enq: int, flags: int, level: int, depth: int,
    stamp: Time, limit: Time, target: Time, empty: Time)

  /** A state, and the events raised on the way to it. */
  datatype Effect = Effect(q: Queue, raised: seq<int>)

  function Stamp(item: Item): Time {
    if |item| >= 2 then Time(item[0], item[1]) else ZERO
  }

  // ------------------------------------------------------------ flags and events

  /** get_event_flag, for a single event. */
  function EventMask(event: int): int {
    if event == EVNT_INIT then 8
    else if event == EVNT_LIMIT then 16
    else if event == EVNT_TIME then 32
    else if event == EVNT_LEVEL then 64
    else if event == EVNT_EMPTY then 128
    else if event == EVNT_NONEMPTY then 256
    else 0
  }

  /** get_event_flag: SQ_EVNT_ALL, which is 0, stands for all six. */
  function EventFlags(event: int): int {
    if event == 0 then EVENT_FLAGS else EventMask(event)
  }

  predicate Subscribed(q: Queue, event: int) {
    HasFlag(q.flags, EventMask(event))
  }

  /** add_event: a subscribed event uses up its subscription. */
  function Raise(s: Effect, event: int): Effect {
    if Subscribed(s.q, event) then Effect(s.q.(flags := WithoutFlag(s.q.flags, EventMask(event))), s.raised + [event])
      else s
  }

  function RaiseIf(s: Effect, when: bool, event: int): Effect {
    if when then Raise(s, event) else s
  }

  // ------------------------------------------------------------ adding

  /** The choice in enq_data. */
  predicate GoesOnStack(q: Queue) {
    HasFlag(q.flags, LIFO_ON_LEVEL) && q.count >= q.level
  }

  function Link(q: Queue, item: Item): Queue {
    (if GoesOnStack(q) then q.(lifo := q.lifo + [item]) else q.(fifo := q.fifo + [item])).(count := q.count + 1)
  }

  /** update_empty_timestamp. */
  function TouchEmpty(q: Queue, now: Time): Queue {
    if Less(q.empty, now) then q.(empty := now) else q
  }

  /** post_process_enq; `count` is the number of items before, `stamp` the time of the new one. */
  function AfterEnq(q: Queue, count: int, stamp: Time, now: Time): Effect {
    var q1 := if count == 0 then TouchEmpty(q, now) else q;
    var s1 := Effect(q1.(flags := WithFlag(q1.flags, ACTIVATED)), []);
    var s2 := RaiseIf(s1, !HasFlag(q1.flags, ACTIVATED), EVNT_INIT);
    var s3 := RaiseIf(s2, count == 0, EVNT_NONEMPTY);
    var s4 := RaiseIf(s3, count == q.depth - 1, EVNT_LIMIT);
    s4.(q := s4.q.(stamp := stamp))
  }

  function Enqueue(q: Queue, item: Item, now: Time): Effect {
    AfterEnq(Link(q, item), q.count, Stamp(item), now)
  }

  /** check_for_level_event. */
  function CheckLevel(s: Effect): Effect {
    RaiseIf(s, s.q.level > 0 && s.q.count >= s.q.level, EVNT_LEVEL)
  }

  /** shr_q_add of an item that memory has been found for. */
  function Add(q: Queue, item: Item, now: Time): Effect {
    var s := Enqueue(q.(enq := q.enq - 1), item, now);
    CheckLevel(s.(q := s.q.(deq := s.q.deq + 1)))
  }

  // ------------------------------------------------------------ removing

  function Reverse(s: seq<Item>): (r: seq<Item>)
    ensures |r| == |s| && forall i :: 0 <= i < |s| ==> r[i] == s[|s| - 1 - i]
  {
    if s == [] then [] else [s[|s| - 1]] + Reverse(s[..|s| - 1])
  }

  /** The order in which removers get the items. */
  function Order(q: Queue): seq<Item> {
    Reverse(q.lifo) + q.fifo
  }

  /** The item deq takes, and the queue without it. */
  function First(q: Queue): Item
    requires Order(q) != []
  {
    if q.lifo != [] then q.lifo[|q.lifo| - 1] else q.fifo[0]
  }

  function Unlink(q: Queue): Queue
    requires Order(q) != []
  {
    if q.lifo != [] then q.(lifo := q.lifo[..|q.lifo| - 1]) else q.(fifo := q.fifo[1..])
  }

  predicate Discards(q: Queue) {
    HasFlag(q.flags, DISCARD_EXPIRED)
  }

  /** post_process_deq up to the verdict on the item: COUNT, and the time of emptiness. */
  function Uncount(q: Queue): Queue {
    if CodelActive(q.limit, q.target) && q.count == 1 then q.(count := 0, empty := ZERO) else q.(count := q.count - 1)
  }

  predicate Expired(q: Queue, item: Item, now: Time) {
    Discards(q) && ExceedsDelay(Stamp(item), q.limit, q.target, q.empty, now)
  }

  /** deq of the first item; the verdict says whether it had expired. */
  function Take(q: Queue, now: Time): Effect
    requires Order(q) != []
  {
    var q1 := Uncount(Unlink(q));
    RaiseIf(RaiseIf(Effect(q1, []), q.count == 1, EVNT_EMPTY), Expired(q1, First(q), now), EVNT_TIME)
  }

  /** What shr_q_remove returns, the items it discarded, the events it raised, and how far the clock has been read. */
  datatype Result = Result(found: bool, item: Item, dropped: seq<Item>, q: Queue, raised: seq<int>, tick: nat)

  /** The clock is read once for each item taken while discard is on. */
  function Reads(q: Queue): nat {
    if Discards(q) then 1 else 0
  }

  /** Whether the first item has expired when it is taken at `now`. */
  predicate FirstExpired(q: Queue, now: Time)
    requires Order(q) != []
  {
    Expired(Uncount(Unlink(q)), First(q), now)
  }

  /** One round of shr_q_remove: a token of DEQ_SEM, the first item, a token of ENQ_SEM. */
  function Serve(q: Queue, now: Time): Effect
    requires Order(q) != []
  {
    var s := Take(q.(deq := q.deq - 1), now);
    s.(q := s.q.(enq := s.q.enq + 1))
  }

  /** shr_q_remove: takes items until one has not expired. */
  function Remove(q: Queue, clock: nat -> Time, tick: nat): Result
    decreases |q.lifo| + |q.fifo|
  {
    if q.deq <= 0 || Order(q) == [] then Result(false, [], [], q, [], tick) else
    var s := Serve(q, clock(tick));
    if FirstExpired(q, clock(tick)) then
      var r := Remove(s.q, clock, tick + Reads(q));
      r.(dropped := [First(q)] + r.dropped, raised := s.raised + r.raised)
    else
      Result(true, First(q), [], s.q, s.raised, tick + Reads(q))
  }

  // ------------------------------------------------------------ cleaning

  /** shr_q_clean: takes expired items off the front of the FIFO. */
  function Clean(q: Queue, limit: Time, clock: nat -> Time, tick: nat): (Queue, nat)
    decreases |q.fifo|
  {
    if q.deq <= 0 || q.fifo == [] then (q, tick) else
    if !ExceedsLimit(Stamp(q.fifo[0]), limit, clock(tick)) then (q, tick + 1) else
    Clean(q.(fifo := q.fifo[1..], count := q.count - 1, deq := q.deq - 1, enq := q.enq + 1), limit, clock, tick + 1)
  }
}
