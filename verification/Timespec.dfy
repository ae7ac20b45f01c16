/**
 * Times in seconds and nanoseconds, and the rules by which an item has waited
 * too long.
 */
module Timespec {

  const NANOS := 1_000_000_000

  datatype Time = Time(sec: int, nsec: int)

  const ZERO := Time(0, 0)

  predicate Normal(t: Time) {
    0 <= t.nsec < NANOS
  }

  function Nanos(t: Time): int {
    t.sec * NANOS + t.nsec
  }

  /** timespecadd. */
  function Sum(a: Time, b: Time): Time {
    var n := a.nsec + b.nsec;
    if n >= NANOS then Time(a.sec + b.sec + 1, n - NANOS) else Time(a.sec + b.sec, n)
  }

  /** timespecsub. */
  function Difference(a: Time, b: Time): Time {
    var n := a.nsec - b.nsec;
    if n < 0 then Time(a.sec - b.sec - 1, n + NANOS) else Time(a.sec - b.sec, n)
  }

  /** timespeccmp with `<`. */
  predicate Less(a: Time, b: Time) {
    if a.sec == b.sec then a.nsec < b.nsec else a.sec < b.sec
  }

  /** On normalised times, sums and differences are exact and normalised. */
  lemma SumsAreExact(a: Time, b: Time)
    requires Normal(a) && Normal(b)
    ensures Normal(Sum(a, b)) && Nanos(Sum(a, b)) == Nanos(a) + Nanos(b)
    ensures Normal(Difference(a, b)) && Nanos(Difference(a, b)) == Nanos(a) - Nanos(b)
    ensures Difference(Sum(a, b), b) == a && Sum(Difference(a, b), b) == a
  {
  }

  /** On normalised times, the comparison is the one of nanoseconds. */
  lemma LessIsLess(a: Time, b: Time)
    requires Normal(a) && Normal(b)
    ensures Less(a, b) <==> Nanos(a) < Nanos(b)
  {
  }

  /**
   * Comparing a normalised time with a limit given by a caller is exact for every
   * time if and only if the nanoseconds of the limit are at least -1 and less
   * than a second.
   */
  lemma ComparisonIsExactIff(limit: Time)
    ensures (forall t :: Normal(t) ==> (Less(limit, t) <==> Nanos(limit) < Nanos(t))) <==> -1 <= limit.nsec < NANOS
  {
    if limit.nsec >= NANOS {
      var t := Time(limit.sec + 1, 0);
      assert Normal(t) && Less(limit, t) && Nanos(limit) >= Nanos(t);
    } else if limit.nsec < -1 {
      var t := Time(limit.sec - 1, NANOS - 1);
      assert Normal(t) && !Less(limit, t) && Nanos(limit) < Nanos(t);
    }
  }

  /** A time in memory; the result of an operation may be one of its operands. */
  class Cell {
    var sec: int
    var nsec: int

    function Value(): Time
      reads this
    {
      Time(sec, nsec)
    }

    constructor (t: Time)
      ensures Value() == t
    {
      sec, nsec := t.sec, t.nsec;
    }

    /** timespecadd with this as the result. */
    method SetToSum(a: Cell, b: Cell)
      modifies this
      ensures Value() == Sum(old(a.Value()), old(b.Value()))
    {
      sec := a.sec + b.sec;
      nsec := a.nsec + b.nsec;
      if nsec >= NANOS {
        sec := sec + 1;
        nsec := nsec - NANOS;
      }
    }

    /** timespecsub with this as the result. */
    method SetToDifference(a: Cell, b: Cell)
      modifies this
      ensures Value() == Difference(old(a.Value()), old(b.Value()))
    {
      sec := a.sec - b.sec;
      nsec := a.nsec - b.nsec;
      if nsec < 0 {
        sec := sec - 1;
        nsec := nsec + NANOS;
      }
    }
  }

  // ------------------------------------------------------------ expiry

  /** item_exceeds_limit: a limit of zero is no limit. */
  predicate ExceedsLimit(item: Time, limit: Time, now: Time) {
    limit != ZERO && Less(limit, Difference(now, item))
  }

  /** is_codel_active. */
  predicate CodelActive(limit: Time, target: Time) {
    target != ZERO && limit != ZERO
  }

  /**
   * item_exceeds_delay.  `last` is when the queue was last empty; under CoDel a
   * queue that has not been empty for the limit holds its items to the target.
   */
  predicate ExceedsDelay(item: Time, limit: Time, target: Time, last: Time, now: Time) {
    if CodelActive(limit, target) && last.sec != 0 &&
      Less(last, Difference(now, limit)) then ExceedsLimit(item, target, now)
    else ExceedsLimit(item, limit, now)
  }

  /** An item exceeds a limit if and only if there is one and the item is older, to the nanosecond. */
  lemma ExceedsIsOlder(item: Time, limit: Time, now: Time)
    requires Normal(item) && Normal(limit) && Normal(now)
    ensures ExceedsLimit(item, limit, now) <==> Nanos(limit) != 0 && Nanos(now) - Nanos(item) > Nanos(limit)
  {
    SumsAreExact(now, item);
    LessIsLess(limit, Difference(now, item));
  }

  /**
   * The target is in force if and only if both limits are set, the queue has
   * been empty at some time, and that is longer ago than the limit; otherwise
   * the limit is.
   */
  lemma DelayRule(item: Time, limit: Time, target: Time, last: Time, now: Time)
    requires Normal(item) && Normal(limit) && Normal(target) && Normal(last) && Normal(now)
    ensures ExceedsDelay(item, limit, target, last, now) <==>
              var bound := if Nanos(limit) != 0 && Nanos(target) != 0 && last.sec != 0 &&
                Nanos(last) < Nanos(now) - Nanos(limit)
                           then Nanos(target) else Nanos(limit);
              bound != 0 && Nanos(now) - Nanos(item) > bound
  {
    SumsAreExact(now, limit);
    LessIsLess(last, Difference(now, limit));
    ExceedsIsOlder(item, limit, now);
    ExceedsIsOlder(item, target, now);
  }

  /** An item that has expired stays expired. */
  lemma ExpiryIsFinal(item: Time, limit: Time, now: Time, later: Time)
    requires Normal(item) && Normal(limit) && Normal(now) && Normal(later) && Nanos(now) <= Nanos(later)
    requires ExceedsLimit(item, limit, now)
    ensures ExceedsLimit(item, limit, later)
  {
    ExceedsIsOlder(item, limit, now);
    ExceedsIsOlder(item, limit, later);
  }
}
