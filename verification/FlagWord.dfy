/**
 * The flag word of the queue: set_flag, clear_flag and the one-shot
 * subscription test in add_event, each a load followed by a CAS.
 */
module FlagWord {

  /** A word is the set of its one bits: `&` yields zero on disjoint
      words, `|` is union, `& ~` difference. */
  type Word = set<nat>

  const ACTIVATED: nat := 0        // FLAG_ACTIVATED == 1
  const BIT_INIT: nat := 3        // FLAG_EVNT_INIT == 8
  const BIT_NONEMPTY: nat := 8    // FLAG_EVNT_NONEMPTY == 256

  /** The bits that get_event_flag gives to add_event, one for each event. */
  predicate IsEvent(e: nat) {
    BIT_INIT <= e <= BIT_NONEMPTY
  }

  datatype Proc =
    | Idle
    | SetLoad(mask: Word)
    | SetSwap(mask: Word, prev: Word)
    | ClearLoad(mask: Word)
    | ClearSwap(mask: Word, prev: Word)
      // add_event: event_disabled tests one load, the CAS uses another
    | EventTest(mask: Word)
    | EventLoad(mask: Word)
    | EventSwap(mask: Word, prev: Word)

  /**
   * The counts are history, kept for one flag bit `bit`: set_flag calls on it
   * that returned true, clear_flag calls and add_event calls that turned it
   * off, and add_event calls that went ahead although it was off already.
   */
  datatype State = State(flags: Word, procs: map<nat, Proc>, bit: nat, sets: nat, clears: nat, events: nat,
      phantoms: nat)

  datatype Action =
    | SetFlag(p: nat, mask: Word)
    | ClearFlag(p: nat, mask: Word)
    | AddEvent(p: nat, e: nat)
    | Exec(p: nat)

  function At(s: State, p: nat, c: Proc): State {
    s.(procs := s.procs[p := c])
  }

  /** The next instruction of a process; set_flag and clear_flag retry, add_event does not. */
  function ExecNext(s: State, p: nat, c: Proc): State {
    match c
    case Idle => s
    case SetLoad(mask) => At(s, p, if s.flags !! mask then SetSwap(mask, s.flags) else Idle)
    case SetSwap(mask, prev) =>
      if s.flags == prev then
        At(s.(flags := prev + mask, sets := s.sets + if s.bit in mask then 1 else 0), p, Idle)
      else At(s, p, SetLoad(mask))
    case ClearLoad(mask) => At(s, p, if s.flags !! mask then Idle else ClearSwap(mask, s.flags))
    case ClearSwap(mask, prev) =>
      if s.flags == prev then
        At(s.(flags := prev - mask, clears := s.clears + if s.bit in mask && s.bit in prev then 1 else 0), p, Idle)
      else At(s, p, ClearLoad(mask))
    case EventTest(mask) => At(s, p, if s.flags !! mask then Idle else EventLoad(mask))
    case EventLoad(mask) => At(s, p, EventSwap(mask, s.flags))
    case EventSwap(mask, prev) =>
      if s.flags == prev then
        At(s.(flags := prev - mask,
              events := s.events + if s.bit in mask then 1 else 0,
              phantoms := s.phantoms + if s.bit in mask && s.bit !in prev then 1 else 0), p, Idle)
      else At(s, p, Idle)
  }

  function Step(s: State, a: Action): State {
    if a.p !in s.procs then s else
    match a
    case SetFlag(p, mask) => if s.procs[p] == Idle then At(s, p, SetLoad(mask)) else s
    case ClearFlag(p, mask) => if s.procs[p] == Idle then At(s, p, ClearLoad(mask)) else s
    case AddEvent(p, e) => if s.procs[p] == Idle && IsEvent(e) then At(s, p, EventTest({e})) else s
    case Exec(p) => ExecNext(s, p, s.procs[p])
  }

  function Run(s: State, acts: seq<Action>): State {
    if acts == [] then s else Step(Run(s, acts[..|acts| - 1]), acts[|acts| - 1])
  }

  function Init(bit: nat, pids: set<nat>): State {
    State({}, map p | p in pids :: Idle, bit, 0, 0, 0, 0)
  }

  /** A loaded value that a set_flag is about to use has none of the bits it sets; a clear_flag's has one. */
  ghost predicate ProcOk(c: Proc) {
    match c
    case SetSwap(mask, prev) => prev !! mask
    case ClearSwap(mask, prev) => !(prev !! mask)
    case _ => true
  }

  /** A subscription is in force exactly when it was made and neither withdrawn nor used up. */
  ghost predicate Balance(s: State) {
    (if s.bit in s.flags then 1 else 0) == s.sets - s.clears - (s.events - s.phantoms)
  }

  ghost predicate Inv(s: State) {
    && Balance(s) && s.phantoms <= s.events
    && (forall p :: p in s.procs ==> ProcOk(s.procs[p]))
  }

  // ------------------------------------------------------------ every run

  lemma ExecInv(s: State, p: nat)
    requires Inv(s) && p in s.procs
    ensures Inv(ExecNext(s, p, s.procs[p]))
  {
    assert ProcOk(s.procs[p]);
  }

  lemma {:induction false} RunInv(s: State, acts: seq<Action>)
    requires Inv(s)
    ensures Inv(Run(s, acts))
  {
    if acts != [] {
      var k := |acts| - 1;
      RunInv(s, acts[..k]);
      var t := Run(s, acts[..k]);
      if acts[k].Exec? && acts[k].p in t.procs {
        ExecInv(t, acts[k].p);
      }
    }
  }

  /** The mask of the call a process is in. */
  function Mask(c: Proc): Word {
    if c == Idle then {} else c.mask
  }

  /** No step changes a bit outside the mask of the process that takes it: no update of another bit is lost. */
  lemma OnlyOwnBitsChange(s: State, a: Action, b: nat)
    requires a.p in s.procs && b !in Mask(s.procs[a.p])
    ensures b in Step(s, a).flags <==> b in s.flags
  {
  }

  /**
   * Undisturbed, set_flag with a mask of several bits (SQ_EVNT_ALL) turns all of
   * them on if and only if none of them was on before, or all were.
   */
  lemma SetFlagSetsAllIff(s: State, p: nat, mask: Word)
    requires p in s.procs && s.procs[p] == Idle
    ensures var s' := Step(Step(Step(s, SetFlag(p, mask)), Exec(p)), Exec(p));
            && s'.procs[p] == Idle
            && (mask <= s'.flags <==> s.flags !! mask || mask <= s.flags)
  {
    var s1 := Step(s, SetFlag(p, mask));
    var s2 := Step(s1, Exec(p));
    if s.flags !! mask {
      assert s2.procs[p] == SetSwap(mask, s.flags);
    } else {
      assert s2.procs[p] == Idle && s2.flags == s.flags;
    }
  }

  // ------------------------------------------------------------ activation

  ghost predicate NeverCleared(b: nat, acts: seq<Action>) {
    forall k :: 0 <= k < |acts| ==>
        (acts[k].ClearFlag? ==> b !in acts[k].mask) && (acts[k].AddEvent? ==> acts[k].e != b)
  }

  predicate MayClear(c: Proc) {
    c.ClearLoad? || c.ClearSwap? || c.EventTest? || c.EventLoad? || c.EventSwap?
  }

  ghost predicate NoClearer(s: State) {
    && s.clears == 0 && s.events == 0
    && forall p :: p in s.procs && MayClear(s.procs[p]) ==> s.bit !in s.procs[p].mask
  }

  lemma {:induction false} NoClearerRuns(bit: nat, pids: set<nat>, acts: seq<Action>)
    requires NeverCleared(bit, acts)
    ensures NoClearer(Run(Init(bit, pids), acts)) && Run(Init(bit, pids), acts).bit == bit
  {
    if acts != [] {
      var k := |acts| - 1;
      NoClearerRuns(bit, pids, acts[..k]);
      NoClearerStep(Run(Init(bit, pids), acts[..k]), acts[k]);
    }
  }

  lemma NoClearerStep(s: State, a: Action)
    requires NoClearer(s) && (a.ClearFlag? ==> s.bit !in a.mask) && (a.AddEvent? ==> a.e != s.bit)
    ensures NoClearer(Step(s, a)) && Step(s, a).bit == s.bit
  {
  }

  /**
   * A flag nobody clears is won by one call of set_flag only: FLAG_ACTIVATED
   * lets at most one add in the life of a queue offer the INIT event.
   */
  lemma SetOnlyOnce(bit: nat, pids: set<nat>, acts: seq<Action>)
    requires NeverCleared(bit, acts)
    ensures var s := Run(Init(bit, pids), acts); s.sets == if bit in s.flags then 1 else 0
  {
    assert Inv(Init(bit, pids));
    RunInv(Init(bit, pids), acts);
    NoClearerRuns(bit, pids, acts);
    var s := Run(Init(bit, pids), acts);
    assert Balance(s);
  }

  // ------------------------------------------------------------ events and subscriptions

  ghost predicate InEvent(c: Proc, b: nat) {
    (c.EventTest? || c.EventLoad? || c.EventSwap?) && b in c.mask
  }

  ghost predicate InClear(c: Proc, b: nat) {
    (c.ClearLoad? || c.ClearSwap?) && b in c.mask
  }

  /** One process is in add_event on the bit while another is in add_event or clear_flag on it. */
  ghost predicate Overlap(s: State) {
    exists p, q :: p in s.procs && q in s.procs && p != q && InEvent(s.procs[p], s.bit) &&
                   (InEvent(s.procs[q], s.bit) || InClear(s.procs[q], s.bit))
  }

  ghost predicate NeverOverlaps(s: State, acts: seq<Action>) {
    forall k :: 0 <= k < |acts| ==> !Overlap(Run(s, acts[..k]))
  }

  /** An add_event past its test still finds the subscription it has seen. */
  ghost predicate TestHolds(s: State) {
    && s.phantoms == 0
    && forall p :: p in s.procs && InEvent(s.procs[p], s.bit) ==>
                     (s.procs[p].EventLoad? ==> s.bit in s.flags) &&
                       (s.procs[p].EventSwap? ==> s.bit in s.procs[p].prev)
  }

  /** add_event is called for one event at a time. */
  ghost predicate OneEvent(s: State) {
    forall p :: p in s.procs && InEvent(s.procs[p], s.bit) ==> s.procs[p].mask == {s.bit}
  }

  lemma TestHoldsStep(s: State, a: Action)
    requires TestHolds(s) && OneEvent(s) && !Overlap(s)
    ensures TestHolds(Step(s, a)) && OneEvent(Step(s, a)) && Step(s, a).bit == s.bit
  {
    var s' := Step(s, a);
    forall p | p in s'.procs && InEvent(s'.procs[p], s'.bit)
      ensures s'.procs[p].mask == {s.bit}
      ensures (s'.procs[p].EventLoad? ==> s.bit in s'.flags) && (s'.procs[p].EventSwap? ==> s.bit in s'.procs[p].prev)
    {
      if p != a.p && a.p in s.procs {
        assert InEvent(s.procs[p], s.bit);
        assert !InEvent(s.procs[a.p], s.bit) && !InClear(s.procs[a.p], s.bit);
      }
    }
  }

  lemma {:induction false} TestHoldsRuns(bit: nat, pids: set<nat>, acts: seq<Action>)
    requires NeverOverlaps(Init(bit, pids), acts)
    ensures var s := Run(Init(bit, pids), acts); TestHolds(s) && OneEvent(s) && s.bit == bit
  {
    hide TestHolds, OneEvent, Overlap, Step;
    var s0 := Init(bit, pids);
    if acts == [] {
      assert TestHolds(s0) && OneEvent(s0) by {
        InitTestHolds(bit, pids);
      }
    } else {
      var k := |acts| - 1;
      forall i | 0 <= i < k ensures !Overlap(Run(s0, acts[..k][..i])) {
        assert acts[..k][..i] == acts[..i];
      }
      TestHoldsRuns(bit, pids, acts[..k]);
      TestHoldsStep(Run(s0, acts[..k]), acts[k]);
    }
  }

  lemma InitTestHolds(bit: nat, pids: set<nat>)
    ensures TestHolds(Init(bit, pids)) && OneEvent(Init(bit, pids))
  {
  }

  /**
   * One event for one subscription: in a run in which no add_event on the bit
   * overlaps another add_event or a clear_flag on it, every subscription made is
   * used up by exactly one event, withdrawn by exactly one clear_flag, or still
   * in force.
   */
  lemma EventsNeedSubscriptions(bit: nat, pids: set<nat>, acts: seq<Action>)
    requires NeverOverlaps(Init(bit, pids), acts)
    ensures var s := Run(Init(bit, pids), acts);
            s.phantoms == 0 && s.sets == s.events + s.clears + if bit in s.flags then 1 else 0
  {
    assert Inv(Init(bit, pids));
    RunInv(Init(bit, pids), acts);
    TestHoldsRuns(bit, pids, acts);
    var s := Run(Init(bit, pids), acts);
    assert Balance(s);
  }

  lemma {:induction false} RunPids(bit: nat, pids: set<nat>, acts: seq<Action>)
    ensures Run(Init(bit, pids), acts).procs.Keys == pids
  {
    if acts != [] {
      RunPids(bit, pids, acts[..|acts| - 1]);
    }
  }

  lemma Single(pids: set<nat>, p: nat, q: nat)
    requires |pids| <= 1 && p in pids && q in pids
    ensures p == q
  {
    var rest := pids - {p};
    assert |rest| == 0;
    assert q !in rest;
  }

  lemma AloneNeverOverlaps(bit: nat, pids: set<nat>, acts: seq<Action>)
    requires |pids| <= 1
    ensures NeverOverlaps(Init(bit, pids), acts)
  {
    hide InEvent, InClear, Run;
    forall k | 0 <= k < |acts| ensures !Overlap(Run(Init(bit, pids), acts[..k])) {
      RunPids(bit, pids, acts[..k]);
      forall p, q | p in pids && q in pids ensures p == q {
        Single(pids, p, q);
      }
    }
  }

  lemma Extend(s: State, acts: seq<Action>, a: Action)
    ensures Run(s, acts + [a]) == Step(Run(s, acts), a)
  {
    assert (acts + [a])[..|acts|] == acts;
  }

  lemma Continue(s: State, acts: seq<Action>, a: Action, b: Action) returns (acts': seq<Action>)
    ensures Run(s, acts') == Step(Step(Run(s, acts), a), b)
  {
    Extend(s, acts, a);
    Extend(s, acts + [a], b);
    acts' := acts + [a] + [b];
  }

  /** One subscription, two events: both adders pass the test, the second one loads after the first has cleared. */
  lemma OneSubscriptionTwoEvents(e: nat, pids: set<nat>, p: nat, q: nat) returns (acts: seq<Action>)
    requires IsEvent(e) && p in pids && q in pids && p != q
    ensures var s := Run(Init(e, pids), acts); s.sets == 1 && s.events == 2
  {
    var s := Init(e, pids);
    assert Run(s, []) == s;
    hide Run;
    acts := Continue(s, [], SetFlag(p, {e}), Exec(p));
    acts := Continue(s, acts, Exec(p), AddEvent(p, e));
    assert var t := Run(s, acts); t.flags == {e} && t.sets == 1 && t.procs == s.procs[p := EventTest({e})];
    acts := Continue(s, acts, AddEvent(q, e), Exec(q));
    assert Run(s, acts).flags == {e} && Run(s, acts).sets == 1;
    assert Run(s, acts).procs == s.procs[p := EventTest({e})][q := EventLoad({e})];
    acts := Continue(s, acts, Exec(p), Exec(p));
    assert var t := Run(s, acts); t.flags == {e} && t.procs == s.procs[q := EventLoad({e})][p := EventSwap({e}, {e})];
    acts := Continue(s, acts, Exec(p), Exec(q));
    Extend(s, acts, Exec(q));
    acts := acts + [Exec(q)];
  }

  lemma TwoOf(pids: set<nat>) returns (p: nat, q: nat)
    requires |pids| > 1
    ensures p in pids && q in pids && p != q
  {
    p :| p in pids;
    var rest := pids - {p};
    assert |rest| > 0;
    q :| q in rest;
  }

  /**
   * add_event tests one load of the word and swaps on another: no event is
   * delivered without a subscription, over all runs, if and only if there is
   * only one process.
   */
  lemma SubscribedIffAlone(e: nat, pids: set<nat>)
    requires IsEvent(e)
    ensures (forall acts :: Run(Init(e, pids), acts).events <= Run(Init(e, pids), acts).sets) <==> |pids| <= 1
  {
    hide Run, Init, NeverOverlaps;
    if |pids| <= 1 {
      forall acts ensures Run(Init(e, pids), acts).events <= Run(Init(e, pids), acts).sets {
        AloneNeverOverlaps(e, pids, acts);
        EventsNeedSubscriptions(e, pids, acts);
      }
    } else {
      var p, q := TwoOf(pids);
      var acts := OneSubscriptionTwoEvents(e, pids, p, q);
    }
  }

  // ------------------------------------------------------------ a call alone

  /** Undisturbed, clear_flag turns off every bit of its mask. */
  lemma ClearFlagAlone(s: State, p: nat, mask: Word)
    requires p in s.procs && s.procs[p] == Idle
    ensures var s' := Step(Step(Step(s, ClearFlag(p, mask)), Exec(p)), Exec(p));
            && s'.procs[p] == Idle && s'.flags == s.flags - mask
            && s'.clears == s.clears + if s.bit in mask && s.bit in s.flags then 1 else 0
  {
    var s1 := Step(s, ClearFlag(p, mask));
    var s2 := Step(s1, Exec(p));
    if s.flags !! mask {
      assert s2.procs[p] == Idle && s2.flags == s.flags && s.flags - mask == s.flags;
    } else {
      assert s2.procs[p] == ClearSwap(mask, s.flags);
    }
  }

  /** Undisturbed, add_event goes ahead exactly if the event is subscribed, and uses the subscription up. */
  lemma AddEventAlone(s: State, p: nat, e: nat)
    requires p in s.procs && s.procs[p] == Idle && IsEvent(e)
    ensures var s' := Step(Step(Step(Step(s, AddEvent(p, e)), Exec(p)), Exec(p)), Exec(p));
            && s'.procs[p] == Idle && s'.flags == s.flags - {e} && s'.phantoms == s.phantoms
            && s'.events == s.events + if e == s.bit && e in s.flags then 1 else 0
  {
    var s1 := Step(s, AddEvent(p, e));
    var s2 := Step(s1, Exec(p));
    var s3 := Step(s2, Exec(p));
    if e in s.flags {
      assert s2.procs[p] == EventLoad({e}) && s3.procs[p] == EventSwap({e}, s.flags);
    } else {
      assert s2.procs[p] == Idle && s3.procs[p] == Idle && s.flags - {e} == s.flags;
    }
  }
}
