/**
 * The hit on a stale pair of generation 0 is not only what the invariant of the
 * tagged list has to exclude: it is exactly where the lists break.
 */
module TaggedListExact {
  import opened Layout
  import opened TaggedList
  import opened TaggedListInv
  import opened TaggedListSteps
  import opened TaggedListSwaps
  import opened TaggedListTheorems

  /** A stale node of generation 0 that still names itself is not the last node of the list. */
  lemma StaleIsNotLast(s: State, l: ListId, tb: Pair)
    requires ListOk(s, l) && tb.hi == 0 && Get(s, l).tail.hi != 0 && Link(s, tb.lo) == tb
    ensures Get(s, l).log != [] && tb.lo != Get(s, l).log[|Get(s, l).log| - 1].lo
  {
    LastLinked(s, l);
    InvShape(s, l);
  }

  /** The generation drawn for an append under way is not that of a node already linked. */
  lemma PendingIsNew(s: State, l: ListId, gen: nat)
    requires ListOk(s, l) && gen in s.mint && s.mint[gen].Pending?
    ensures Get(s, l).front < |Get(s, l).log| && Get(s, l).log[|Get(s, l).log| - 1].hi != gen
  {
    InvShape(s, l);
  }

  /** The chain is broken where a node is linked anywhere but behind the last one. */
  lemma LostNode(s: State, l: ListId, i: nat)
    requires var q := Get(s, l); q.front <= i && i + 1 < |q.log| && Link(s, q.log[i].lo) != q.log[i + 1]
    ensures !Intact(s)
  {
    var q := Get(s, l);
    var chain, k := Nodes(q), i - q.front;
    assert chain[k] == q.log[i] && chain[k + 1] == q.log[i + 1];
    assert Link(s, chain[k].lo) != chain[k + 1];
    assert !Spells(s, l, chain);
  }

  lemma HitAppends(s: State, p: nat, l: ListId, node: int, gen: nat, tb: Pair)
    requires p in s.procs && s.procs[p] == Adding(l, node, gen, LinkLast(tb)) && Link(s, tb.lo) == tb
    ensures var s' := Step(s, Exec(p));
            && Get(s', l).log == Get(s, l).log + [Pair(node, gen)] && Get(s', l).front == Get(s, l).front
            && (forall n :: n != tb.lo ==> Link(s', n) == Link(s, n))
  {
  }

  /** After the hit the last node still names itself, so the new node is not on the list. */
  lemma StaleHitBreaks(s: State, a: Action)
    requires Inv(s) && StaleZero(s, a)
    ensures !Intact(Step(s, a))
  {
    hide ListOk, PlacesOk, ProcsOk, Intact, AddSnap, Step;
    var c := s.procs[a.p];
    ProcFacts(s, a.p);
    var q, tb := Get(s, c.l), c.add.tb;
    StaleIsNotLast(s, c.l, tb);
    PendingIsNew(s, c.l, c.gen);
    LastLinked(s, c.l);
    HitAppends(s, a.p, c.l, c.node, c.gen, tb);
    LostNode(Step(s, a), c.l, |q.log| - 1);
  }

  /** From a state of the protocol, a step keeps the lists intact if and only if it is not such a hit. */
  lemma StepIntactIff(s: State, a: Action)
    requires Inv(s)
    ensures Intact(Step(s, a)) <==> !StaleZero(s, a)
  {
    hide Inv, Intact, StaleZero, Step;
    if StaleZero(s, a) {
      StaleHitBreaks(s, a);
    } else {
      StepInv(s, a);
      InvIntact(Step(s, a));
    }
  }

  /** The DWCASes of a process are exact, whatever it has loaded, if and only if its next one is not such a hit. */
  lemma ExactIff(s: State, p: nat)
    requires Inv(s)
    ensures SwapsAreExact(s, p) <==> !StaleZero(s, Exec(p))
  {
    if StaleZero(s, Exec(p)) {
      hide Inv;
    } else {
      hide Inv, StaleZero, SwapsAreExact;
      InvExact(s, p);
    }
  }

  lemma CleanPrefix(s: State, acts: seq<Action>, k: nat)
    requires k <= |acts| && Clean(s, acts)
    ensures Clean(s, acts[..k])
  {
    hide StaleZero, Run;
    forall i | 0 <= i < k ensures !StaleZero(Run(s, acts[..k][..i]), acts[..k][i]) {
      assert acts[..k][..i] == acts[..i];
    }
  }

  /** Every list is intact all through the run. */
  ghost predicate AlwaysIntact(s: State, acts: seq<Action>) {
    forall k :: 0 <= k <= |acts| ==> Intact(Run(s, acts[..k]))
  }

  lemma RunPrefix(s: State, acts: seq<Action>, k: nat)
    requires k < |acts|
    ensures Run(s, acts[..k + 1]) == Step(Run(s, acts[..k]), acts[k])
  {
    hide Step;
    assert acts[..k + 1][..k] == acts[..k];
  }

  lemma IntactIsClean(s: State, acts: seq<Action>, k: nat)
    requires Inv(s) && AlwaysIntact(s, acts) && k <= |acts|
    ensures Clean(s, acts[..k])
  {
    hide Inv, StaleZero, Step, Intact, Run;
    if k > 0 {
      IntactIsClean(s, acts, k - 1);
      RunInv(s, acts[..k - 1]);
      assert acts[..k][..k - 1] == acts[..k - 1] && acts[..k][k - 1] == acts[k - 1];
      RunPrefix(s, acts, k - 1);
      StepIntactIff(Run(s, acts[..k - 1]), acts[k - 1]);
      CleanSoFar(s, acts[..k]);
    }
  }

  /**
   * Over every run, for every set of processes and every start of ID_CNTR: the
   * lists are intact all the way through exactly when no link DWCAS of the run
   * hits a stale node of generation 0.
   */
  lemma IntactIffClean(start: nat, pids: set<nat>, acts: seq<Action>)
    ensures AlwaysIntact(Init(start, pids), acts) <==> Clean(Init(start, pids), acts)
  {
    hide Inv, StaleZero, Step, Intact, Run, Init, Clean;
    var s := Init(start, pids);
    InitInv(start, pids);
    if AlwaysIntact(s, acts) {
      IntactIsClean(s, acts, |acts|);
      assert acts[..|acts|] == acts;
    }
    if Clean(s, acts) {
      forall k | 0 <= k <= |acts| ensures Intact(Run(s, acts[..k])) {
        CleanPrefix(s, acts, k);
        RunInv(s, acts[..k]);
        InvIntact(Run(s, acts[..k]));
      }
    }
  }
}
