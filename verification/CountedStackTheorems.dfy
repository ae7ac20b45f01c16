/**
 * What the counted stacks guarantee over every run.
 */
module CountedStackTheorems {
  import opened Layout
  import opened SizeClass
  import opened CountedStack
  import opened CountedStackProof
  import opened CountedStackSteps

  lemma InitInv(pids: set<nat>)
    ensures Inv(Init(pids))
  {
  }

  lemma {:induction false} RunInv(s: State, acts: seq<Action>)
    requires Inv(s)
    ensures Inv(Run(s, acts))
  {
    hide Inv, Step;
    if acts != [] {
      RunInv(s, acts[..|acts| - 1]);
      StepInv(Run(s, acts[..|acts| - 1]), acts[|acts| - 1]);
    }
  }

  /**
   * Read from memory alone, the stack is exactly `chain`, top first: it starts
   * at the top, each block's first word names the block below it, the lowest
   * names 0, and no block occurs twice.
   */
  ghost predicate Spells(s: State, k: StackId, chain: seq<int>) {
    && Top(s, k).lo == (if chain == [] then 0 else chain[0])
    && (forall i, j :: 0 <= i && j == i + 1 && j < |chain| ==> Word(s, chain[i]).lo == chain[j])
    && (chain != [] ==> Word(s, chain[|chain| - 1]).lo == 0)
    && (forall i, j :: 0 <= i < j < |chain| ==> chain[i] != chain[j])
  }

  ghost function TopDown(c: seq<int>): (r: seq<int>)
    ensures |r| == |c|
    ensures forall i :: 0 <= i < |c| ==> r[i] == c[|c| - 1 - i]
  {
    seq(|c|, i requires 0 <= i < |c| => c[|c| - 1 - i])
  }

  lemma StackSpells(s: State, k: StackId)
    requires StackOk(s, k)
    ensures Spells(s, k, TopDown(Chain(s, k)))
  {
    var c := Chain(s, k);
    var r := TopDown(c);
    forall i, j | 0 <= i && j == i + 1 && j < |r| ensures Word(s, r[i]).lo == r[j] {
      assert Word(s, c[|c| - 1 - i]).lo == c[|c| - 1 - j];
    }
    forall i, j | 0 <= i < j < |r| ensures r[i] != r[j] {
      assert s.place[c[|c| - 1 - i]] == Stacked(k, |c| - 1 - i) && s.place[c[|c| - 1 - j]] == Stacked(k, |c| - 1 - j);
    }
  }

  /** Every stack is a finite chain without repetition, and no block is on two stacks. */
  lemma StacksStayIntact(pids: set<nat>, acts: seq<Action>)
    ensures var s := Run(Init(pids), acts);
            && (forall k :: Spells(s, k, TopDown(Chain(s, k))))
            && (forall k, m, b :: k != m && b in Chain(s, k) ==> b !in Chain(s, m))
  {
    InitInv(pids);
    RunInv(Init(pids), acts);
    var s := Run(Init(pids), acts);
    forall k ensures Spells(s, k, TopDown(Chain(s, k))) {
      assert StackOk(s, k);
      StackSpells(s, k);
    }
    forall k, m, b | k != m && b in Chain(s, k) ensures b !in Chain(s, m) {
      assert StackOk(s, k) && StackOk(s, m);
    }
  }

  /**
   * No block has two owners, and no block with an owner is on a stack: nothing is
   * popped twice without a push between.
   */
  lemma OneOwner(pids: set<nat>, acts: seq<Action>, b: int, p: nat)
    requires p in Run(Init(pids), acts).procs && Owns(Run(Init(pids), acts).procs[p], b)
    ensures var s := Run(Init(pids), acts);
            && (forall o :: o in s.procs && Owns(s.procs[o], b) ==> o == p)
            && (forall k :: b !in Chain(s, k))
  {
    InitInv(pids);
    RunInv(Init(pids), acts);
    var s := Run(Init(pids), acts);
    ProcFacts(s, p);
    forall o | o in s.procs && Owns(s.procs[o], b) ensures o == p {
      ProcFacts(s, o);
    }
    forall k ensures b !in Chain(s, k) {
      assert StackOk(s, k);
    }
  }

  // ------------------------------------------------------------ refinement

  /** The abstract stack: the blocks with their values, bottom first. */
  ghost function Contents(s: State, k: StackId): seq<(int, int)> {
    seq(|Chain(s, k)|, i requires 0 <= i < |Chain(s, k)| => (Chain(s, k)[i], Val(s, Chain(s, k)[i])))
  }

  ghost predicate Unmoved(s: State, s': State, k: StackId) {
    Contents(s', k) == Contents(s, k) && Top(s', k) == Top(s, k)
  }

  /** Process p pushes the block it has onto stack k. */
  ghost predicate IsPush(s: State, s': State, p: nat, k: StackId) {
    && p in s.procs && s.procs[p].Pushing? && s.procs[p].k == k
    && Contents(s', k) == Contents(s, k) + [(s.procs[p].b, Val(s, s.procs[p].b))]
    && Top(s', k).hi == Top(s, k).hi + 1
    && s.procs[p].b in s.home && s.home[s.procs[p].b] == k
  }

  /** Process p takes the topmost block of stack k, and with it the value it carries. */
  ghost predicate IsPop(s: State, s': State, p: nat, k: StackId) {
    && p in s.procs && s.procs[p].Popping? && s.procs[p].k == k && s.procs[p].pop.SwapOut?
    && var b := s.procs[p].pop.tb.lo;
    && Contents(s, k) == Contents(s', k) + [(b, Val(s, b))]
    && Top(s', k).hi == Top(s, k).hi + 1
    && p in s'.procs && Owns(s'.procs[p], b)
    && (k == Lifo ==> s.procs[p].pop.v == Val(s, b))
  }

  lemma PushesContents(s: State, s': State, p: nat, k: StackId, b: int)
    requires Pushes(s, s', p, k, b)
    ensures IsPush(s, s', p, k) && forall m :: m != k ==> Unmoved(s, s', m)
  {
    assert Chain(s', k) == Chain(s, k) + [b];
  }

  lemma PopsContents(s: State, s': State, p: nat, k: StackId, b: int)
    requires Pops(s, s', p, k, b) && s.procs[p].k == k && s.procs[p].pop.SwapOut? && s.procs[p].pop.tb.lo == b
    requires k == Lifo ==> s.procs[p].pop.v == Val(s, b)
    ensures IsPop(s, s', p, k) && forall m :: m != k ==> Unmoved(s, s', m)
  {
    assert Chain(s', k) + [b] == Chain(s, k);
    assert Contents(s, k) == Contents(s', k) + [(b, Val(s, b))];
  }

  lemma BlockStepContents(s: State, s': State, k: StackId)
    requires StackOk(s, k) && s'.top == s.top && s'.chain == s.chain
    requires forall b :: b in s.place && s.place[b].Stacked? ==> Val(s', b) == Val(s, b)
    ensures Unmoved(s, s', k)
  {
    forall i | 0 <= i < |Chain(s, k)| ensures Contents(s', k)[i] == Contents(s, k)[i] {
      var b := Chain(s, k)[i];
      assert b in s.place && s.place[b] == Stacked(k, i);
    }
  }

  lemma PopLoadValues(s: State, p: nat, k: StackId, at: PopAt)
    ensures ExecPop(s, p, k, at).val == s.val
    ensures !at.SwapOut? ==> ExecPop(s, p, k, at).top == s.top && ExecPop(s, p, k, at).chain == s.chain
  {
    hide Top, Val, Word;
  }

  lemma PushLoadValues(s: State, p: nat, k: StackId, b: int, at: PushAt)
    ensures ExecPush(s, p, k, b, at).val == s.val
    ensures !at.SwapIn? ==> ExecPush(s, p, k, b, at).top == s.top && ExecPush(s, p, k, b, at).chain == s.chain
  {
    hide Top, Word;
  }

  lemma ExecValues(s: State, p: nat, c: Proc)
    ensures ExecNext(s, p, c).val == s.val
    ensures !(c.Pushing? && c.push.SwapIn?) && !(c.Popping? && c.pop.SwapOut?) ==>
              ExecNext(s, p, c).top == s.top && ExecNext(s, p, c).chain == s.chain
  {
    hide ExecPop, ExecPush;
    if c.Pushing? {
      PushLoadValues(s, p, c.k, c.b, c.push);
    } else if c.Popping? {
      PopLoadValues(s, p, c.k, c.pop);
    }
  }

  lemma QuietValues(s: State, a: Action)
    requires PlacesOk(s) && a.p in s.procs && ProcOk(s, a.p, s.procs[a.p])
    requires a.Exec? ==> !(s.procs[a.p].Pushing? && s.procs[a.p].push.SwapIn?)
    requires a.Exec? ==> !(s.procs[a.p].Popping? && s.procs[a.p].pop.SwapOut?)
    ensures Step(s, a).top == s.top && Step(s, a).chain == s.chain
    ensures forall b :: b in s.place && s.place[b].Stacked? ==> Val(Step(s, a), b) == Val(s, b)
  {
    hide PlaceOk, ExecNext;
    if a.Exec? {
      ExecValues(s, a.p, s.procs[a.p]);
    }
  }

  lemma PushCase(s: State, p: nat, k: StackId, b: int)
    requires p in s.procs && s.procs[p] == Pushing(k, b, SwapIn) && ProcOk(s, p, s.procs[p]) && Top(s, k) == Word(s, b)
    ensures IsPush(s, Step(s, Exec(p)), p, k) && forall m :: m != k ==> Unmoved(s, Step(s, Exec(p)), m)
  {
    assert Pushes(s, Step(s, Exec(p)), p, k, b);
    hide IsPush, Unmoved;
    PushesContents(s, Step(s, Exec(p)), p, k, b);
  }

  lemma PopCase(s: State, p: nat, k: StackId, tb: Pair, v: int, after: int)
    requires p in s.procs && s.procs[p] == Popping(k, SwapOut(tb, v, after)) && ProcOk(s, p, s.procs[p])
    requires StackOk(s, k) && Top(s, k) == tb
    ensures IsPop(s, Step(s, Exec(p)), p, k) && forall m :: m != k ==> Unmoved(s, Step(s, Exec(p)), m)
  {
    PopTarget(s, k, tb, v, after);
    assert Pops(s, Step(s, Exec(p)), p, k, tb.lo);
    hide IsPop, Unmoved, StackOk;
    PopsContents(s, Step(s, Exec(p)), p, k, tb.lo);
  }

  /** Every instruction does nothing to the abstract stacks, or it is one push, or one pop of what is on top. */
  lemma EveryStepIsAPushAPopOrNothing(s: State, a: Action)
    requires Inv(s)
    ensures var s' := Step(s, a);
            || (forall k :: Unmoved(s, s', k))
            || (exists k ::
                  (IsPush(s, s', a.p, k) || IsPop(s, s', a.p, k)) && (forall m :: m != k ==> Unmoved(s, s', m)))
  {
    hide Inv, IsPush, IsPop, Unmoved, Step;
    if a.p in s.procs {
      ProcFacts(s, a.p);
      var c := s.procs[a.p];
      hide ProcOk, PlacesOk;
      if a.Exec? && c.Pushing? && c.push.SwapIn? && Top(s, c.k) == Word(s, c.b) {
        PushCase(s, a.p, c.k, c.b);
      } else if a.Exec? && c.Popping? && c.pop.SwapOut? && Top(s, c.k) == c.pop.tb {
        StackFacts(s, c.k);
        PopCase(s, a.p, c.k, c.pop.tb, c.pop.v, c.pop.after);
      } else {
        QuietStep(s, a);
      }
    } else {
      AbsentStep(s, a);
    }
  }

  lemma AbsentStep(s: State, a: Action)
    requires a.p !in s.procs
    ensures Step(s, a) == s && forall k :: Unmoved(s, s, k)
  {
  }

  lemma StackFacts(s: State, k: StackId)
    requires Inv(s)
    ensures StackOk(s, k)
  {
  }

  lemma QuietStep(s: State, a: Action)
    requires Inv(s) && a.p in s.procs
    requires var c := s.procs[a.p];
             a.Exec? ==> !(c.Pushing? && c.push.SwapIn? && Top(s, c.k) == Word(s, c.b)) &&
                         !(c.Popping? && c.pop.SwapOut? && Top(s, c.k) == c.pop.tb)
    ensures forall k :: Unmoved(s, Step(s, a), k)
  {
    var c := s.procs[a.p];
    ProcFacts(s, a.p);
    if a.Exec? && ((c.Pushing? && c.push.SwapIn?) || (c.Popping? && c.pop.SwapOut?)) {
      assert Step(s, a).val == s.val;
    } else {
      QuietValues(s, a);
    }
    forall k ensures Unmoved(s, Step(s, a), k) {
      assert StackOk(s, k);
      BlockStepContents(s, Step(s, a), k);
    }
  }

  // ------------------------------------------------------------ size classes over runs

  lemma HomeKept(s: State, a: Action, b: int)
    requires Inv(s) && b in s.home
    ensures b in Step(s, a).home && Step(s, a).home[b] == s.home[b]
  {
    assert s.home.Keys == s.word.Keys;
    hide Inv, Top, Word, Val, Target, RestoredHeader;
    if a.Exec? && a.p in s.procs {
      ExecHome(s, a.p, s.procs[a.p]);
      hide ExecNext;
    }
  }

  lemma ExecHome(s: State, p: nat, c: Proc)
    ensures ExecNext(s, p, c).home == s.home
  {
    hide Top, Word, Val, RestoredHeader, ExecPush, ExecPop;
    if c.Pushing? {
      PushHome(s, p, c.k, c.b, c.push);
    } else if c.Popping? {
      PopHome(s, p, c.k, c.pop);
    }
  }

  lemma PushHome(s: State, p: nat, k: StackId, b: int, at: PushAt)
    ensures ExecPush(s, p, k, b, at).home == s.home
  {
    hide Top, Word, Val;
  }

  lemma PopHome(s: State, p: nat, k: StackId, at: PopAt)
    ensures ExecPop(s, p, k, at).home == s.home
  {
    hide Top, Word, Val;
  }

  lemma {:induction false} HomeKeptOverRuns(s: State, acts: seq<Action>, b: int)
    requires Inv(s) && b in s.home
    ensures b in Run(s, acts).home && Run(s, acts).home[b] == s.home[b]
  {
    hide Inv, Step;
    if acts != [] {
      HomeKeptOverRuns(s, acts[..|acts| - 1], b);
      RunInv(s, acts[..|acts| - 1]);
      HomeKept(Run(s, acts[..|acts| - 1]), acts[|acts| - 1], b);
    }
  }

  /**
   * Whatever happens between two moments at which a data block is in use, its
   * header is the same capacity at both.
   */
  lemma ClassNeverChanges(pids: set<nat>, acts: seq<Action>, more: seq<Action>, b: int, p: nat, q: nat)
    requires var s := Run(Init(pids), acts);
             p in s.procs && s.procs[p] == Holding(b) && b in s.home && s.home[b].Bucket?
    requires var t := Run(Run(Init(pids), acts), more); q in t.procs && t.procs[q] == Holding(b)
    ensures var s := Run(Init(pids), acts);
            var t := Run(s, more);
            Word(t, b).lo == Word(s, b).lo && 0 <= s.home[b].i < CLASSES && Word(s, b).lo == Capacity(s.home[b].i)
  {
    InitInv(pids);
    RunInv(Init(pids), acts);
    var s := Run(Init(pids), acts);
    RunInv(s, more);
    ProcFacts(s, p);
    ProcFacts(Run(s, more), q);
    HomeKeptOverRuns(s, more, b);
  }

  /**
   * In every state of every run, a pop whose DWCAS matches takes the topmost
   * block and installs its true successor, however stale or torn its loads are.
   */
  lemma StalePopsNeverMatch(pids: set<nat>, acts: seq<Action>, p: nat, k: StackId, tb: Pair, v: int, after: int)
    requires var s := Run(Init(pids), acts);
             p in s.procs && s.procs[p] == Popping(k, SwapOut(tb, v, after)) && Top(s, k) == tb
    ensures var s := Run(Init(pids), acts);
            var c := Chain(s, k);
            && c != [] && tb.lo == c[|c| - 1]
            && after == (if |c| == 1 then 0 else c[|c| - 2])
            && (k == Lifo ==> v == Val(s, tb.lo))
  {
    InitInv(pids);
    RunInv(Init(pids), acts);
    var s := Run(Init(pids), acts);
    assert StackOk(s, k) && ProcOk(s, p, s.procs[p]);
    PopTarget(s, k, tb, v, after);
  }
}
