/**
 * The operations on the counted stacks finish alone: wherever the other
 * processes have stopped, and wherever the process stands itself, a push ends
 * with its block on top, and a pop with the topmost block in hand, if there is
 * one and, for the LIFO, nobody has moved the counter since it was loaded.
 */
module CountedStackProgress {
  import opened Layout
  import opened SizeClass
  import opened CountedStack
  import opened CountedStackProof
  import opened CountedStackSteps

  /** `n` instructions of p, every other process standing still. */
  ghost function Solo(s: State, p: nat, n: nat): State {
    if n == 0 then s else Step(Solo(s, p, n - 1), Exec(p))
  }

  lemma {:induction false} SoloAdd(s: State, p: nat, j: nat, n: nat)
    ensures Solo(s, p, j + n) == Solo(Solo(s, p, j), p, n)
  {
    hide Step;
    if n > 0 {
      SoloAdd(s, p, j, n - 1);
    }
  }

  lemma SoloOne(s: State, p: nat)
    ensures Solo(s, p, 1) == Step(s, Exec(p))
  {
    assert Solo(s, p, 0) == s;
  }

  // ------------------------------------------------------------ a push

  /** The block is on top of its stack and the process is idle; no other stack has changed. */
  ghost predicate Pushed(s: State, s': State, p: nat, k: StackId, b: int) {
    && p in s'.procs && s'.procs[p] == Idle && Chain(s', k) == Chain(s, k) + [b] && Top(s', k).lo == b
    && forall m :: m != k ==> Chain(s', m) == Chain(s, m)
  }

  ghost predicate PushedWithin(s: State, p: nat, k: StackId, b: int, n: nat) {
    exists j :: 1 <= j <= n && Pushed(s, Solo(s, p, j), p, k, b)
  }

  lemma PushedNow(s: State, p: nat, k: StackId, b: int)
    requires p in s.procs && s.procs[p] == Pushing(k, b, SwapIn) && Top(s, k) == Word(s, b)
    ensures PushedWithin(s, p, k, b, 1)
  {
    SoloOne(s, p);
    assert Pushed(s, Solo(s, p, 1), p, k, b);
  }

  lemma PushedLater(s: State, p: nat, k: StackId, b: int, n: nat, m: nat)
    requires PushedWithin(Step(s, Exec(p)), p, k, b, n) && Step(s, Exec(p)).chain == s.chain && n < m
    ensures PushedWithin(s, p, k, b, m)
  {
    SoloOne(s, p);
    var s1 := Step(s, Exec(p));
    hide Solo, Step;
    var j :| 1 <= j <= n && Pushed(s1, Solo(s1, p, j), p, k, b);
    SoloAdd(s, p, 1, j);
    assert Pushed(s, Solo(s, p, 1 + j), p, k, b);
  }

  /** Two stores copy the top into the block; then the DWCAS matches. */
  lemma PushFromFirst(s: State, p: nat, k: StackId, b: int)
    requires p in s.procs && s.procs[p] == Pushing(k, b, First)
    ensures PushedWithin(s, p, k, b, 3)
  {
    var s1 := Step(s, Exec(p));
    var s2 := Step(s1, Exec(p));
    assert s2.procs[p] == Pushing(k, b, SwapIn) && Top(s2, k) == Top(s, k) == Word(s2, b);
    PushedNow(s2, p, k, b);
    PushedLater(s1, p, k, b, 1, 2);
    PushedLater(s, p, k, b, 2, 3);
  }

  lemma PushFromSwap(s: State, p: nat, k: StackId, b: int)
    requires p in s.procs && s.procs[p] == Pushing(k, b, SwapIn)
    ensures PushedWithin(s, p, k, b, 4)
  {
    if Top(s, k) == Word(s, b) {
      PushedNow(s, p, k, b);
      PushedMore(s, p, k, b, 1, 4);
    } else {
      var s1 := Step(s, Exec(p));
      assert s1 == At(s, p, Pushing(k, b, First));
      PushFromFirst(s1, p, k, b);
      PushedLater(s, p, k, b, 3, 4);
    }
  }

  lemma PushedMore(s: State, p: nat, k: StackId, b: int, n: nat, m: nat)
    requires PushedWithin(s, p, k, b, n) && n <= m
    ensures PushedWithin(s, p, k, b, m)
  {
    hide Pushed, Solo;
  }

  /** From any instruction, a push ends within 5 instructions with its block on top. */
  lemma PushFinishesAlone(s: State, p: nat)
    requires p in s.procs && s.procs[p].Pushing?
    ensures PushedWithin(s, p, s.procs[p].k, s.procs[p].b, 5)
  {
    hide PushedWithin;
    var c := s.procs[p];
    match c.push
    case First =>
      PushFromFirst(s, p, c.k, c.b);
      PushedMore(s, p, c.k, c.b, 3, 5);
    case Second =>
      PushFromSwap(Step(s, Exec(p)), p, c.k, c.b);
      PushedLater(s, p, c.k, c.b, 4, 5);
    case SwapIn =>
      PushFromSwap(s, p, c.k, c.b);
      PushedMore(s, p, c.k, c.b, 4, 5);
  }

  // ------------------------------------------------------------ a pop

  /**
   * The topmost block is in hand, with its header restored, or zeroed for a
   * node; or the process has given up and nothing has changed.
   */
  ghost predicate Ended(s: State, s': State, p: nat, k: StackId, gets: bool) {
    var c := Chain(s, k);
    && p in s'.procs
    && if gets then
         && c != [] && s'.procs[p] == Holding(c[|c| - 1]) && Chain(s', k) == c[..|c| - 1]
         && (forall m :: m != k ==> Chain(s', m) == Chain(s, m))
         && (if k == Lifo then Word(s', c[|c| - 1]) == Pair(0, 0)
             else 0 <= k.i < CLASSES && Word(s', c[|c| - 1]).lo == Capacity(k.i))
       else s'.procs[p] == Idle && s'.chain == s.chain
  }

  ghost predicate EndsWithin(s: State, p: nat, k: StackId, gets: bool, n: nat) {
    exists j :: 1 <= j <= n && Ended(s, Solo(s, p, j), p, k, gets)
  }

  lemma EndsNow(s: State, p: nat, k: StackId, gets: bool, m: nat)
    requires Ended(s, Step(s, Exec(p)), p, k, gets) && m >= 1
    ensures EndsWithin(s, p, k, gets, m)
  {
    SoloOne(s, p);
    hide Step, Ended, Solo;
    assert Ended(s, Solo(s, p, 1), p, k, gets);
  }

  lemma EndsLater(s: State, p: nat, k: StackId, gets: bool, n: nat, m: nat)
    requires EndsWithin(Step(s, Exec(p)), p, k, gets, n) && Step(s, Exec(p)).chain == s.chain && n < m
    ensures EndsWithin(s, p, k, gets, m)
  {
    SoloOne(s, p);
    var s1 := Step(s, Exec(p));
    hide Solo, Step;
    var j :| 1 <= j <= n && Ended(s1, Solo(s1, p, j), p, k, gets);
    SoloAdd(s, p, 1, j);
    assert Ended(s, Solo(s, p, 1 + j), p, k, gets);
  }

  lemma EndsMore(s: State, p: nat, k: StackId, gets: bool, n: nat, m: nat)
    requires EndsWithin(s, p, k, gets, n) && n <= m
    ensures EndsWithin(s, p, k, gets, m)
  {
    hide Ended, Solo;
  }

  /** The top of a stack, as the invariant has it. */
  lemma TopFacts(s: State, k: StackId)
    requires Inv(s)
    ensures var c := Chain(s, k);
            && Top(s, k).lo == (if c == [] then 0 else c[|c| - 1])
            && (c != [] ==> c[|c| - 1] >= HDR_END && (k.Bucket? ==> 0 <= k.i < CLASSES))
  {
    assert StackOk(s, k);
    hide ProcsOk;
    var c := Chain(s, k);
    if c != [] {
      assert c[|c| - 1] in s.home && s.home[c[|c| - 1]] == k;
    }
  }

  lemma LifoSwapEnds(s: State, p: nat, tb: Pair, v: int, after: int)
    requires p in s.procs && s.procs[p] == Popping(Lifo, SwapOut(tb, v, after)) && Top(s, Lifo) == tb
    requires var c := Chain(s, Lifo); c != [] && tb.lo == c[|c| - 1]
    ensures Ended(s, Step(Step(Step(s, Exec(p)), Exec(p)), Exec(p)), p, Lifo, true)
  {
    var s1 := Step(s, Exec(p));
    var s2 := Step(s1, Exec(p));
    assert s1.procs[p] == ZeroSlot(tb.lo) && s2.procs[p] == ZeroGen(tb.lo) && Word(s2, tb.lo).lo == 0;
  }

  lemma BucketSwapEnds(s: State, p: nat, k: StackId, tb: Pair, v: int, after: int)
    requires p in s.procs && s.procs[p] == Popping(k, SwapOut(tb, v, after)) && Top(s, k) == tb
    requires k.Bucket? && 0 <= k.i < CLASSES && var c := Chain(s, k); c != [] && tb.lo == c[|c| - 1]
    ensures Ended(s, Step(Step(s, Exec(p)), Exec(p)), p, k, true)
  {
    HeaderRestored(k.i);
    assert Step(s, Exec(p)).procs[p] == Restoring(k, tb.lo);
    hide RestoredHeader, Capacity, BucketOf;
  }

  /** A matching DWCAS, and the stores behind it: the header of a data block, or the two words of a node. */
  lemma SwapEnds(s: State, p: nat, k: StackId, tb: Pair, v: int, after: int)
    requires Inv(s) && p in s.procs && s.procs[p] == Popping(k, SwapOut(tb, v, after)) && Top(s, k) == tb && tb.lo != 0
    ensures EndsWithin(s, p, k, true, 3)
  {
    hide Inv, Ended, Step, Solo;
    TopFacts(s, k);
    SoloThree(s, p);
    if k == Lifo {
      LifoSwapEnds(s, p, tb, v, after);
      assert Ended(s, Solo(s, p, 3), p, k, true);
    } else {
      BucketSwapEnds(s, p, k, tb, v, after);
      assert Ended(s, Solo(s, p, 2), p, k, true);
    }
  }

  lemma SoloThree(s: State, p: nat)
    ensures Solo(s, p, 2) == Step(Step(s, Exec(p)), Exec(p))
    ensures Solo(s, p, 3) == Step(Step(Step(s, Exec(p)), Exec(p)), Exec(p))
  {
    SoloOne(s, p);
    hide Step;
  }

  // ------------------------------------------------------------ a pop from a bucket

  ghost predicate BucketPop(c: Proc) {
    c.Popping? && c.k.Bucket? && (c.pop.LoadTop? || c.pop.LoadCnt? || c.pop.LoadNext? || c.pop.SwapOut?)
  }

  /** From the top of the loop: it takes the topmost block, or finds none. */
  lemma PopFromTop(s: State, p: nat, k: StackId)
    requires Inv(s) && p in s.procs && s.procs[p] == Popping(k, LoadTop) && k.Bucket?
    ensures EndsWithin(s, p, k, Chain(s, k) != [], 6)
  {
    TopFacts(s, k);
    var t := Top(s, k);
    var s1 := Step(s, Exec(p));
    var s2 := Step(s1, Exec(p));
    assert s1 == At(s, p, Popping(k, LoadCnt(t.lo)));
    if t.lo == 0 {
      hide Inv;
      EndsNow(s1, p, k, false, 1);
      hide Step;
      EndsLater(s, p, k, false, 1, 6);
    } else {
      var s3 := Step(s2, Exec(p));
      StepInv(s, Exec(p));
      StepInv(s1, Exec(p));
      StepInv(s2, Exec(p));
      hide Inv;
      assert s2.procs[p] == Popping(k, LoadNext(t, 0));
      assert s3.procs[p] == Popping(k, SwapOut(t, 0, Word(s, t.lo).lo));
      SwapEnds(s3, p, k, t, 0, Word(s, t.lo).lo);
      EndsLater(s2, p, k, true, 3, 4);
      EndsLater(s1, p, k, true, 4, 5);
      EndsLater(s, p, k, true, 5, 6);
    }
  }

  lemma PopFromSwap(s: State, p: nat, k: StackId, tb: Pair, v: int, after: int)
    requires Inv(s) && p in s.procs && s.procs[p] == Popping(k, SwapOut(tb, v, after)) && k.Bucket? && tb.lo != 0
    ensures EndsWithin(s, p, k, Chain(s, k) != [], 7)
  {
    TopFacts(s, k);
    if Top(s, k) == tb {
      SwapEnds(s, p, k, tb, v, after);
      EndsMore(s, p, k, true, 3, 7);
    } else {
      var s1 := Step(s, Exec(p));
      assert s1 == At(s, p, Popping(k, LoadTop));
      StepInv(s, Exec(p));
      hide Inv, Step;
      PopFromTop(s1, p, k);
      EndsLater(s, p, k, Chain(s, k) != [], 6, 7);
    }
  }

  lemma PopFromNext(s: State, p: nat, k: StackId, tb: Pair, v: int)
    requires Inv(s) && p in s.procs && s.procs[p] == Popping(k, LoadNext(tb, v)) && k.Bucket? && tb.lo != 0
    ensures EndsWithin(s, p, k, Chain(s, k) != [], 8)
  {
    var s1 := Step(s, Exec(p));
    StepInv(s, Exec(p));
    assert s1 == At(s, p, Popping(k, SwapOut(tb, v, Word(s, tb.lo).lo)));
    hide Inv, Step;
    PopFromSwap(s1, p, k, tb, v, Word(s, tb.lo).lo);
    EndsLater(s, p, k, Chain(s, k) != [], 7, 8);
  }

  /** What the invariant says about the slot a popper has loaded. */
  lemma Loaded(s: State, p: nat)
    requires Inv(s) && p in s.procs && s.procs[p].Popping?
    ensures var at := s.procs[p].pop;
            at.LoadVal? || at.CheckTop? || at.CheckCnt? || at.LoadNext? || at.SwapOut? ==> at.tb.lo != 0
  {
    ProcFacts(s, p);
    hide StacksOk, PlacesOk;
  }

  /**
   * From any instruction, a pop from a bucket ends within 9 instructions.  It has
   * the topmost block in hand, its header restored, unless the bucket is empty,
   * or was when its slot was loaded and the counter has not been loaded yet; then
   * it gives up.
   */
  lemma PopFinishesAlone(s: State, p: nat)
    requires Inv(s) && p in s.procs && BucketPop(s.procs[p])
    ensures var c := s.procs[p];
            EndsWithin(s, p, c.k, Chain(s, c.k) != [] && !(c.pop.LoadCnt? && c.pop.lo == 0), 9)
  {
    var c := s.procs[p];
    Loaded(s, p);
    match c.pop
    case LoadTop =>
      hide Inv;
      PopFromTop(s, p, c.k);
      EndsMore(s, p, c.k, Chain(s, c.k) != [], 6, 9);
    case LoadCnt(lo) =>
      var s1 := Step(s, Exec(p));
      if lo == 0 {
        hide Inv;
        EndsNow(s, p, c.k, false, 9);
      } else {
        assert s1 == At(s, p, Popping(c.k, LoadNext(Pair(lo, Top(s, c.k).hi), 0)));
        StepInv(s, Exec(p));
        hide Inv, Step;
        PopFromNext(s1, p, c.k, Pair(lo, Top(s, c.k).hi), 0);
        EndsLater(s, p, c.k, Chain(s, c.k) != [], 8, 9);
      }
    case LoadNext(tb, v) =>
      hide Inv;
      PopFromNext(s, p, c.k, tb, v);
      EndsMore(s, p, c.k, Chain(s, c.k) != [], 8, 9);
    case SwapOut(tb, v, after) =>
      hide Inv;
      PopFromSwap(s, p, c.k, tb, v, after);
      EndsMore(s, p, c.k, Chain(s, c.k) != [], 7, 9);
  }

  // ------------------------------------------------------------ a pop from the LIFO

  ghost predicate LifoPop(c: Proc) {
    c.Popping? && c.k == Lifo && !c.pop.LoadTop? && !c.pop.LoadCnt?
  }

  /** The popper will take the top: there is one with a value, and neither its slot nor the counter has moved. */
  ghost predicate Gets(s: State, at: PopAt) {
    match at
    case LoadCntFirst => Chain(s, Lifo) != [] && Val(s, Top(s, Lifo).lo) != 0
    case LoadTopSecond(hi) => Chain(s, Lifo) != [] && Val(s, Top(s, Lifo).lo) != 0 && hi == Top(s, Lifo).hi
    case LoadVal(tb) => tb == Top(s, Lifo) && Val(s, tb.lo) != 0
    case CheckTop(tb, _) => tb == Top(s, Lifo)
    case CheckCnt(tb, _) => tb == Top(s, Lifo)
    case LoadNext(tb, _) => tb == Top(s, Lifo)
    case SwapOut(tb, _, _) => tb == Top(s, Lifo)
    case _ => false
  }

  ghost function Ahead(at: PopAt): nat {
    match at
    case LoadCntFirst => 7
    case LoadTopSecond(_) => 6
    case LoadVal(_) => 5
    case CheckTop(_, _) => 4
    case CheckCnt(_, _) => 3
    case LoadNext(_, _) => 2
    case _ => 1
  }

  /** A load leads on with the same prospect, or gives up without one. */
  lemma LifoLoad(s: State, p: nat, at: PopAt)
    requires Inv(s) && p in s.procs && s.procs[p] == Popping(Lifo, at) && LifoPop(s.procs[p]) && !at.SwapOut?
    ensures var s1 := Step(s, Exec(p));
            && p in s1.procs && s1 == At(s, p, s1.procs[p])
            && if s1.procs[p] == Idle then !Gets(s, at)
               else
                 && LifoPop(s1.procs[p]) && s1.procs[p] == Popping(Lifo, s1.procs[p].pop)
                 && Ahead(s1.procs[p].pop) < Ahead(at)
                 && (Gets(s1, s1.procs[p].pop) <==> Gets(s, at))
  {
    TopFacts(s, Lifo);
    Loaded(s, p);
    hide Inv;
  }

  lemma {:induction false} LifoFrom(s: State, p: nat)
    requires Inv(s) && p in s.procs && LifoPop(s.procs[p])
    ensures EndsWithin(s, p, Lifo, Gets(s, s.procs[p].pop), Ahead(s.procs[p].pop) + 2)
    decreases Ahead(s.procs[p].pop)
  {
    var at := s.procs[p].pop;
    Loaded(s, p);
    hide Inv, EndsWithin;
    if at.SwapOut? {
      if Top(s, Lifo) == at.tb {
        SwapEnds(s, p, Lifo, at.tb, at.v, at.after);
      } else {
        EndsNow(s, p, Lifo, false, 3);
      }
    } else {
      var s1 := Step(s, Exec(p));
      LifoLoad(s, p, at);
      StepInv(s, Exec(p));
      if s1.procs[p] == Idle {
        EndsNow(s, p, Lifo, false, Ahead(at) + 2);
      } else {
        hide Step;
        LifoFrom(s1, p);
        EndsLater(s, p, Lifo, Gets(s, at), Ahead(s1.procs[p].pop) + 2, Ahead(at) + 2);
      }
    }
  }

  /**
   * From any instruction, a pop from the LIFO ends within 9 instructions: with
   * the topmost node in hand, zeroed, exactly if it will be found as it was
   * loaded; else it gives up and has changed nothing.
   */
  lemma LifoFinishesAlone(s: State, p: nat)
    requires Inv(s) && p in s.procs && LifoPop(s.procs[p])
    ensures EndsWithin(s, p, Lifo, Gets(s, s.procs[p].pop), 9)
  {
    hide Inv, EndsWithin;
    LifoFrom(s, p);
    EndsMore(s, p, Lifo, Gets(s, s.procs[p].pop), Ahead(s.procs[p].pop) + 2, 9);
  }

  // ------------------------------------------------------------ from the call on

  /**
   * Alone from the call on, a pop gets the topmost block exactly if there is one,
   * of the LIFO one with a value; else it comes back with nothing.
   */
  lemma PopCalledAlone(s: State, p: nat, k: StackId)
    requires Inv(s) && p in s.procs && s.procs[p] == Idle
    ensures var c := Chain(s, k);
            var gets := c != [] && (k == Lifo ==> Val(s, c[|c| - 1]) != 0);
            EndsWithin(Step(s, BeginPop(p, k)), p, k, gets, 9) && Step(s, BeginPop(p, k)).chain == s.chain
  {
    TopFacts(s, k);
    StepInv(s, BeginPop(p, k));
    hide Inv, EndsWithin;
    var s1 := Step(s, BeginPop(p, k));
    assert Chain(s1, k) == Chain(s, k) && Top(s1, k) == Top(s, k);
    if k == Lifo {
      LifoFinishesAlone(s1, p);
    } else {
      PopFinishesAlone(s1, p);
    }
  }

  /** And a push of a block in hand puts it on its own stack, whatever is there. */
  lemma PushCalledAlone(s: State, p: nat)
    requires Inv(s) && p in s.procs && s.procs[p].Holding?
    ensures var b := s.procs[p].b;
            && b in s.home && Step(s, BeginPush(p)).chain == s.chain
            && PushedWithin(Step(s, BeginPush(p)), p, s.home[b], b, 5)
  {
    assert ProcOk(s, p, s.procs[p]);
    hide StacksOk, PushedWithin;
    TargetIsHome(s, s.procs[p].b);
    PushFinishesAlone(Step(s, BeginPush(p)), p);
  }
}
