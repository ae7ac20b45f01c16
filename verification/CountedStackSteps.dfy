/**
 * Every step of the counted stacks keeps the invariant.
 */
module CountedStackSteps {
  import opened Layout
  import opened SizeClass
  import opened CountedStack
  import opened CountedStackProof

  // ------------------------------------------------------------ steps that leave the stacks alone

  lemma StoreIsBlockStep(s: State, p: nat, b: int, w: Pair, c': Proc)
    requires PlacesOk(s) && p in s.procs && OwnBlock(s, p, b)
    requires forall m :: Owns(s.procs[p], m) <==> Owns(c', m)
    ensures BlockStep(s, At(Store(s, b, w), p, c'), {p})
  {
    hide PlaceOk;
    var s' := At(Store(s, b, w), p, c');
    forall m | m in s'.place && s.place[m].Held? && s.place[m].p in {p} ensures HDR_END <= m && HeldOk(s', m) {
      HeldPlace(s, m);
    }
  }

  /** A store to a block the process owns. */
  lemma OwnStore(s: State, p: nat, b: int, w: Pair, c': Proc)
    requires Inv(s) && p in s.procs && OwnBlock(s, p, b)
    requires forall m :: Owns(s.procs[p], m) <==> Owns(c', m)
    requires ProcOk(At(Store(s, b, w), p, c'), p, c')
    ensures Inv(At(Store(s, b, w), p, c'))
  {
    hide StacksOk, ProcsOk, ProcOk, BlockStep;
    StoreIsBlockStep(s, p, b, w, c');
    BlockStepInv(s, At(Store(s, b, w), p, c'), {p});
  }

  lemma LocalIsBlockStep(s: State, p: nat, c': Proc)
    requires PlacesOk(s) && p in s.procs
    requires forall m :: Owns(s.procs[p], m) <==> Owns(c', m)
    ensures BlockStep(s, At(s, p, c'), {p})
  {
    hide PlaceOk;
    var s' := At(s, p, c');
    forall m | m in s'.place && s.place[m].Held? && s.place[m].p in {p} ensures HDR_END <= m && HeldOk(s', m) {
      HeldPlace(s, m);
    }
  }

  lemma LocalProc(s: State, p: nat, c': Proc)
    requires ProcOk(s, p, c')
    ensures ProcOk(At(s, p, c'), p, c')
  {
  }

  /** A load, or any other step that only moves the process on. */
  lemma LocalStep(s: State, p: nat, c': Proc)
    requires Inv(s) && p in s.procs
    requires forall m :: Owns(s.procs[p], m) <==> Owns(c', m)
    requires ProcOk(s, p, c')
    ensures Inv(At(s, p, c'))
  {
    hide StacksOk, ProcsOk, ProcOk, BlockStep;
    LocalIsBlockStep(s, p, c');
    LocalProc(s, p, c');
    BlockStepInv(s, At(s, p, c'), {p});
  }

  lemma ProcFacts(s: State, p: nat)
    requires Inv(s) && p in s.procs
    ensures ProcOk(s, p, s.procs[p]) && PlacesOk(s)
  {
  }

  /** The blocks in hand, as far as a block step needs them. */
  ghost predicate HandsOk(s: State) {
    && s.place.Keys == s.word.Keys == s.val.Keys == s.home.Keys
    && forall b :: b in s.place && s.place[b].Held? ==> HeldOk(s, b) && HDR_END <= b
  }

  lemma Hands(s: State)
    requires PlacesOk(s)
    ensures HandsOk(s)
  {
    forall b | b in s.place && s.place[b].Held? ensures HeldOk(s, b) && HDR_END <= b {
      HeldPlace(s, b);
    }
  }

  /** An idle process has no block in hand. */
  lemma IdleHands(s: State, p: nat)
    requires HandsOk(s) && p in s.procs && s.procs[p] == Idle
    ensures forall m :: m in s.place && s.place[m].Held? ==> s.place[m].p != p
  {
  }

  lemma FreshIsBlockStep(s: State, p: nat, b: int, k: StackId)
    requires s.place.Keys == s.word.Keys == s.val.Keys == s.home.Keys
    requires p in s.procs && s.procs[p] == Idle && forall m :: m in s.place && s.place[m].Held? ==> s.place[m].p != p
    requires b !in s.word && b >= HDR_END && (k.Bucket? ==> 0 <= k.i < CLASSES)
    ensures BlockStep(s, Created(s, p, b, k), {p})
  {
    hide FreshHeader;
  }

  lemma FreshProc(s: State, p: nat, b: int, k: StackId)
    requires p in s.procs && s.procs[p] == Idle
    requires b !in s.word && b >= HDR_END && (k.Bucket? ==> 0 <= k.i < CLASSES)
    ensures Step(s, Fresh(p, b, k)) == Created(s, p, b, k)
    ensures ProcOk(Created(s, p, b, k), p, Created(s, p, b, k).procs[p])
  {
  }

  lemma FreshStep(s: State, p: nat, b: int, k: StackId)
    requires Inv(s) && p in s.procs && s.procs[p] == Idle
    requires b !in s.word && b >= HDR_END && (k.Bucket? ==> 0 <= k.i < CLASSES)
    ensures Inv(Step(s, Fresh(p, b, k)))
  {
    hide StacksOk, ProcsOk, PlacesOk, BlockStep, ProcOk, Step, Created;
    Hands(s);
    IdleHands(s, p);
    FreshProc(s, p, b, k);
    FreshIsBlockStep(s, p, b, k);
    BlockStepInv(s, Created(s, p, b, k), {p});
  }

  lemma WriteIsBlockStep(s: State, p: nat, b: int, w: Pair, v: int)
    requires HandsOk(s) && b in s.place && s.place[b] == Held(p)
    ensures BlockStep(s, Written(s, b, w, v), {p})
  {
  }

  lemma WriteProc(s: State, p: nat, w: Pair, v: int)
    requires p in s.procs && s.procs[p].Holding? && ProcOk(s, p, s.procs[p])
    ensures var s' := Step(s, Write(p, w, v));
            && s'.procs == s.procs && ProcOk(s', p, s.procs[p])
            && (s' == s || s' == Written(s, s.procs[p].b, w, v))
  {
  }

  lemma WriteStep(s: State, p: nat, w: Pair, v: int)
    requires Inv(s) && p in s.procs
    ensures Inv(Step(s, Write(p, w, v)))
  {
    hide StacksOk, ProcsOk, PlacesOk, BlockStep, ProcOk, HandsOk;
    ProcFacts(s, p);
    Hands(s);
    if Step(s, Write(p, w, v)) != s {
      HoldingPlace(s, p);
      WriteProc(s, p, w, v);
      WriteIsBlockStep(s, p, s.procs[p].b, w, v);
      hide Step, Written;
      BlockStepInv(s, Step(s, Write(p, w, v)), {p});
    }
  }

  lemma HoldingPlace(s: State, p: nat)
    requires p in s.procs && s.procs[p].Holding? && ProcOk(s, p, s.procs[p])
    ensures s.procs[p].b in s.place && s.place[s.procs[p].b] == Held(p)
  {
  }

  lemma GiveIsBlockStep(s: State, p: nat, to: nat)
    requires HandsOk(s) && p in s.procs && s.procs[p].Holding? && s.procs[p].b in s.place
    requires s.place[s.procs[p].b] == Held(p)
    requires to in s.procs && s.procs[to] == Idle
    ensures BlockStep(s, Step(s, Give(p, to)), {p, to})
  {
    IdleHands(s, to);
  }

  lemma GiveProcs(s: State, p: nat, to: nat)
    requires p in s.procs && s.procs[p].Holding? && ProcOk(s, p, s.procs[p]) && to in s.procs && s.procs[to] == Idle
    ensures forall o :: o in {p, to} ==> o in s.procs && ProcOk(Step(s, Give(p, to)), o, Step(s, Give(p, to)).procs[o])
  {
  }

  lemma GiveStep(s: State, p: nat, to: nat)
    requires Inv(s) && p in s.procs
    ensures Inv(Step(s, Give(p, to)))
  {
    hide StacksOk, ProcsOk, PlacesOk, BlockStep, ProcOk, HandsOk;
    ProcFacts(s, p);
    Hands(s);
    if Step(s, Give(p, to)) != s {
      HoldingPlace(s, p);
      GiveProcs(s, p, to);
      GiveIsBlockStep(s, p, to);
      hide Step;
      BlockStepInv(s, Step(s, Give(p, to)), {p, to});
    }
  }

  /** free_data_slots picks the stack the block belongs on. */
  lemma TargetIsHome(s: State, b: int)
    requires PlacesOk(s) && HeaderOk(s, b)
    ensures Target(s, b) == s.home[b]
  {
    if s.home[b].Bucket? {
      HeaderRestored(s.home[b].i);
    }
  }

  lemma BeginPushStep(s: State, p: nat)
    requires Inv(s) && p in s.procs
    ensures Inv(Step(s, BeginPush(p)))
  {
    ProcFacts(s, p);
    var c := s.procs[p];
    hide StacksOk, ProcsOk;
    if c.Holding? {
      TargetIsHome(s, c.b);
      LocalStep(s, p, Pushing(Target(s, c.b), c.b, First));
    }
  }

  lemma BeginPopStep(s: State, p: nat, k: StackId)
    requires Inv(s) && p in s.procs
    ensures Inv(Step(s, BeginPop(p, k)))
  {
    hide StacksOk, ProcsOk, PlacesOk;
    if s.procs[p] == Idle {
      LocalStep(s, p, Popping(k, if k == Lifo then LoadCntFirst else LoadTop));
    }
  }

  /** The private stores: the two copies of a push, the restored header, the memset. */
  lemma StoreStep(s: State, p: nat)
    requires Inv(s) && p in s.procs
    requires var c := s.procs[p]; c.Restoring? || c.ZeroSlot? || c.ZeroGen? || (c.Pushing? && !c.push.SwapIn?)
    ensures Inv(Step(s, Exec(p)))
  {
    ProcFacts(s, p);
    var c := s.procs[p];
    var s' := Step(s, Exec(p));
    hide StacksOk, ProcsOk;
    StoreProc(s, p);
    assert s' == At(Store(s, c.b, Word(s', c.b)), p, s'.procs[p]);
    OwnStore(s, p, c.b, Word(s', c.b), s'.procs[p]);
  }

  lemma StoreProc(s: State, p: nat)
    requires p in s.procs && ProcOk(s, p, s.procs[p]) && PlacesOk(s)
    requires var c := s.procs[p]; c.Restoring? || c.ZeroSlot? || c.ZeroGen? || (c.Pushing? && !c.push.SwapIn?)
    ensures var s' := Step(s, Exec(p)); ProcOk(s', p, s'.procs[p])
  {
    var c := s.procs[p];
    if c.Restoring? {
      HeaderRestored(c.k.i);
    }
  }

  lemma LoadProc(s: State, p: nat, k: StackId, at: PopAt)
    requires StackOk(s, k) && PopSnap(s, k, at) && !at.SwapOut?
    ensures var c' := ExecPop(s, p, k, at).procs[p];
            ExecPop(s, p, k, at) == At(s, p, c') && ProcOk(s, p, c') && (c' == Idle || c'.Popping?)
  {
  }

  lemma LoadStep(s: State, p: nat)
    requires Inv(s) && p in s.procs && s.procs[p].Popping? && !s.procs[p].pop.SwapOut?
    ensures Inv(Step(s, Exec(p)))
  {
    var c := s.procs[p];
    assert StackOk(s, c.k);
    ProcFacts(s, p);
    hide StacksOk, ProcsOk, StackOk, PlacesOk;
    LoadProc(s, p, c.k, c.pop);
    LocalStep(s, p, Step(s, Exec(p)).procs[p]);
  }

  // ------------------------------------------------------------ the DWCASes

  ghost predicate Pushes(s: State, s': State, p: nat, k: StackId, b: int) {
    && p in s.procs && s.procs[p] == Pushing(k, b, SwapIn) && OwnBlock(s, p, b) && s.home[b] == k
    && Top(s, k) == Word(s, b)
    && s'.word == s.word && s'.val == s.val && s'.home == s.home
    && s'.top == s.top[k := Pair(b, Top(s, k).hi + 1)]
    && s'.chain == s.chain[k := Chain(s, k) + [b]]
    && s'.place == s.place[b := Stacked(k, |Chain(s, k)|)]
    && s'.procs == s.procs[p := Idle]
  }

  lemma PushesStack(s: State, s': State, p: nat, k: StackId, b: int)
    requires Pushes(s, s', p, k, b) && StackOk(s, k) && b in s.word
    ensures StackOk(s', k)
  {
    var c, c' := Chain(s, k), Chain(s', k);
    assert c' == c + [b];
    forall i, j | 0 <= i && j == i + 1 && j < |c'| ensures Word(s', c'[j]).lo == c'[i] {
      if j < |c| {
        assert c'[j] == c[j] && c'[i] == c[i];
      }
    }
    forall i | 0 <= i < |c| ensures c[i] != b {
      assert s.place[c[i]] == Stacked(k, i);
    }
  }

  lemma PushesPlaces(s: State, s': State, p: nat, k: StackId, b: int)
    requires Pushes(s, s', p, k, b) && PlacesOk(s)
    ensures PlacesOk(s')
  {
    forall m | m in s'.place ensures PlaceOk(s', m, s'.place[m]) {
      assert PlaceOk(s, m, s.place[m]);
      hide PlacesOk;
    }
  }

  lemma PushesInv(s: State, s': State, p: nat, k: StackId, b: int)
    requires Inv(s) && Pushes(s, s', p, k, b)
    ensures Inv(s')
  {
    assert Others(s, s', {p});
    hide ProcsOk, ProcOk, StackOk, PlaceOk;
    forall m ensures StackOk(s', m) {
      assert StackOk(s, m);
      if m == k {
        PushesStack(s, s', p, k, b);
      } else {
        StackKept(s, s', m);
      }
    }
    PushesPlaces(s, s', p, k, b);
    IdleOk(s', p);
    ProcsKept(s, s', {p});
  }

  lemma IdleOk(s: State, p: nat)
    ensures ProcOk(s, p, Idle)
  {
  }

  ghost predicate Pops(s: State, s': State, p: nat, k: StackId, b: int) {
    var c := Chain(s, k);
    && p in s.procs && s.procs[p].Popping?
    && c != [] && b == c[|c| - 1] && Top(s, k).lo == b && b != 0
    && s'.word == s.word && s'.val == s.val && s'.home == s.home
    && s'.top == s.top[k := Pair(Word(s, b).lo, Top(s, k).hi + 1)]
    && s'.chain == s.chain[k := c[..|c| - 1]]
    && s'.place == s.place[b := Held(p)]
    && s'.procs == s.procs[p := if k == Lifo then ZeroSlot(b) else Restoring(k, b)]
  }

  lemma PopsStack(s: State, s': State, p: nat, k: StackId, b: int)
    requires Pops(s, s', p, k, b) && StackOk(s, k)
    ensures StackOk(s', k)
  {
    var c, c' := Chain(s, k), Chain(s', k);
    TopPlace(s, k);
    if |c| > 1 {
      assert Word(s, c[|c| - 1]).lo == c[|c| - 2];
    }
    forall i | 0 <= i < |c'| ensures c'[i] in s'.place && s'.place[c'[i]] == Stacked(k, i) {
      assert s.place[c[i]] == Stacked(k, i);
    }
  }

  lemma PopsPlaces(s: State, s': State, p: nat, k: StackId, b: int)
    requires Pops(s, s', p, k, b) && PlacesOk(s) && StackOk(s, k)
    ensures PlacesOk(s')
  {
    forall m | m in s'.place ensures PlaceOk(s', m, s'.place[m]) {
      assert PlaceOk(s, m, s.place[m]);
      hide PlacesOk;
    }
  }

  lemma PopsOthers(s: State, s': State, p: nat, k: StackId, b: int)
    requires Pops(s, s', p, k, b) && StackOk(s, k)
    ensures Others(s, s', {p}) && ProcOk(s', p, s'.procs[p])
  {
  }

  lemma PopsInv(s: State, s': State, p: nat, k: StackId, b: int)
    requires Inv(s) && Pops(s, s', p, k, b)
    ensures Inv(s')
  {
    hide PlaceOk, ProcsOk, ProcOk, StackOk, Others;
    assert StackOk(s, k);
    forall m ensures StackOk(s', m) {
      assert StackOk(s, m);
      if m == k {
        PopsStack(s, s', p, k, b);
      } else {
        TopPlace(s, k);
        StackKept(s, s', m);
      }
    }
    PopsPlaces(s, s', p, k, b);
    PopsOthers(s, s', p, k, b);
    ProcsKept(s, s', {p});
  }

  lemma PushSwapStep(s: State, p: nat, k: StackId, b: int)
    requires Inv(s) && p in s.procs && s.procs[p] == Pushing(k, b, SwapIn)
    ensures Inv(Step(s, Exec(p)))
  {
    ProcFacts(s, p);
    hide StacksOk, ProcsOk, PlacesOk;
    if Top(s, k) == Word(s, b) {
      assert Pushes(s, Step(s, Exec(p)), p, k, b);
      PushesInv(s, Step(s, Exec(p)), p, k, b);
    } else {
      LocalStep(s, p, Pushing(k, b, First));
    }
  }

  /** A pop whose DWCAS would succeed has the true top, its true successor and, for the LIFO, its value. */
  lemma PopTarget(s: State, k: StackId, tb: Pair, v: int, after: int)
    requires StackOk(s, k) && PopSnap(s, k, SwapOut(tb, v, after)) && Top(s, k) == tb
    ensures var c := Chain(s, k);
            && c != [] && tb.lo == c[|c| - 1]
            && after == (if |c| == 1 then 0 else c[|c| - 2])
            && after == Word(s, tb.lo).lo
            && (k == Lifo ==> v == Val(s, tb.lo))
  {
    var c := Chain(s, k);
    if |c| > 1 {
      assert Word(s, c[|c| - 1]).lo == c[|c| - 2];
    }
  }

  lemma PopSwapStep(s: State, p: nat, k: StackId, tb: Pair, v: int, after: int)
    requires Inv(s) && p in s.procs && s.procs[p] == Popping(k, SwapOut(tb, v, after))
    ensures Inv(Step(s, Exec(p)))
  {
    ProcFacts(s, p);
    assert StackOk(s, k);
    hide StacksOk, ProcsOk, PlacesOk, StackOk;
    if Top(s, k) == tb {
      PopTarget(s, k, tb, v, after);
      assert Pops(s, Step(s, Exec(p)), p, k, tb.lo);
      PopsInv(s, Step(s, Exec(p)), p, k, tb.lo);
    } else {
      LocalStep(s, p, if k == Lifo then Idle else Popping(k, LoadTop));
    }
  }

  lemma StepInv(s: State, a: Action)
    requires Inv(s)
    ensures Inv(Step(s, a))
  {
    hide Inv, ProcOk;
    if a.p in s.procs && Step(s, a) != s {
      match a
      case Fresh(p, b, k) => FreshStep(s, p, b, k);
      case Write(p, w, v) => WriteStep(s, p, w, v);
      case Give(p, to) => GiveStep(s, p, to);
      case BeginPush(p) => BeginPushStep(s, p);
      case BeginPop(p, k) => BeginPopStep(s, p, k);
      case Exec(p) =>
        match s.procs[p]
        case Pushing(k, b, at) => if at.SwapIn? { PushSwapStep(s, p, k, b); } else { StoreStep(s, p); }
        case Popping(k, at) => if at.SwapOut? { PopSwapStep(s, p, k, at.tb, at.v, at.after); } else { LoadStep(s, p); }
        case _ => StoreStep(s, p);
    }
  }
}
