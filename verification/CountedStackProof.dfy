/**
 * The invariant of the counted stacks, and what it gives.
 */
module CountedStackProof {
  import opened Layout
  import opened SizeClass
  import opened CountedStack

  /** The memory spells out the chain: from the top down, ending in 0. */
  ghost predicate StackOk(s: State, k: StackId) {
    var c := Chain(s, k);
    && Top(s, k).lo == (if c == [] then 0 else c[|c| - 1])
    && (forall i :: 0 <= i < |c| ==>
          c[i] in s.word && c[i] in s.place && s.place[c[i]] == Stacked(k, i) && c[i] in s.home && s.home[c[i]] == k)
    && (c != [] ==> Word(s, c[0]).lo == 0)
    && (forall i, j :: 0 <= i && j == i + 1 && j < |c| ==> Word(s, c[j]).lo == c[i])
  }

  ghost predicate StacksOk(s: State) {
    forall k :: StackOk(s, k)
  }

  predicate Owns(c: Proc, b: int) {
    (c.Holding? || c.Pushing? || c.Restoring? || c.ZeroSlot? || c.ZeroGen?) && c.b == b
  }

  /** The block is held, and its holder has it. */
  ghost predicate HeldOk(s: State, b: int) {
    b in s.place && s.place[b].Held? && s.place[b].p in s.procs && Owns(s.procs[s.place[b].p], b)
  }

  ghost predicate PlaceOk(s: State, b: int, at: Place) {
    match at
    case Stacked(k, i) => i < |Chain(s, k)| && Chain(s, k)[i] == b
    case Held(p) => p in s.procs && Owns(s.procs[p], b)
  }

  ghost predicate PlacesOk(s: State) {
    && s.place.Keys == s.word.Keys == s.val.Keys == s.home.Keys
    && (forall b :: b in s.place ==> HDR_END <= b && PlaceOk(s, b, s.place[b]))
    && (forall b :: b in s.home && s.home[b].Bucket? ==> 0 <= s.home[b].i < CLASSES)
  }

  ghost predicate OwnBlock(s: State, p: nat, b: int) {
    b in s.place && s.place[b] == Held(p) && b in s.home
  }

  /** What a popper has loaded holds as long as the counter has not moved. */
  ghost predicate PopSnap(s: State, k: StackId, at: PopAt) {
    match at
    case LoadTop => k != Lifo
    case LoadCnt(lo) => k != Lifo
    case LoadTopSecond(hi) => hi <= Top(s, k).hi
    case LoadVal(tb) => tb.hi <= Top(s, k).hi && tb.lo != 0
    case CheckTop(tb, v) => Seen(s, k, tb, v)
    case CheckCnt(tb, v) => Seen(s, k, tb, v)
    case LoadNext(tb, v) => Seen(s, k, tb, v)
    case SwapOut(tb, v, after) => Seen(s, k, tb, v) && (Top(s, k) == tb ==> after == Word(s, tb.lo).lo)
    case LoadCntFirst => true
  }

  ghost predicate Seen(s: State, k: StackId, tb: Pair, v: int) {
    tb.lo != 0 && tb.hi <= Top(s, k).hi && (k == Lifo && Top(s, k) == tb ==> v == Val(s, tb.lo))
  }

  /** The header of a data block in use is the capacity of its class. */
  ghost predicate HeaderOk(s: State, b: int) {
    b in s.home && (s.home[b].Bucket? && s.home[b].i >= 0 ==> Word(s, b).lo == Capacity(s.home[b].i))
  }

  ghost predicate ProcOk(s: State, p: nat, c: Proc) {
    match c
    case Idle => true
    case Holding(b) => OwnBlock(s, p, b) && HeaderOk(s, b)
    case Pushing(k, b, _) => OwnBlock(s, p, b) && s.home[b] == k
    case Popping(k, at) => PopSnap(s, k, at)
    case Restoring(k, b) => OwnBlock(s, p, b) && s.home[b] == k && k.Bucket?
    case ZeroSlot(b) => OwnBlock(s, p, b) && s.home[b] == Lifo
    case ZeroGen(b) => OwnBlock(s, p, b) && s.home[b] == Lifo
  }

  ghost predicate ProcsOk(s: State) {
    forall p :: p in s.procs ==> ProcOk(s, p, s.procs[p])
  }

  ghost predicate Inv(s: State) {
    StacksOk(s) && PlacesOk(s) && ProcsOk(s)
  }

  // ------------------------------------------------------------ framing

  /** A stack whose counter has not moved has not changed. */
  ghost predicate TopKept(s: State, s': State, k: StackId) {
    if Top(s', k) == Top(s, k) then
      Top(s, k).lo != 0 ==>
          Word(s', Top(s, k).lo) == Word(s, Top(s, k).lo) && Val(s', Top(s, k).lo) == Val(s, Top(s, k).lo)
    else
      Top(s', k).hi > Top(s, k).hi
  }

  /** What a step of the processes `ps` leaves alone for the other processes. */
  ghost predicate Others(s: State, s': State, ps: set<nat>) {
    && s'.procs.Keys == s.procs.Keys
    && (forall o :: o in s.procs && o !in ps ==> s'.procs[o] == s.procs[o])
    && (forall b :: b in s.place && s.place[b].Held? && s.place[b].p !in ps ==>
          b in s'.place && s'.place[b] == s.place[b] && Word(s', b) == Word(s, b))
    && (forall b :: b in s.home ==> b in s'.home && s'.home[b] == s.home[b])
    && (forall k :: TopKept(s, s', k))
  }

  lemma OtherOk(s: State, s': State, ps: set<nat>, o: nat)
    requires Others(s, s', ps) && o in s.procs && o !in ps && ProcOk(s, o, s.procs[o])
    ensures ProcOk(s', o, s'.procs[o])
  {
    var c := s.procs[o];
    if c.Popping? {
      assert TopKept(s, s', c.k);
    }
  }

  lemma ProcsKept(s: State, s': State, ps: set<nat>)
    requires Others(s, s', ps) && ProcsOk(s)
    requires forall p :: p in ps && p in s'.procs ==> ProcOk(s', p, s'.procs[p])
    ensures ProcsOk(s')
  {
    forall o | o in s'.procs ensures ProcOk(s', o, s'.procs[o]) {
      hide ProcOk;
      if o !in ps {
        assert ProcOk(s, o, s.procs[o]);
        OtherOk(s, s', ps, o);
      }
    }
  }

  /** A step that leaves the stacks alone; it touches only blocks held by `ps`, or fresh ones. */
  ghost predicate BlockStep(s: State, s': State, ps: set<nat>) {
    && s'.top == s.top && s'.chain == s.chain
    && s'.procs.Keys == s.procs.Keys
    && (forall o :: o in s.procs && o !in ps ==> s'.procs[o] == s.procs[o])
    && s.place.Keys <= s'.place.Keys && s'.place.Keys == s'.word.Keys == s'.val.Keys == s'.home.Keys
    && (forall b :: b in s.home ==> b in s'.home && s'.home[b] == s.home[b])
    && (forall b :: b in s'.home && b !in s.home && s'.home[b].Bucket? ==> 0 <= s'.home[b].i < CLASSES)
    && (forall b :: b in s.place && (s.place[b].Stacked? || s.place[b].p !in ps) ==>
          b in s'.place && s'.place[b] == s.place[b] && Word(s', b) == Word(s, b) && Val(s', b) == Val(s, b))
    && (forall b :: b in s'.place && (b !in s.place || (s.place[b].Held? && s.place[b].p in ps)) ==>
          HDR_END <= b && HeldOk(s', b))
  }

  lemma HeldPlace(s: State, b: int)
    requires PlacesOk(s) && b in s.place && s.place[b].Held?
    ensures HeldOk(s, b) && HDR_END <= b
  {
    assert PlaceOk(s, b, s.place[b]);
  }

  lemma BlockStepStacks(s: State, s': State, ps: set<nat>)
    requires BlockStep(s, s', ps) && StacksOk(s)
    ensures StacksOk(s')
  {
    forall k ensures StackOk(s', k) {
      hide StackOk;
      assert StackOk(s, k);
      StackKept(s, s', k);
    }
  }

  /** A stack none of whose blocks changes. */
  lemma StackKept(s: State, s': State, k: StackId)
    requires StackOk(s, k) && Top(s', k) == Top(s, k) && Chain(s', k) == Chain(s, k)
    requires forall b :: b in s.place && s.place[b].Stacked? && s.place[b].k == k ==>
               b in s'.place && s'.place[b] == s.place[b] && b in s'.word && Word(s', b) == Word(s, b)
    requires forall b :: b in s.home ==> b in s'.home && s'.home[b] == s.home[b]
    ensures StackOk(s', k)
  {
    var c := Chain(s, k);
    forall i | 0 <= i < |c| ensures c[i] in s'.word && c[i] in s'.place && s'.place[c[i]] == Stacked(k, i) &&
        Word(s', c[i]) == Word(s, c[i]) {
      var b := c[i];
      assert b in s.place && s.place[b] == Stacked(k, i);
      assert b in s'.place && s'.place[b] == s.place[b];
    }
  }

  lemma BlockStepPlaces(s: State, s': State, ps: set<nat>)
    requires BlockStep(s, s', ps) && PlacesOk(s)
    ensures PlacesOk(s')
  {
    forall b | b in s'.place ensures HDR_END <= b && PlaceOk(s', b, s'.place[b]) {
      if b in s.place {
        assert PlaceOk(s, b, s.place[b]);
      }
    }
  }

  lemma TopPlace(s: State, k: StackId)
    requires StackOk(s, k) && Top(s, k).lo != 0
    ensures var b, i := Top(s, k).lo, |Chain(s, k)| - 1;
            i >= 0 && Chain(s, k)[i] == b && b in s.word && b in s.place && s.place[b] == Stacked(k, i) &&
                b in s.home && s.home[b] == k
  {
  }

  lemma BlockStepOthers(s: State, s': State, ps: set<nat>)
    requires BlockStep(s, s', ps) && StacksOk(s)
    ensures Others(s, s', ps)
  {
    forall k ensures TopKept(s, s', k) {
      hide StackOk;
      assert StackOk(s, k);
      if Top(s, k).lo != 0 {
        TopPlace(s, k);
      }
    }
  }

  lemma BlockStepInv(s: State, s': State, ps: set<nat>)
    requires Inv(s) && BlockStep(s, s', ps)
    requires forall p :: p in ps && p in s'.procs ==> ProcOk(s', p, s'.procs[p])
    ensures Inv(s')
  {
    hide StacksOk, PlacesOk, ProcsOk, ProcOk, BlockStep, Others;
    BlockStepStacks(s, s', ps);
    BlockStepPlaces(s, s', ps);
    BlockStepOthers(s, s', ps);
    ProcsKept(s, s', ps);
  }
}
