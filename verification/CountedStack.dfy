/**
 * The lock-free stacks with a counter next to their top: one for each size
 * class of freed data blocks, and the LIFO stack of queued nodes.  Every step is
 * one load (with the private store it feeds), one store or one DWCAS; the
 * processes and their interleaving are arbitrary.
 */
module CountedStack {
  import opened Layout
  import opened SizeClass

  /** Where a block is: on a stack, counted from the bottom, or with a process. */
  datatype Place = Stacked(k: StackId, i: nat) | Held(p: nat)

  /** The DO loops of free_data_slots and lifo_add. */
  datatype PushAt = First | Second | SwapIn

  /** lookup_freed_data starts at LoadTop, lifo_remove at LoadCntFirst. */
  datatype PopAt =
    | LoadTop
    | LoadCnt(lo: int)
    | LoadCntFirst
    | LoadTopSecond(hi: int)
    | LoadVal(tb: Pair)
    | CheckTop(tb: Pair, v: int)
    | CheckCnt(tb: Pair, v: int)
    | LoadNext(tb: Pair, v: int)
    | SwapOut(tb: Pair, v: int, after: int)

  datatype Proc =
    | Idle
    | Holding(b: int)
    | Pushing(k: StackId, b: int, push: PushAt)
    | Popping(k: StackId, pop: PopAt)
    | Restoring(k: StackId, b: int)      // lookup_freed_data writes the header back
    | ZeroSlot(b: int)                   // the memset in remove_top
    | ZeroGen(b: int)

  /**
   * `word` holds the first two slots of every block, `val` the data slot a node
   * carries, `top` the header words of the stacks.  `chain` (bottom first),
   * `place` and `home`, the stack a block belongs on, are history.
   */
  datatype State = State(
    word: map<int, Pair>,
    val: map<int, int>,
    top: map<StackId, Pair>,
    procs: map<nat, Proc>,
    chain: map<StackId, seq<int>>,
    place: map<int, Place>,
    home: map<int, StackId>)

  datatype Action =
    | Fresh(p: nat, b: int, k: StackId)   // alloc_new_data carves a block
    | Write(p: nat, w: Pair, v: int)      // the holder uses the block
    | Give(p: nat, to: nat)               // the block goes to another process by way of a list
    | BeginPush(p: nat)
    | BeginPop(p: nat, k: StackId)
    | Exec(p: nat)

  function Word(s: State, b: int): Pair {
    if b in s.word then s.word[b] else Pair(0, 0)
  }

  function Val(s: State, b: int): int {
    if b in s.val then s.val[b] else 0
  }

  function Top(s: State, k: StackId): Pair {
    if k in s.top then s.top[k] else Pair(0, 0)
  }

  function Chain(s: State, k: StackId): seq<int> {
    if k in s.chain then s.chain[k] else []
  }

  function At(s: State, p: nat, c: Proc): State {
    s.(procs := s.procs[p := c])
  }

  function Store(s: State, b: int, w: Pair): State {
    s.(word := s.word[b := w])
  }

  /** The DWCAS of a push: the block's own words are what the top must still be. */
  function PushSwap(s: State, p: nat, k: StackId, b: int): State {
    if Top(s, k) == Word(s, b) then
      At(s.(top := s.top[k := Pair(b, Word(s, b).hi + 1)],
            chain := s.chain[k := Chain(s, k) + [b]],
            place := s.place[b := Stacked(k, |Chain(s, k)|)]), p, Idle)
    else
      At(s, p, Pushing(k, b, First))
  }

  /** The DWCAS of a pop. */
  function PopSwap(s: State, p: nat, k: StackId, tb: Pair, after: int): State {
    if Top(s, k) == tb then
      var c := Chain(s, k);
      At(s.(top := s.top[k := Pair(after, tb.hi + 1)],
            chain := s.chain[k := if c == [] then [] else c[..|c| - 1]],
            place := s.place[tb.lo := Held(p)]), p, if k == Lifo then ZeroSlot(tb.lo) else Restoring(k, tb.lo))
    else
      At(s, p, if k == Lifo then Idle else Popping(k, LoadTop))
  }

  /** free_data_slots copies the counter first, lifo_add the slot. */
  function ExecPush(s: State, p: nat, k: StackId, b: int, at: PushAt): State {
    var w, t := Word(s, b), Top(s, k);
    match at
    case First => At(Store(s, b, if k == Lifo then Pair(t.lo, w.hi) else Pair(w.lo, t.hi)), p, Pushing(k, b, Second))
    case Second => At(Store(s, b, if k == Lifo then Pair(w.lo, t.hi) else Pair(t.lo, w.hi)), p, Pushing(k, b, SwapIn))
    case SwapIn => PushSwap(s, p, k, b)
  }

  function ExecPop(s: State, p: nat, k: StackId, at: PopAt): State {
    match at
    case LoadTop => At(s, p, Popping(k, LoadCnt(Top(s, k).lo)))
    case LoadCnt(lo) => At(s, p, if lo == 0 then Idle else Popping(k, LoadNext(Pair(lo, Top(s, k).hi), 0)))
    case LoadCntFirst => At(s, p, Popping(k, LoadTopSecond(Top(s, k).hi)))
    case LoadTopSecond(hi) =>
      var lo := Top(s, k).lo;
      At(s, p, if lo < HDR_END then Idle else Popping(k, LoadVal(Pair(lo, hi))))
    case LoadVal(tb) =>
      var v := Val(s, tb.lo);
      At(s, p, if v == 0 then Idle else Popping(k, CheckTop(tb, v)))
    case CheckTop(tb, v) => At(s, p, if tb.lo == Top(s, k).lo then Popping(k, CheckCnt(tb, v)) else Idle)
    case CheckCnt(tb, v) => At(s, p, if tb.hi == Top(s, k).hi then Popping(k, LoadNext(tb, v)) else Idle)
    case LoadNext(tb, v) => At(s, p, Popping(k, SwapOut(tb, v, Word(s, tb.lo).lo)))
    case SwapOut(tb, v, after) => PopSwap(s, p, k, tb, after)
  }

  function ExecNext(s: State, p: nat, c: Proc): State {
    match c
    case Pushing(k, b, at) => ExecPush(s, p, k, b, at)
    case Popping(k, at) => ExecPop(s, p, k, at)
    case Restoring(k, b) =>
      At(Store(s, b, Pair(if k.Bucket? && k.i >= 0 then RestoredHeader(BucketSlot(k.i)) else 0, Word(s, b).hi)), p,
          Holding(b))
    case ZeroSlot(b) => At(Store(s, b, Pair(0, Word(s, b).hi)), p, ZeroGen(b))
    case ZeroGen(b) => At(Store(s, b, Pair(Word(s, b).lo, 0)), p, Holding(b))
    case _ => s
  }

  /** The stack a held block is pushed on: free_data_slots reads it off the block's header. */
  function Target(s: State, b: int): StackId
    requires b in s.home
  {
    if s.home[b] == Lifo || Word(s, b).lo <= 0 then Lifo else Bucket(BucketOf(Word(s, b).lo))
  }

  /** A block of class i is created with its capacity in its header, a node with its size. */
  function FreshHeader(k: StackId): int {
    if k.Bucket? && k.i >= 0 then Capacity(k.i) else NODE_SIZE
  }

  function Created(s: State, p: nat, b: int, k: StackId): State {
    At(s.(word := s.word[b := Pair(FreshHeader(k), 0)], val := s.val[b := 0],
          place := s.place[b := Held(p)], home := s.home[b := k]), p, Holding(b))
  }

  function Written(s: State, b: int, w: Pair, v: int): State {
    s.(word := s.word[b := w], val := s.val[b := v])
  }

  function Step(s: State, a: Action): State {
    if a.p !in s.procs then s else
    var c := s.procs[a.p];
    match a
    case Fresh(p, b, k) =>
      if c == Idle && b !in s.word && b >= HDR_END && (k.Bucket? ==> 0 <= k.i < CLASSES) then
        Created(s, p, b, k)
      else s
    case Write(p, w, v) =>
      if c.Holding? && c.b in s.home && (s.home[c.b] == Lifo || w.lo == Word(s, c.b).lo) then
        Written(s, c.b, w, v)
      else s
    case Give(p, to) =>
      if c.Holding? && to in s.procs && s.procs[to] == Idle then
        s.(place := s.place[c.b := Held(to)], procs := s.procs[p := Idle][to := c])
      else s
    case BeginPush(p) =>
      if c.Holding? && c.b in s.home then At(s, p, Pushing(Target(s, c.b), c.b, First)) else s
    case BeginPop(p, k) =>
      if c == Idle then At(s, p, Popping(k, if k == Lifo then LoadCntFirst else LoadTop)) else s
    case Exec(p) => ExecNext(s, p, c)
  }

  function Run(s: State, acts: seq<Action>): State {
    if acts == [] then s else Step(Run(s, acts[..|acts| - 1]), acts[|acts| - 1])
  }

  /** All stacks are empty and all counters zero. */
  function Init(pids: set<nat>): State {
    State(map[], map[], map[], map p | p in pids :: Idle, map[], map[], map[])
  }
}
