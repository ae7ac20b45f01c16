/**
 * alloc_new_data as a state machine: any number of processes carve blocks off
 * the unused end of the object, each by loading DATA_ALLOC, insuring that the
 * block fits, and a CAS that moves DATA_ALLOC on; in between others carve, the
 * object grows, and owners write to their blocks.
 */
module Carving {
  import opened Layout

  datatype Proc =
    | Idle
    | LoadAlloc(slots: int)                 // about to load DATA_ALLOC, at first or after a failed CAS
    | InsureFit(slots: int, start: int)     // about to map the block, which may expand the object
    | LoadSize(slots: int, start: int)
    | SwapAlloc(slots: int, start: int)
    | StoreSlots(slots: int, start: int)    // the block is carved; its size goes into its first word

  /** A carved block and the process that has carved it. */
  datatype Block = Block(start: int, slots: int, owner: nat)

  /** `blocks` is history, oldest first; the other fields are DATA_ALLOC, SIZE, the words and the processes. */
  datatype State = State(alloc: int, size: int, mem: map<int, int>, procs: map<nat, Proc>, blocks: seq<Block>)

  datatype Action =
    | Begin(p: nat, slots: int)
    | Exec(p: nat)
    | Refuse(p: nat)                        // the operating system refuses to expand or to map
    | Grow(size: int)                       // another expansion is published
    | Write(p: nat, i: nat, x: int, v: int) // the owner of block i writes a word of it

  function At(s: State, p: nat, c: Proc): State {
    s.(procs := s.procs[p := c])
  }

  function Word(s: State, x: int): int {
    if x in s.mem then s.mem[x] else 0
  }

  function Store(s: State, x: int, v: int): State {
    s.(mem := s.mem[x := v])
  }

  function ExecNext(s: State, p: nat, c: Proc): State {
    match c
    case Idle => s
    case LoadAlloc(slots) => At(s, p, InsureFit(slots, s.alloc))
    case InsureFit(slots, start) =>
      // insure_fit comes back when the block is within a published size
      if start + slots < s.size then At(s, p, LoadSize(slots, start)) else s
    case LoadSize(slots, start) => At(s, p, if start + slots < s.size then SwapAlloc(slots, start) else Idle)
    case SwapAlloc(slots, start) =>
      if s.alloc == start then
        At(s.(alloc := start + slots, blocks := s.blocks + [Block(start, slots, p)]), p, StoreSlots(slots, start))
      else At(s, p, LoadAlloc(slots))
    case StoreSlots(slots, start) => At(Store(s, start, slots), p, Idle)
  }

  function Step(s: State, a: Action): State {
    match a
    case Begin(p, slots) =>
      if p in s.procs && s.procs[p] == Idle && slots >= NODE_SIZE &&
        slots % NODE_SIZE == 0 then At(s, p, LoadAlloc(slots)) else s
    case Exec(p) => if p in s.procs then ExecNext(s, p, s.procs[p]) else s
    case Refuse(p) => if p in s.procs && s.procs[p].InsureFit? then At(s, p, Idle) else s
    case Grow(size) => if size > s.size then s.(size := size) else s
    case Write(p, i, x, v) =>
      if i < |s.blocks| && s.blocks[i].owner == p && InBlock(s.blocks[i], x) && p in s.procs && s.procs[p] == Idle then
        Store(s, x, v)
      else s
  }

  predicate InBlock(b: Block, x: int) {
    b.start <= x < b.start + b.slots
  }

  function Run(s: State, acts: seq<Action>): State {
    if acts == [] then s else Step(Run(s, acts[..|acts| - 1]), acts[|acts| - 1])
  }

  /** A new object: one page, nothing carved behind the header and the three dummies. */
  const FIRST := HDR_END + 3 * NODE_SIZE

  function Init(pids: set<nat>): State {
    State(FIRST, PAGE_SLOTS, map[], map p | p in pids :: Idle, [])
  }

  // ------------------------------------------------------------ the invariant

  /** The blocks follow one another without a gap, from the first slot to DATA_ALLOC. */
  ghost predicate Tiles(s: State) {
    && FIRST <= s.alloc < s.size
    && (if s.blocks == [] then s.alloc == FIRST
       else s.blocks[0].start == FIRST && End(s.blocks[|s.blocks| - 1]) == s.alloc)
    && (forall i, j :: 0 <= i && j == i + 1 && j < |s.blocks| ==> End(s.blocks[i]) == s.blocks[j].start)
    && (forall i :: 0 <= i < |s.blocks| ==>
          s.blocks[i].slots >= NODE_SIZE && s.blocks[i].slots % NODE_SIZE == 0 && s.blocks[i].start % NODE_SIZE == 0)
  }

  function End(b: Block): int {
    b.start + b.slots
  }

  /** What lies behind DATA_ALLOC has never been written. */
  ghost predicate Clear(s: State) {
    forall x :: x >= s.alloc ==> Word(s, x) == 0
  }

  ghost predicate ProcOk(s: State, p: nat, c: Proc) {
    match c
    case Idle => true
    case LoadAlloc(slots) => slots >= NODE_SIZE && slots % NODE_SIZE == 0
    case InsureFit(slots, start) => slots >= NODE_SIZE && slots % NODE_SIZE == 0
    case LoadSize(slots, start) => slots >= NODE_SIZE && slots % NODE_SIZE == 0
    case SwapAlloc(slots, start) => slots >= NODE_SIZE && slots % NODE_SIZE == 0 && start + slots < s.size
    case StoreSlots(slots, start) => Block(start, slots, p) in s.blocks && forall x :: start <= x < start + slots ==>
        Word(s, x) == 0
  }

  ghost predicate Inv(s: State) {
    Tiles(s) && Clear(s) && forall p :: p in s.procs ==> ProcOk(s, p, s.procs[p])
  }

  lemma {:induction false} Apart(s: State, i: nat, j: nat)
    requires Tiles(s) && i <= j < |s.blocks|
    ensures s.blocks[0].start <= s.blocks[i].start && End(s.blocks[j]) <= s.alloc
    ensures i < j ==> End(s.blocks[i]) <= s.blocks[j].start
    decreases |s.blocks| - j, j - i
  {
    Forward(s, i, j);
    Forward(s, 0, i);
    Forward(s, j, |s.blocks| - 1);
  }

  lemma {:induction false} Forward(s: State, i: nat, j: nat)
    requires Tiles(s) && i <= j < |s.blocks|
    ensures s.blocks[i].start <= s.blocks[j].start && End(s.blocks[i]) <= End(s.blocks[j])
    ensures i < j ==> End(s.blocks[i]) <= s.blocks[j].start
  {
    if i < j {
      var k := j - 1;
      Forward(s, i, k);
      assert End(s.blocks[k]) == s.blocks[j].start;
    }
  }

  /** A slot is in one block only. */
  lemma OneBlock(s: State, i: nat, j: nat, x: int)
    requires Tiles(s) && i < |s.blocks| && j < |s.blocks| && InBlock(s.blocks[i], x) && InBlock(s.blocks[j], x)
    ensures i == j && FIRST <= x < s.alloc
  {
    if i <= j {
      Apart(s, i, j);
    } else {
      Apart(s, j, i);
    }
    Apart(s, i, i);
  }

  // ------------------------------------------------------------ every step

  /** A store into a block leaves alone what other processes are about to mark. */
  lemma StoreKeeps(s: State, i: nat, x: int, v: int, q: nat)
    requires Tiles(s) && i < |s.blocks| && InBlock(s.blocks[i], x)
    requires q in s.procs && ProcOk(s, q, s.procs[q]) && s.blocks[i].owner != q
    ensures ProcOk(Store(s, x, v), q, s.procs[q])
  {
    var c := s.procs[q];
    if c.StoreSlots? {
      var j :| 0 <= j < |s.blocks| && s.blocks[j] == Block(c.start, c.slots, q);
      assert !InBlock(s.blocks[j], x) by {
        if InBlock(s.blocks[j], x) {
          OneBlock(s, i, j, x);
        }
      }
      assert forall y :: y != x ==> Word(Store(s, x, v), y) == Word(s, y);
    }
  }

  /** What a process relies on is in the words, the blocks and the size. */
  lemma SameMemory(s: State, s': State, p: nat, c: Proc)
    requires ProcOk(s, p, c) && s'.mem == s.mem && s.size <= s'.size && s.blocks <= s'.blocks
    ensures ProcOk(s', p, c)
  {
    assert forall y :: Word(s', y) == Word(s, y);
  }

  lemma StoreInv(s: State, i: nat, x: int, v: int, p: nat)
    requires Inv(s) && p in s.procs && i < |s.blocks| && s.blocks[i].owner == p && InBlock(s.blocks[i], x)
    ensures Inv(At(Store(s, x, v), p, Idle))
  {
    OneBlock(s, i, i, x);
    var s' := At(Store(s, x, v), p, Idle);
    assert forall y :: y != x ==> Word(s', y) == Word(s, y);
    forall q | q in s'.procs ensures ProcOk(s', q, s'.procs[q]) {
      if q != p {
        StoreKeeps(s, i, x, v, q);
        SameMemory(Store(s, x, v), s', q, s.procs[q]);
      }
    }
  }

  lemma LastEnds(s: State)
    requires Tiles(s)
    ensures s.alloc % NODE_SIZE == 0
  {
    if s.blocks != [] {
      assert s.blocks[|s.blocks| - 1].start % NODE_SIZE == 0;
    }
  }

  lemma CarveTiles(s: State, p: nat, slots: int)
    requires Tiles(s) && slots >= NODE_SIZE && slots % NODE_SIZE == 0 && s.alloc + slots < s.size
    ensures Tiles(s.(alloc := s.alloc + slots, blocks := s.blocks + [Block(s.alloc, slots, p)]))
  {
    LastEnds(s);
    var bs := s.blocks + [Block(s.alloc, slots, p)];
    forall i, j | 0 <= i && j == i + 1 && j < |bs| ensures End(bs[i]) == bs[j].start {
      if j < |s.blocks| {
        assert End(s.blocks[i]) == s.blocks[j].start;
      }
    }
  }

  lemma CarveInv(s: State, p: nat, slots: int)
    requires Inv(s) && p in s.procs && s.procs[p] == SwapAlloc(slots, s.alloc)
    ensures Inv(Step(s, Exec(p)))
  {
    var s' := Step(s, Exec(p));
    assert ProcOk(s, p, s.procs[p]);
    CarveTiles(s, p, slots);
    hide Tiles;
    assert Block(s.alloc, slots, p) in s'.blocks;
    assert forall y :: Word(s', y) == Word(s, y);
    forall q | q in s'.procs ensures ProcOk(s', q, s'.procs[q]) {
      if q != p {
        assert ProcOk(s, q, s.procs[q]);
        SameMemory(s, s', q, s.procs[q]);
      }
    }
  }

  lemma LocalInv(s: State, p: nat, c: Proc)
    requires Inv(s) && p in s.procs && ProcOk(s, p, c)
    ensures Inv(At(s, p, c))
  {
    var s' := At(s, p, c);
    assert forall y :: Word(s', y) == Word(s, y);
    forall q | q in s'.procs ensures ProcOk(s', q, s'.procs[q]) {
      SameMemory(s, s', q, if q == p then c else s.procs[q]);
    }
  }

  lemma ExecInv(s: State, p: nat)
    requires Inv(s) && p in s.procs
    ensures Inv(Step(s, Exec(p)))
  {
    var c := s.procs[p];
    assert ProcOk(s, p, c);
    match c
    case StoreSlots(slots, start) =>
      var i :| 0 <= i < |s.blocks| && s.blocks[i] == Block(start, slots, p);
      assert InBlock(s.blocks[i], start);
      hide Inv;
      StoreInv(s, i, start, slots, p);
    case SwapAlloc(slots, start) =>
      hide Inv;
      if s.alloc == start {
        CarveInv(s, p, slots);
      } else {
        LocalInv(s, p, LoadAlloc(slots));
      }
    case _ =>
      hide Inv;
      var s' := Step(s, Exec(p));
      if s' != s {
        LocalInv(s, p, s'.procs[p]);
      }
  }

  lemma GrowInv(s: State, size: int)
    requires Inv(s) && size > s.size
    ensures Inv(s.(size := size))
  {
    var s' := s.(size := size);
    assert forall y :: Word(s', y) == Word(s, y);
    forall q | q in s'.procs ensures ProcOk(s', q, s'.procs[q]) {
      SameMemory(s, s', q, s.procs[q]);
    }
  }

  lemma StepInv(s: State, a: Action)
    requires Inv(s)
    ensures Inv(Step(s, a))
  {
    hide Inv;
    if Step(s, a) != s {
      match a
      case Begin(p, slots) => LocalInv(s, p, LoadAlloc(slots));
      case Exec(p) => ExecInv(s, p);
      case Refuse(p) => LocalInv(s, p, Idle);
      case Grow(size) => GrowInv(s, size);
      case Write(p, i, x, v) =>
        StoreInv(s, i, x, v, p);
        assert s.procs[p := Idle] == s.procs;
    }
  }

  lemma {:induction false} RunInv(pids: set<nat>, acts: seq<Action>)
    ensures Inv(Run(Init(pids), acts))
  {
    if acts != [] {
      hide Inv, Step;
      RunInv(pids, acts[..|acts| - 1]);
      StepInv(Run(Init(pids), acts[..|acts| - 1]), acts[|acts| - 1]);
    }
  }

  // ------------------------------------------------------------ every run

  /** A slot behind the first one and before DATA_ALLOC is in a block. */
  lemma {:induction false} SomeBlock(s: State, x: int, k: nat)
    requires Tiles(s) && k < |s.blocks| && FIRST <= x < End(s.blocks[k])
    ensures exists i :: 0 <= i < |s.blocks| && InBlock(s.blocks[i], x)
  {
    if x < s.blocks[k].start {
      var j := k - 1;
      assert End(s.blocks[j]) == s.blocks[k].start;
      SomeBlock(s, x, k - 1);
    } else {
      assert InBlock(s.blocks[k], x);
    }
  }

  /**
   * Over every run, whatever the interleaving: the blocks carved cover the slots
   * up to DATA_ALLOC, each slot in exactly one block, and all of them within the
   * object; and what is behind DATA_ALLOC is zero.
   */
  lemma CarvingIsExact(pids: set<nat>, acts: seq<Action>, x: int)
    ensures var s := Run(Init(pids), acts);
            && FIRST <= s.alloc < s.size
            && (FIRST <= x < s.alloc <==> exists i :: 0 <= i < |s.blocks| && InBlock(s.blocks[i], x))
            && (forall i, j :: 0 <= i < |s.blocks| && 0 <= j < |s.blocks| ==>
                  InBlock(s.blocks[i], x) && InBlock(s.blocks[j], x) ==> i == j)
            && (x >= s.alloc ==> Word(s, x) == 0)
  {
    RunInv(pids, acts);
    var s := Run(Init(pids), acts);
    hide Run, ProcOk;
    if FIRST <= x < s.alloc {
      SomeBlock(s, x, |s.blocks| - 1);
    }
    forall i, j | 0 <= i < |s.blocks| && 0 <= j < |s.blocks| && InBlock(s.blocks[i], x) && InBlock(s.blocks[j], x)
      ensures i == j && FIRST <= x < s.alloc
    {
      OneBlock(s, i, j, x);
    }
  }

  lemma Sixteen(x: int)
    requires x % NODE_SIZE == 0
    ensures x * 8 % 16 == 0
  {
    var k := x / 4;
    assert x * 8 == 16 * (2 * k);
  }

  /** A carved block starts on 16 bytes, whoever carved it and whenever. */
  lemma CarvedAligned(pids: set<nat>, acts: seq<Action>, i: nat)
    requires i < |Run(Init(pids), acts).blocks|
    ensures Run(Init(pids), acts).blocks[i].start * 8 % 16 == 0
  {
    RunInv(pids, acts);
    hide Run;
    var b := Run(Init(pids), acts).blocks[i];
    hide Inv;
    Sixteen(b.start);
  }

  /** The process that has won the CAS has a block of the size it asked for, all zero, that overlaps no other. */
  lemma CarvedIsFresh(pids: set<nat>, acts: seq<Action>, p: nat)
    requires var s := Run(Init(pids), acts); p in s.procs && s.procs[p].SwapAlloc? && s.procs[p].start == s.alloc
    ensures var s := Run(Init(pids), acts);
            var s', b := Step(s, Exec(p)), Block(s.alloc, s.procs[p].slots, p);
            && s'.blocks == s.blocks + [b] && s'.alloc == End(b) < s'.size
            && (forall x :: InBlock(b, x) ==> Word(s', x) == 0)
            && (forall i, x :: 0 <= i < |s.blocks| && InBlock(b, x) ==> !InBlock(s.blocks[i], x))
  {
    RunInv(pids, acts);
    var s := Run(Init(pids), acts);
    hide Run;
    assert ProcOk(s, p, s.procs[p]);
    assert forall y :: Word(Step(s, Exec(p)), y) == Word(s, y);
    forall i, x | 0 <= i < |s.blocks| && x >= s.alloc ensures !InBlock(s.blocks[i], x) {
      if InBlock(s.blocks[i], x) {
        OneBlock(s, i, i, x);
      }
    }
    hide Tiles;
  }

  /** No step of a process changes a word of a block that another one has carved. */
  lemma OthersKeep(pids: set<nat>, acts: seq<Action>, a: Action, i: nat, x: int)
    requires var s := Run(Init(pids), acts);
             i < |s.blocks| && InBlock(s.blocks[i], x) && !a.Grow? && a.p != s.blocks[i].owner
    ensures var s := Run(Init(pids), acts);
            Word(Step(s, a), x) == Word(s, x) && i < |Step(s, a).blocks| && Step(s, a).blocks[i] == s.blocks[i]
  {
    RunInv(pids, acts);
    var s := Run(Init(pids), acts);
    hide Run;
    if a.Write? && a.i < |s.blocks| && a.x == x && InBlock(s.blocks[a.i], x) {
      OneBlock(s, i, a.i, x);
    } else if a.Exec? && a.p in s.procs && s.procs[a.p].StoreSlots? && s.procs[a.p].start == x {
      var c := s.procs[a.p];
      assert ProcOk(s, a.p, c);
      var j :| 0 <= j < |s.blocks| && s.blocks[j] == Block(c.start, c.slots, a.p);
      assert s.blocks[j].slots >= NODE_SIZE;
      OneBlock(s, i, j, x);
    }
    hide Inv;
  }

  // ------------------------------------------------------------ progress

  /** `n` instructions of p, every other process standing still. */
  ghost function Solo(s: State, p: nat, n: nat): State {
    if n == 0 then s else Step(Solo(s, p, n - 1), Exec(p))
  }

  /** The process is through, with a new block where the unused space began, and its size in it. */
  ghost predicate Carved(s: State, s': State, p: nat, slots: int) {
    && p in s'.procs && s'.procs[p] == Idle
    && s'.blocks == s.blocks + [Block(s.alloc, slots, p)] && s'.alloc == s.alloc + slots && Word(s', s.alloc) == slots
  }

  ghost predicate CarvedWithin(s: State, p: nat, slots: int, n: nat) {
    exists k :: 1 <= k <= n && Carved(s, Solo(s, p, k), p, slots)
  }

  lemma {:induction false} SoloLater(s: State, p: nat, k: nat)
    ensures Solo(s, p, k + 1) == Solo(Step(s, Exec(p)), p, k)
  {
    hide Step;
    if k > 0 {
      SoloLater(s, p, k - 1);
    } else {
      assert Solo(s, p, 0) == s;
    }
  }

  lemma CarvedLater(s: State, p: nat, slots: int, n: nat, m: nat)
    requires CarvedWithin(Step(s, Exec(p)), p, slots, n) && n < m
    requires Step(s, Exec(p)).blocks == s.blocks && Step(s, Exec(p)).alloc == s.alloc
    ensures CarvedWithin(s, p, slots, m)
  {
    var s1 := Step(s, Exec(p));
    hide Solo, Step;
    var k :| 1 <= k <= n && Carved(s1, Solo(s1, p, k), p, slots);
    SoloLater(s, p, k);
    assert Carved(s, Solo(s, p, k + 1), p, slots);
  }

  lemma SwapCarves(s: State, p: nat, slots: int)
    requires p in s.procs && s.procs[p] == SwapAlloc(slots, s.alloc)
    ensures CarvedWithin(s, p, slots, 2)
  {
    var s1 := Step(s, Exec(p));
    var s2 := Step(s1, Exec(p));
    assert Solo(s, p, 2) == s2 by {
      assert Solo(s, p, 0) == s && Solo(s, p, 1) == s1;
    }
    assert Carved(s, Solo(s, p, 2), p, slots);
  }

  /** From a fresh load of DATA_ALLOC it takes 5 instructions. */
  lemma CarveFromLoad(s: State, p: nat, slots: int)
    requires p in s.procs && s.procs[p] == LoadAlloc(slots) && s.alloc + slots < s.size
    ensures CarvedWithin(s, p, slots, 5)
  {
    var s1 := Step(s, Exec(p));
    var s2 := Step(s1, Exec(p));
    var s3 := Step(s2, Exec(p));
    assert s3.procs[p] == SwapAlloc(slots, s.alloc) && s3.alloc == s.alloc;
    SwapCarves(s3, p, slots);
    CarvedLater(s2, p, slots, 2, 3);
    CarvedLater(s1, p, slots, 3, 4);
    CarvedLater(s, p, slots, 4, 5);
  }

  lemma CarveFromSwap(s: State, p: nat, slots: int, start: int)
    requires p in s.procs && s.procs[p] == SwapAlloc(slots, start) && s.alloc + slots < s.size
    ensures CarvedWithin(s, p, slots, 6)
  {
    if start == s.alloc {
      SwapCarves(s, p, slots);
      CarvedMore(s, p, slots, 2, 6);
    } else {
      CarveFromLoad(Step(s, Exec(p)), p, slots);
      CarvedLater(s, p, slots, 5, 6);
    }
  }

  lemma CarvedMore(s: State, p: nat, slots: int, n: nat, m: nat)
    requires CarvedWithin(s, p, slots, n) && n <= m
    ensures CarvedWithin(s, p, slots, m)
  {
    hide Carved, Solo;
  }

  lemma CarveFromSize(s: State, p: nat, slots: int, start: int)
    requires p in s.procs && s.procs[p] == LoadSize(slots, start) && s.alloc + slots < s.size && start + slots < s.size
    ensures CarvedWithin(s, p, slots, 7)
  {
    CarveFromSwap(Step(s, Exec(p)), p, slots, start);
    CarvedLater(s, p, slots, 6, 7);
  }

  /**
   * From any instruction before its CAS has succeeded, a process alone has its
   * block within 8 instructions, exactly one, if the object has room for it
   * where it has looked and where the unused space begins; and one instruction
   * after the CAS it is through.
   */
  lemma CarveFinishesAlone(s: State, p: nat)
    requires p in s.procs && s.procs[p] != Idle
    requires var c := s.procs[p];
             c.StoreSlots? || (s.alloc + c.slots < s.size && (!c.LoadAlloc? ==> c.start + c.slots < s.size))
    ensures var c := s.procs[p];
            if c.StoreSlots? then Step(s, Exec(p)) == At(Store(s, c.start, c.slots), p, Idle)
            else CarvedWithin(s, p, c.slots, 8)
  {
    hide CarvedWithin;
    var c := s.procs[p];
    match c
    case LoadAlloc(slots) =>
      CarveFromLoad(s, p, slots);
      CarvedMore(s, p, slots, 5, 8);
    case InsureFit(slots, start) =>
      CarveFromSize(Step(s, Exec(p)), p, slots, start);
      CarvedLater(s, p, slots, 7, 8);
    case LoadSize(slots, start) =>
      CarveFromSize(s, p, slots, start);
      CarvedMore(s, p, slots, 7, 8);
    case SwapAlloc(slots, start) =>
      CarveFromSwap(s, p, slots, start);
      CarvedMore(s, p, slots, 6, 8);
    case StoreSlots(_, _) =>
  }
}
