/**
 * Growing the shared object without a lock.  One process announces a larger
 * size in EXPAND_SIZE; every process that finds the announcement helps to carry
 * it out and publishes it in SIZE.  Each step is one load or one CAS.
 */
module Growth {
  import opened Layout

  /**
   * The instruction of `expand` a process is at.  `ext` is the number of slots of
   * the extent it has mapped, `prev` and `size` are in bytes.
   */
  datatype Proc =
    | Idle(ext: int)
    | CheckSize(ext: int, slots: int)
    | LoadPrev(ext: int, size: int)
    | Announce(ext: int, size: int, prev: int)
    | Truncate(ext: int, prev: int)
    | LoadExpand(ext: int, prev: int)
    | Publish(ext: int, prev: int, e: int)
    | Recheck(ext: int)

  datatype State = State(size: int, expand: int, procs: map<nat, Proc>)

  /** `ok` is what ftruncate answers, where it is called. */
  datatype Action =
    | Begin(p: nat, slots: int)
    | Exec(p: nat, ok: bool)

  /** calculate_realloc_size, from the size of the extent in bytes. */
  function ReallocSize(extSize: int, slots: int): int {
    (extSize / PAGE_SIZE + slots * 8 / PAGE_SIZE + 1) * PAGE_SIZE
  }

  function At(s: State, p: nat, c: Proc): State {
    s.(procs := s.procs[p := c])
  }

  function ExecNext(s: State, p: nat, c: Proc, ok: bool): State {
    match c
    case Idle(ext) => s
    case CheckSize(ext, slots) =>
      At(s, p, if ext != s.size then Idle(s.size) else LoadPrev(ext, ReallocSize(ext * 8, slots)))
    case LoadPrev(ext, size) => At(s, p, Announce(ext, size, s.size * 8))
    case Announce(ext, size, prev) =>
      At(if size > prev && s.expand == prev then s.(expand := size) else s, p, Truncate(ext, prev))
    case Truncate(ext, prev) => At(s, p, if ok then LoadExpand(ext, prev) else Idle(ext))
    case LoadExpand(ext, prev) => At(s, p, Publish(ext, prev, s.expand))
    case Publish(ext, prev, e) => At(if s.size == prev / 8 then s.(size := e / 8) else s, p, Recheck(ext))
    case Recheck(ext) => At(s, p, Idle(s.size))
  }

  function Step(s: State, a: Action): State {
    if a.p !in s.procs then s else
    match a
    case Begin(p, slots) => if s.procs[p].Idle? && slots > 0 then At(s, p, CheckSize(s.procs[p].ext, slots)) else s
    case Exec(p, ok) => ExecNext(s, p, s.procs[p], ok)
  }

  function Run(s: State, acts: seq<Action>): State {
    if acts == [] then s else Step(Run(s, acts[..|acts| - 1]), acts[|acts| - 1])
  }

  /** The object is created with one page, which every process maps. */
  function Init(pids: set<nat>): State {
    State(PAGE_SLOTS, PAGE_SIZE, map p | p in pids :: Idle(PAGE_SLOTS))
  }

  // ------------------------------------------------------------ the invariant

  /**
   * What a process in `expand` knows; `done` says that the object is, or is
   * announced to be, larger than its extent.
   */
  predicate ProcOk(s: State, c: Proc) {
    && c.ext <= s.size && c.ext % PAGE_SLOTS == 0
    && match c
       case Idle(ext) => true
       case CheckSize(ext, slots) => slots > 0
       case LoadPrev(ext, size) => size > ext * 8 && size % PAGE_SIZE == 0
       case Announce(ext, size, prev) => size > ext * 8 && size % PAGE_SIZE == 0 && ext * 8 <= prev && PrevOk(s, prev)
       case Truncate(ext, prev) => ext * 8 <= prev && PrevOk(s, prev) && (s.expand > prev || prev > ext * 8)
       case LoadExpand(ext, prev) => ext * 8 <= prev && PrevOk(s, prev) && (s.expand > prev || prev > ext * 8)
       case Publish(ext, prev, e) =>
         && ext * 8 <= prev && PrevOk(s, prev)
         && prev <= e <= s.expand && e % PAGE_SIZE == 0
         && (s.size * 8 == prev ==> e == prev || e == s.expand)
         && (e > prev || prev > ext * 8)
       case Recheck(ext) => ext < s.size
  }

  predicate PrevOk(s: State, prev: int) {
    prev <= s.size * 8 && prev % PAGE_SIZE == 0
  }

  predicate SizesOk(s: State) {
    s.size * 8 <= s.expand && s.size > 0 && s.size % PAGE_SLOTS == 0 && s.expand % PAGE_SIZE == 0
  }

  ghost predicate Inv(s: State) {
    && SizesOk(s)
    && (forall p :: p in s.procs ==> ProcOk(s, s.procs[p]))
  }

  /** How SIZE and EXPAND_SIZE may change in one step. */
  predicate Grows(s: State, s': State) {
    && s.size <= s'.size && s.expand <= s'.expand
    && (s'.expand != s.expand ==> s.expand == s.size * 8 && s'.size == s.size)
    && (s'.size != s.size ==> s'.size * 8 == s.expand == s'.expand)
  }

  lemma WholePage(n: int)
    ensures 4096 * n % 4096 == 0
  {
  }

  lemma ReallocGrows(ext: int, slots: int)
    requires ext > 0 && ext % PAGE_SLOTS == 0 && slots > 0
    ensures ReallocSize(ext * 8, slots) % PAGE_SIZE == 0
    ensures (ext + slots) * 8 < ReallocSize(ext * 8, slots) <= (ext + slots) * 8 + PAGE_SIZE
  {
    var n, k := ext / 512, slots * 8 / 4096;
    assert ext == 512 * n;
    assert ext * 8 / 4096 == n;
    assert ReallocSize(ext * 8, slots) == 4096 * (n + k + 1);
    WholePage(n + k + 1);
  }

  lemma OtherKept(s: State, s': State, c: Proc)
    requires ProcOk(s, c) && Grows(s, s') && s.size * 8 <= s.expand
    ensures ProcOk(s', c)
  {
  }

  /** A step of the process keeps the sizes in order, and what it knows holds. */
  ghost predicate GoesOn(s: State, s': State, p: nat) {
    Grows(s, s') && SizesOk(s') && p in s'.procs && ProcOk(s', s'.procs[p])
  }

  lemma CheckSizeOk(s: State, p: nat, c: Proc, ok: bool)
    requires SizesOk(s) && ProcOk(s, c) && c.CheckSize?
    ensures GoesOn(s, ExecNext(s, p, c, ok), p)
  {
    if c.ext == s.size {
      ReallocGrows(c.ext, c.slots);
      hide ReallocSize;
    }
  }

  lemma AnnounceOk(s: State, p: nat, c: Proc, ok: bool)
    requires SizesOk(s) && ProcOk(s, c) && c.Announce?
    ensures GoesOn(s, ExecNext(s, p, c, ok), p)
  {
  }

  lemma PublishOk(s: State, p: nat, c: Proc, ok: bool)
    requires SizesOk(s) && ProcOk(s, c) && c.Publish?
    ensures GoesOn(s, ExecNext(s, p, c, ok), p)
  {
    WholePages(c.e);
    if s.size != c.prev / 8 {
      WholePages(c.prev);
    }
  }

  lemma WholePages(bytes: int)
    requires bytes % PAGE_SIZE == 0
    ensures bytes / 8 * 8 == bytes && bytes / 8 % PAGE_SLOTS == 0
  {
    var n := bytes / PAGE_SIZE;
    assert bytes == 4096 * n;
    var slots := 512 * n;
    assert bytes / 8 == slots;
  }

  lemma LoadOk(s: State, p: nat, c: Proc, ok: bool)
    requires SizesOk(s) && ProcOk(s, c) && p in s.procs && s.procs[p] == c
    requires c.Idle? || c.LoadPrev? || c.Truncate? || c.LoadExpand? || c.Recheck?
    ensures GoesOn(s, ExecNext(s, p, c, ok), p)
  {
  }

  lemma ExecOk(s: State, p: nat, ok: bool)
    requires Inv(s) && p in s.procs
    ensures GoesOn(s, ExecNext(s, p, s.procs[p], ok), p)
  {
    hide SizesOk, ProcOk, GoesOn, ExecNext;
    var c := s.procs[p];
    assert ProcOk(s, c);
    if c.CheckSize? {
      CheckSizeOk(s, p, c, ok);
    } else if c.Announce? {
      AnnounceOk(s, p, c, ok);
    } else if c.Publish? {
      PublishOk(s, p, c, ok);
    } else {
      LoadOk(s, p, c, ok);
    }
  }

  lemma StepInv(s: State, a: Action)
    requires Inv(s)
    ensures Inv(Step(s, a)) && Grows(s, Step(s, a))
  {
    var s' := Step(s, a);
    if a.Exec? && a.p in s.procs {
      ExecOk(s, a.p, a.ok);
    }
    forall o | o in s'.procs ensures ProcOk(s', s'.procs[o]) {
      assert ProcOk(s, s.procs[o]);
      if s'.procs[o] == s.procs[o] {
        OtherKept(s, s', s.procs[o]);
      }
    }
  }

  lemma {:induction false} RunInv(s: State, acts: seq<Action>)
    requires Inv(s)
    ensures Inv(Run(s, acts))
    ensures s.size <= Run(s, acts).size && s.expand <= Run(s, acts).expand
  {
    hide Inv, Step;
    if acts != [] {
      RunInv(s, acts[..|acts| - 1]);
      StepInv(Run(s, acts[..|acts| - 1]), acts[|acts| - 1]);
    }
  }

  /**
   * Under every interleaving: both sizes are whole pages and never decrease, the
   * published size never exceeds the announced one, an expansion is announced
   * only when none is pending, and publishing installs exactly the announcement.
   */
  lemma GrowthIsOrderly(pids: set<nat>, acts: seq<Action>, a: Action)
    ensures var s := Run(Init(pids), acts);
            var s' := Step(s, a);
            && s.size * 8 <= s.expand && s.size % PAGE_SLOTS == 0 && s.expand % PAGE_SIZE == 0
            && Grows(s, s')
  {
    RunInv(Init(pids), acts);
    StepInv(Run(Init(pids), acts), a);
  }

  /** No process ever has more mapped than is published, and what it has mapped is whole pages. */
  lemma ExtentsWithinObject(pids: set<nat>, acts: seq<Action>, p: nat)
    requires p in Run(Init(pids), acts).procs
    ensures var s := Run(Init(pids), acts); s.procs[p].ext <= s.size && s.procs[p].ext % PAGE_SLOTS == 0
  {
    RunInv(Init(pids), acts);
    assert ProcOk(Run(Init(pids), acts), Run(Init(pids), acts).procs[p]);
  }

  /**
   * A call of `expand` that does not fail leaves its caller with a larger extent,
   * whatever the other processes do: the loop of insure_fit makes progress.
   */
  lemma ExpandMakesProgress(pids: set<nat>, acts: seq<Action>, p: nat, ok: bool)
    requires var s := Run(Init(pids), acts);
             p in s.procs && !s.procs[p].Idle? && (s.procs[p].Truncate? ==> ok)
    ensures var s := Run(Init(pids), acts);
            var s' := Step(s, Exec(p, ok));
            p in s'.procs && (s'.procs[p].Idle? ==> s'.procs[p].ext > s.procs[p].ext)
  {
    RunInv(Init(pids), acts);
    var s := Run(Init(pids), acts);
    assert ProcOk(s, s.procs[p]);
  }

  // ------------------------------------------------------------ progress

  /** `n` instructions of p, every other process standing still and the operating system granting what it asks for. */
  ghost function Solo(s: State, p: nat, n: nat): State {
    if n == 0 then s else Step(Solo(s, p, n - 1), Exec(p, true))
  }

  ghost function Left(c: Proc): nat {
    match c
    case Idle(_) => 0
    case CheckSize(_, _) => 7
    case LoadPrev(_, _) => 6
    case Announce(_, _, _) => 5
    case Truncate(_, _) => 4
    case LoadExpand(_, _) => 3
    case Publish(_, _, _) => 2
    case Recheck(_) => 1
  }

  /** The process is through, with a larger extent, which is the whole published object. */
  ghost predicate Expanded(s: State, p: nat, ext: int) {
    p in s.procs && s.procs[p] == Idle(s.size) && s.size > ext
  }

  ghost predicate ExpandedWithin(s: State, p: nat, ext: int, n: nat) {
    exists k :: 1 <= k <= n && Expanded(Solo(s, p, k), p, ext)
  }

  lemma {:induction false} SoloLater(s: State, p: nat, k: nat)
    ensures Solo(s, p, k + 1) == Solo(Step(s, Exec(p, true)), p, k)
  {
    hide Step;
    if k > 0 {
      SoloLater(s, p, k - 1);
    } else {
      assert Solo(s, p, 0) == s;
    }
  }

  lemma ExpandNearer(s: State, p: nat)
    requires Inv(s) && p in s.procs && !s.procs[p].Idle?
    ensures var s1 := Step(s, Exec(p, true));
            && p in s1.procs
            && if s1.procs[p].Idle? then Expanded(s1, p, s.procs[p].ext)
               else s1.procs[p].ext == s.procs[p].ext && Left(s1.procs[p]) < Left(s.procs[p])
  {
    assert ProcOk(s, s.procs[p]);
    hide Inv;
  }

  /**
   * From any instruction of an expand, whatever the others have done before, it
   * ends within 7 instructions if the others stand still and nothing is refused,
   * with the whole object mapped, and more of it than before.
   */
  lemma {:induction false} ExpandFinishesAlone(s: State, p: nat)
    requires Inv(s) && p in s.procs && !s.procs[p].Idle?
    ensures ExpandedWithin(s, p, s.procs[p].ext, Left(s.procs[p]))
    decreases Left(s.procs[p])
  {
    hide Inv, Solo, Expanded;
    var s1 := Step(s, Exec(p, true));
    var ext, n := s.procs[p].ext, Left(s.procs[p]);
    ExpandNearer(s, p);
    StepInv(s, Exec(p, true));
    SoloLater(s, p, 0);
    assert Solo(s1, p, 0) == s1 by {
      SoloNone(s1, p);
    }
    if s1.procs[p].Idle? {
      assert n >= 1;
      assert Expanded(Solo(s, p, 1), p, ext);
    } else {
      hide Step;
      ExpandFinishesAlone(s1, p);
      var k :| 1 <= k <= Left(s1.procs[p]) && Expanded(Solo(s1, p, k), p, ext);
      SoloLater(s, p, k);
      assert Expanded(Solo(s, p, k + 1), p, ext);
    }
  }

  lemma SoloNone(s: State, p: nat)
    ensures Solo(s, p, 0) == s
  {
  }
}
