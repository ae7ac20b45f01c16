/**
 * The one hole in the tags, and exactly when it is there.
 *
 * add_end writes a node's slot and its generation with two stores, and a node
 * taken from the pool is zeroed; between the two stores the link reads
 * (slot, 0).  ID_CNTR starts at 0, so (slot, 0) is also what a process loads as
 * the tail of the free pool before the first node is freed.
 */
module TaggedListZero {
  import opened Layout
  import opened TaggedList
  import opened TaggedListTheorems

  ghost predicate Reachable(start: nat, pids: set<nat>, s: State) {
    exists acts :: Run(Init(start, pids), acts) == s
  }

  lemma ReachInit(start: nat, pids: set<nat>)
    ensures Reachable(start, pids, Init(start, pids))
  {
    assert Run(Init(start, pids), []) == Init(start, pids);
  }

  lemma Reach(start: nat, pids: set<nat>, s: State, a: Action)
    requires Reachable(start, pids, s)
    ensures Reachable(start, pids, Step(s, a))
  {
    var acts :| Run(Init(start, pids), acts) == s;
    assert (acts + [a])[..|acts|] == acts;
    assert Run(Init(start, pids), acts + [a]) == Step(s, a);
  }

  lemma AtAt(s: State, p: nat, c: Proc, d: Proc)
    ensures At(At(s, p, c), p, d) == At(s, p, d)
  {
    assert s.procs[p := c][p := d] == s.procs[p := d];
  }

  /** A load: only the process moves on. */
  lemma Load(start: nat, pids: set<nat>, s: State, p: nat, c: Proc, c': Proc)
    requires p in s.procs && Reachable(start, pids, At(s, p, c))
    requires ExecNext(At(s, p, c), p, c) == At(At(s, p, c), p, c')
    ensures Reachable(start, pids, At(s, p, c'))
  {
    hide Reachable, ExecNext;
    Reach(start, pids, At(s, p, c), Exec(p));
    AtAt(s, p, c, c');
  }

  // ------------------------------------------------------------ whole calls, one process at a time

  /** add_end: the process draws a generation and writes the link of its node. */
  lemma SoloTag(start: nat, pids: set<nat>, s: State, p: nat, l: ListId, n: int) returns (s': State)
    requires Reachable(start, pids, s) && p in s.procs && s.procs[p] == Holding(n) && Link(s, n).hi == 0
    ensures Reachable(start, pids, s')
    ensures s' == At(StoreLink(s, n, Pair(n, s.idCntr)).(idCntr := s.idCntr +
            1, mint := s.mint[s.idCntr := Pending(p)]),
                     p, Adding(l, n, s.idCntr, LoadTail))
  {
    hide Reachable, Run;
    Reach(start, pids, s, BeginAdd(p, l));
    var s1 := Step(s, BeginAdd(p, l));
    Reach(start, pids, s1, Exec(p));
    var s2 := Step(s1, Exec(p));
    Reach(start, pids, s2, Exec(p));
    s' := Step(s2, Exec(p));
    assert s2.link[n := Pair(n, s.idCntr)] == s.link[n := Pair(n, s.idCntr)];
    assert s'.procs == s.procs[p := Adding(l, n, s.idCntr, LoadTail)];
  }

  /** It loads a tail that is the last node. */
  lemma SoloSeeTail(start: nat, pids: set<nat>, s: State, p: nat, l: ListId, n: int, gen: nat) returns (s': State)
    requires Reachable(start, pids, s) && p in s.procs && s.procs[p] == Adding(l, n, gen, LoadTail)
    requires Link(s, Get(s, l).tail.lo).lo == Get(s, l).tail.lo
    ensures Reachable(start, pids, s')
    ensures s' == At(s, p, Adding(l, n, gen, LinkLast(Get(s, l).tail)))
  {
    hide Reachable, Run, Step;
    var tb := Get(s, l).tail;
    assert At(s, p, s.procs[p]) == s;
    Load(start, pids, s, p, Adding(l, n, gen, LoadTail), Adding(l, n, gen, LoadTailCnt(tb.lo)));
    Load(start, pids, s, p, Adding(l, n, gen, LoadTailCnt(tb.lo)), Adding(l, n, gen, Compare(tb)));
    Load(start, pids, s, p, Adding(l, n, gen, Compare(tb)), Adding(l, n, gen, LinkLast(tb)));
    s' := At(s, p, Adding(l, n, gen, LinkLast(tb)));
  }

  /** What the two DWCASes of an append change. */
  ghost predicate Appends(s: State, s': State, p: nat, l: ListId, e: Pair) {
    var q := Get(s, l);
    && s'.link == s.link[q.tail.lo := e] && s'.val == s.val && s'.idCntr == s.idCntr
    && Get(s', l) == q.(tail := e, log := q.log + [e], vals := q.vals + [Value(s, e.lo)])
    && (forall k :: k != l ==> Get(s', k) == Get(s, k))
    && s'.procs == s.procs[p := Idle]
  }

  lemma SoloLink(start: nat, pids: set<nat>, s: State, p: nat, l: ListId, n: int, gen: nat) returns (s': State)
    requires Reachable(start, pids, s) && p in s.procs && s.procs[p] == Adding(l, n, gen, LoadTail)
    requires Link(s, Get(s, l).tail.lo) == Get(s, l).tail
    ensures Reachable(start, pids, s') && Appends(s, s', p, l, Pair(n, gen))
  {
    hide Reachable, Run;
    var tb := Get(s, l).tail;
    var s1 := SoloSeeTail(start, pids, s, p, l, n, gen);
    Reach(start, pids, s1, Exec(p));
    var s2 := Step(s1, Exec(p));
    assert s2.procs == s.procs[p := SwingTail(l, n, gen, tb)];
    Reach(start, pids, s2, Exec(p));
    s' := Step(s2, Exec(p));
  }

  /** The first node behind the dummy, and the value a remover takes from it. */
  ghost function First(s: State, l: ListId): int {
    Link(s, Get(s, l).head.lo).lo
  }

  ghost function Front(s: State, l: ListId): int {
    if l == Free then 0 else Value(s, First(s, l))
  }

  /** The loads of a remover that finds the list non-empty. */
  lemma SoloSeeHead(start: nat, pids: set<nat>, s: State, p: nat, l: ListId) returns (s': State)
    requires Reachable(start, pids, s) && p in s.procs && s.procs[p] == Idle
    requires Get(s, l).head.lo != Get(s, l).tail.lo
    requires l != Free ==> First(s, l) >= HDR_END && Value(s, First(s, l)) != 0
    ensures Reachable(start, pids, s')
    ensures s' == At(s, p, Removing(l, Get(s, l).head.hi, SwingHead(Get(s, l).head.lo, Front(s, l), First(s, l))))
  {
    hide Reachable, Run;
    var ref, cnt, after, v := Get(s, l).head.lo, Get(s, l).head.hi, First(s, l), Front(s, l);
    Reach(start, pids, s, BeginRemove(p, l));
    hide Step;
    Load(start, pids, s, p, Removing(l, cnt, LoadHead), Removing(l, cnt, CheckEmpty(ref)));
    if l == Free {
      Load(start, pids, s, p, Removing(l, cnt, CheckEmpty(ref)), Removing(l, cnt, Recheck(ref, v)));
    } else {
      Load(start, pids, s, p, Removing(l, cnt, CheckEmpty(ref)), Removing(l, cnt, LoadFirst(ref)));
      Load(start, pids, s, p, Removing(l, cnt, LoadFirst(ref)), Removing(l, cnt, LoadValue(ref, after)));
      Load(start, pids, s, p, Removing(l, cnt, LoadValue(ref, after)), Removing(l, cnt, Recheck(ref, v)));
    }
    Load(start, pids, s, p, Removing(l, cnt, Recheck(ref, v)), Removing(l, cnt, LoadAfter(ref, v)));
    Load(start, pids, s, p, Removing(l, cnt, LoadAfter(ref, v)), Removing(l, cnt, SwingHead(ref, v, after)));
    s' := At(s, p, Removing(l, cnt, SwingHead(ref, v, after)));
  }

  /** What a removal changes: the old dummy is in hand, zeroed. */
  ghost predicate Removes(s: State, s': State, p: nat, l: ListId) {
    var q := Get(s, l);
    && s'.link == s.link[q.head.lo := Pair(0, 0)] && s'.val == s.val && s'.idCntr == s.idCntr
    && Get(s', l) == q.(head := Pair(First(s, l), q.head.hi + 1), front := q.front + 1, out := q.out + [Front(s, l)])
    && (forall k :: k != l ==> Get(s', k) == Get(s, k))
    && s'.procs == s.procs[p := Holding(q.head.lo)]
  }

  lemma SwingRemoves(s: State, p: nat, l: ListId)
    requires p in s.procs
    requires s.procs[p] == Removing(l, Get(s, l).head.hi, SwingHead(Get(s, l).head.lo, Front(s, l), First(s, l)))
    ensures var s', q := Step(s, Exec(p)), Get(s, l);
            && s'.link == s.link && s'.val == s.val && s'.idCntr == s.idCntr
            && Get(s', l) == q.(head := Pair(First(s, l), q.head.hi + 1), front := q.front + 1, out := q.out +
               [Front(s, l)])
            && (forall k :: k != l ==> Get(s', k) == Get(s, k))
            && s'.procs == s.procs[p := ZeroSlot(q.head.lo)]
  {
    hide Front, First;
    var q, after, v := Get(s, l), First(s, l), Front(s, l);
    assert q.head == Pair(q.head.lo, q.head.hi);
    assert Step(s, Exec(p)) == HeadSwap(s, p, l, q.head.hi, q.head.lo, v, after);
  }

  /** The memset of a removed node. */
  lemma SoloZero(start: nat, pids: set<nat>, s: State, p: nat, n: int) returns (s': State)
    requires Reachable(start, pids, s) && p in s.procs && s.procs[p] == ZeroSlot(n)
    ensures Reachable(start, pids, s')
    ensures s' == At(StoreLink(s, n, Pair(0, 0)), p, Holding(n))
  {
    hide Reachable, Run;
    Reach(start, pids, s, Exec(p));
    var s1 := Step(s, Exec(p));
    Reach(start, pids, s1, Exec(p));
    s' := Step(s1, Exec(p));
    assert s.link[n := Link(s1, n)][n := Pair(0, 0)] == s.link[n := Pair(0, 0)];
    assert s.procs[p := ZeroGen(n)][p := Holding(n)] == s.procs[p := Holding(n)];
  }

  lemma SoloRemove(start: nat, pids: set<nat>, s: State, p: nat, l: ListId) returns (s': State)
    requires Reachable(start, pids, s) && p in s.procs && s.procs[p] == Idle
    requires Get(s, l).head.lo != Get(s, l).tail.lo
    requires l != Free ==> First(s, l) >= HDR_END && Value(s, First(s, l)) != 0
    ensures Reachable(start, pids, s') && Removes(s, s', p, l)
  {
    hide Reachable, Run, Step;
    var n := Get(s, l).head.lo;
    var s1 := SoloSeeHead(start, pids, s, p, l);
    assert First(s1, l) == First(s, l) && Front(s1, l) == Front(s, l);
    hide First, Front;
    Reach(start, pids, s1, Exec(p));
    SwingRemoves(s1, p, l);
    var s2 := Step(s1, Exec(p));
    s' := SoloZero(start, pids, s2, p, n);
    assert s'.procs == s.procs[p := Holding(n)];
    assert forall k :: Get(s', k) == Get(s2, k) && Get(s1, k) == Get(s, k);
    assert s'.link == s.link[n := Pair(0, 0)];
  }

  /** alloc_idx_slots looks into the pool first; if that holds only its dummy, nothing happens. */
  lemma SoloPoolEmpty(start: nat, pids: set<nat>, s: State, p: nat)
    requires Reachable(start, pids, s) && p in s.procs && s.procs[p] == Idle
    requires s.free.head.lo == s.free.tail.lo
    ensures Reachable(start, pids, Step(Step(Step(s, BeginRemove(p, Free)), Exec(p)), Exec(p)))
    ensures Step(Step(Step(s, BeginRemove(p, Free)), Exec(p)), Exec(p)) == s
  {
    hide Reachable, Run;
    var h := s.free.head;
    Reach(start, pids, s, BeginRemove(p, Free));
    var s1 := Step(s, BeginRemove(p, Free));
    Reach(start, pids, s1, Exec(p));
    var s2 := Step(s1, Exec(p));
    AtAt(s, p, Removing(Free, h.hi, LoadHead), Removing(Free, h.hi, CheckEmpty(h.lo)));
    Reach(start, pids, s2, Exec(p));
    AtAt(s, p, Removing(Free, h.hi, CheckEmpty(h.lo)), Idle);
    assert At(s, p, Idle) == s;
  }

  /** What shr_q_add changes when it carves a node: an id and a generation are drawn, the node is the last item. */
  ghost predicate Adds(s: State, s': State, n: int, v: int) {
    var e := Pair(n, s.idCntr + 1);
    && s'.link == s.link[n := e][s.items.tail.lo := e] && s'.val == s.val[n := v] && s'.idCntr == s.idCntr + 2
    && s'.items == s.items.(tail := e, log := s.items.log + [e], vals := s.items.vals + [v])
    && s'.events == s.events && s'.free == s.free && s'.procs == s.procs
  }

  /** copy_value draws an id; the pool is empty, so a node is carved, and filled. */
  lemma SoloCarve(start: nat, pids: set<nat>, s: State, p: nat, n: int, v: int) returns (s': State)
    requires Reachable(start, pids, s) && p in s.procs && s.procs[p] == Idle
    requires s.free.head.lo == s.free.tail.lo && n !in s.link && n >= HDR_END && n % NODE_SIZE == 0
    ensures Reachable(start, pids, s')
    ensures s' == At(s.(idCntr := s.idCntr + 1, link := s.link[n := Pair(NODE_SIZE, 0)], val := s.val[n := v],
                        place := s.place[n := Held(p)]), p, Holding(n))
  {
    hide Reachable, Run;
    Reach(start, pids, s, Draw(p));
    var s1 := Step(s, Draw(p));
    SoloPoolEmpty(start, pids, s1, p);
    Reach(start, pids, s1, Alloc(p, n));
    var s2 := Step(s1, Alloc(p, n));
    Reach(start, pids, s2, SetValue(p, v));
    s' := Step(s2, SetValue(p, v));
    assert s.val[n := 0][n := v] == s.val[n := v];
  }

  /** shr_q_add with an empty pool: the item's node is carved, filled and appended. */
  lemma SoloAddItem(start: nat, pids: set<nat>, s: State, p: nat, n: int, v: int) returns (s': State)
    requires Reachable(start, pids, s) && p in s.procs && s.procs[p] == Idle
    requires s.free.head.lo == s.free.tail.lo && Link(s, s.items.tail.lo) == s.items.tail
    requires n !in s.link && n >= HDR_END && n % NODE_SIZE == 0 && n != s.items.tail.lo
    ensures Reachable(start, pids, s') && Adds(s, s', n, v)
  {
    hide Reachable, Run, Step;
    var e := Pair(n, s.idCntr + 1);
    var s3 := SoloCarve(start, pids, s, p, n, v);
    var s4 := SoloTag(start, pids, s3, p, Items, n);
    assert s4.link == s.link[n := e];
    s' := SoloLink(start, pids, s4, p, Items, n, s.idCntr + 1);
    assert Get(s', Items) == s.items.(tail := e, log := s.items.log + [e], vals := s.items.vals + [v]);
    assert Get(s', Events) == s.events && Get(s', Free) == s.free;
    assert s'.procs == s.procs;
  }

  // ------------------------------------------------------------ the run

  const D := HDR_END        // the dummy the free pool is primed with
  const I := HDR_END + 8    // the dummy the item list is primed with
  const M := HDR_END + 20   // the node of the first item, behind its data block of 8 slots
  const N := HDR_END + 32   // the node of the second item, behind its data block

  /** Process 1 has queued two items: the list is I, M, N. */
  ghost predicate Stage1(s: State) {
    && s.procs == map[1 := Idle, 2 := Idle]
    && s.free == Primed(D, 0) && s.idCntr == 7
    && s.items == List(Pair(I, 2), Pair(N, 6), [Pair(I, 2), Pair(M, 4), Pair(N, 6)], [0, M - 8, N - 8], 0, [])
    && Link(s, D) == Pair(D, 0) && Link(s, I) == Pair(M, 4) && Link(s, M) == Pair(N, 6) && Link(s, N) == Pair(N, 6)
    && Value(s, M) == M - 8 && Value(s, N) == N - 8
  }

  lemma ToStage1(pids: set<nat>) returns (s: State)
    requires pids == {1, 2}
    ensures Reachable(0, pids, s) && Stage1(s)
  {
    hide Reachable, Run, Step;
    ReachInit(0, pids);
    var s0 := Init(0, pids);
    var s1 := SoloAddItem(0, pids, s0, 1, M, M - 8);
    assert Link(s1, M) == Pair(M, 4) && Link(s1, I) == Pair(M, 4) && Link(s1, D) == Pair(D, 0) && N !in s1.link;
    s := SoloAddItem(0, pids, s1, 1, N, N - 8);
    assert s.items.log == [Pair(I, 2), Pair(M, 4), Pair(N, 6)] && s.items.vals == [0, M - 8, N - 8];
  }

  /** Process 1 has removed the first item and is freeing its node I: it has loaded (D, 0) as the tail of the pool. */
  ghost predicate Poised(s: State) {
    1 in s.procs && s.procs[1] == Adding(Free, I, 7, LinkLast(Pair(D, 0)))
  }

  ghost predicate Stage2(s: State) {
    && Poised(s) && 2 in s.procs && s.procs[2] == Idle
    && s.free == Primed(D, 0) && s.idCntr == 8
    && s.items.head.lo == M && s.items.tail.lo == N
    && Link(s, D) == Pair(D, 0) && Link(s, M).lo == N && Value(s, N) != 0
  }

  lemma ToStage2(pids: set<nat>, s0: State) returns (s: State)
    requires Reachable(0, pids, s0) && Stage1(s0)
    ensures Reachable(0, pids, s) && Stage2(s)
  {
    hide Reachable, Run, Step;
    var s1 := SoloRemove(0, pids, s0, 1, Items);
    assert Get(s1, Free) == s0.free && Get(s1, Items).head.lo == M;
    var s2 := SoloTag(0, pids, s1, 1, Free, I);
    s := SoloSeeTail(0, pids, s2, 1, Free, I, 7);
  }

  /** Process 2 has removed the second item and freed its node M: the pool is D, M. */
  ghost predicate Stage3(s: State) {
    && Poised(s) && 2 in s.procs && s.procs[2] == Idle
    && s.free == List(Pair(D, 0), Pair(M, 8), [Pair(D, 0), Pair(M, 8)], [0, Value(s, M)], 0, [])
    && Link(s, D) == Pair(M, 8) && Link(s, M) == Pair(M, 8)
  }

  lemma ToStage3(pids: set<nat>, s0: State) returns (s: State)
    requires Reachable(0, pids, s0) && Stage2(s0)
    ensures Reachable(0, pids, s) && Stage3(s)
  {
    hide Reachable, Run, Step;
    var s1 := SoloRemove(0, pids, s0, 2, Items);
    assert Get(s1, Free) == s0.free && Link(s1, M) == Pair(0, 0) && Link(s1, D) == Pair(D, 0);
    var s2 := SoloTag(0, pids, s1, 2, Free, M);
    assert Link(s2, M) == Pair(M, 8) && Link(s2, D) == Pair(D, 0);
    s := SoloLink(0, pids, s2, 2, Free, M, 8);
    assert Get(s, Free).log == [Pair(D, 0), Pair(M, 8)];
  }

  /** Process 2 adds an item: it has got D from the pool and written its slot, but not yet its generation. */
  ghost predicate Stage4(s: State) {
    && Poised(s) && Link(s, D) == Pair(D, 0) && Link(s, M) == Pair(M, 8)
    && s.free.log == [Pair(D, 0), Pair(M, 8)] && s.free.front == 1
  }

  /** The process fills the node it has got and begins to append it; the first store of add_end is done. */
  lemma SoloFirstStore(start: nat, pids: set<nat>, s: State, p: nat, l: ListId, n: int, v: int) returns (s': State)
    requires Reachable(start, pids, s) && p in s.procs && s.procs[p] == Holding(n)
    ensures Reachable(start, pids, s')
    ensures s'.link == s.link[n := Pair(n, Link(s, n).hi)] && forall k :: Get(s', k) == Get(s, k)
    ensures s'.procs == s.procs[p := Adding(l, n, s.idCntr, StoreGen)]
  {
    hide Reachable, Run;
    Reach(start, pids, s, SetValue(p, v));
    var s1 := Step(s, SetValue(p, v));
    Reach(start, pids, s1, BeginAdd(p, l));
    var s2 := Step(s1, BeginAdd(p, l));
    Reach(start, pids, s2, Exec(p));
    s' := Step(s2, Exec(p));
    assert s'.procs == s.procs[p := Adding(l, n, s.idCntr, StoreGen)];
  }

  lemma ToStage4(pids: set<nat>, s0: State) returns (s: State)
    requires Reachable(0, pids, s0) && Stage3(s0)
    ensures Reachable(0, pids, s) && Stage4(s)
  {
    hide Reachable, Run, Step;
    Reach(0, pids, s0, Draw(2));
    var s1 := DrawnId(s0, 2);
    var s2 := SoloRemove(0, pids, s1, 2, Free);
    assert Get(s2, Free).log == s0.free.log && Link(s2, D) == Pair(0, 0) && Link(s2, M) == Pair(M, 8);
    s := SoloFirstStore(0, pids, s2, 2, Items, D, N - 8);
    assert Get(s, Free) == s2.free;
  }

  /** Drawing an id changes the counter only. */
  lemma DrawnId(s: State, p: nat) returns (s': State)
    requires p in s.procs
    ensures s' == Step(s, Draw(p)) == s.(idCntr := s.idCntr + 1)
  {
    s' := Step(s, Draw(p));
  }

  /**
   * With ID_CNTR starting at 0, two processes suffice.  Two items are queued.
   * Process 1 removes the first and stalls while freeing its node, with the
   * primed tail (D, 0) of the pool loaded; process 2 removes the other, frees
   * its node, and adds an item, for which it gets D back from the pool; then
   * process 1's link DWCAS succeeds although D is no longer on the pool, and
   * its node is lost.
   */
  lemma ZeroStartBreaks(pids: set<nat>) returns (s: State)
    requires pids == {1, 2}
    ensures Reachable(0, pids, s) && !Intact(s)
  {
    hide Reachable, Run;
    var s1 := ToStage1(pids);
    var s2 := ToStage2(pids, s1);
    var s3 := ToStage3(pids, s2);
    var s4 := ToStage4(pids, s3);
    Reach(0, pids, s4, Exec(1));
    s := Step(s4, Exec(1));
    assert Get(s, Free).log == [Pair(D, 0), Pair(M, 8)] + [Pair(I, 7)] && Link(s, M) == Pair(M, 8);
    var chain := Nodes(Get(s, Free));
    assert chain[0] == Pair(M, 8) && chain[1] == Pair(I, 7);
    assert Link(s, chain[0].lo) != chain[1];
  }

  /** The lists stay intact over every run, for every set of processes, if and only if ID_CNTR does not start at 0. */
  lemma IntactIffNonzeroStart(start: nat)
    ensures (forall pids, s :: Reachable(start, pids, s) ==> Intact(s)) <==> start != 0
  {
    hide Intact, Run;
    if start == 0 {
      var s := ZeroStartBreaks({1, 2});
      assert Reachable(0, {1, 2}, s);
    } else {
      forall pids, s | Reachable(start, pids, s) ensures Intact(s) {
        var acts :| Run(Init(start, pids), acts) == s;
        PositiveStartClean(start, pids, acts);
        InvIntact(s);
      }
    }
  }
}
