/**
 * The invariant of the tagged list, instruction by instruction.
 */
module TaggedListSteps {
  import opened Layout
  import opened TaggedList
  import opened TaggedListInv
  import opened TaggedListProof

  lemma StoreIsNodeStep(s: State, p: nat, n: int, w: Pair, c': Proc)
    requires PlacesOk(s) && p in s.procs && OwnNode(s, p, n)
    requires forall m :: Owns(s.procs[p], m) <==> Owns(c', m)
    ensures NodeStep(s, At(StoreLink(s, n, w), p, c'), p)
  {
    var s' := At(StoreLink(s, n, w), p, c');
    forall m | m in s'.place && (s.place[m].Stacked? || s.place[m] == Held(p))
      ensures HDR_END <= m && PlaceOk(s', m, s'.place[m])
    {
      assert PlaceOk(s, m, s.place[m]);
    }
  }

  /** A store to the link of a node the process owns. */
  lemma OwnStore(s: State, p: nat, n: int, w: Pair, c': Proc)
    requires Inv(s) && p in s.procs && OwnNode(s, p, n)
    requires forall m :: Owns(s.procs[p], m) <==> Owns(c', m)
    requires ProcOk(At(StoreLink(s, n, w), p, c'), p, c')
    ensures Inv(At(StoreLink(s, n, w), p, c'))
  {
    hide ListsOk, PlacesOk, ProcsOk;
    StoreIsNodeStep(s, p, n, w, c');
    NodeStepInv(s, At(StoreLink(s, n, w), p, c'), p);
  }

  lemma LocalIsNodeStep(s: State, p: nat, c': Proc)
    requires PlacesOk(s) && p in s.procs
    requires forall n :: Owns(s.procs[p], n) <==> Owns(c', n)
    ensures NodeStep(s, At(s, p, c'), p)
  {
    var s' := At(s, p, c');
    forall m | m in s'.place && (s.place[m].Stacked? || s.place[m] == Held(p))
      ensures HDR_END <= m && PlaceOk(s', m, s'.place[m])
    {
      assert PlaceOk(s, m, s.place[m]);
    }
  }

  lemma ProcOkLocal(s: State, p: nat, c': Proc)
    requires ProcOk(s, p, c')
    ensures ProcOk(At(s, p, c'), p, c')
  {
  }

  /** A load, or any other step that only moves the process on. */
  lemma LocalStep(s: State, p: nat, c': Proc)
    requires Inv(s) && p in s.procs
    requires forall n :: Owns(s.procs[p], n) <==> Owns(c', n)
    requires ProcOk(s, p, c')
    ensures Inv(At(s, p, c'))
  {
    hide ListsOk, PlacesOk, ProcsOk;
    LocalIsNodeStep(s, p, c');
    ProcOkLocal(s, p, c');
    NodeStepInv(s, At(s, p, c'), p);
  }

  lemma AllocIsNodeStep(s: State, p: nat, n: int)
    requires PlacesOk(s) && p in s.procs && s.procs[p] == Idle
    requires n !in s.link && n >= HDR_END && n % NODE_SIZE == 0
    ensures NodeStep(s, Step(s, Alloc(p, n)), p)
  {
    var s' := Step(s, Alloc(p, n));
    forall m | m in s'.place && (m !in s.place || s.place[m].Stacked? || s.place[m] == Held(p))
      ensures HDR_END <= m && !s'.place[m].OnList? && PlaceOk(s', m, s'.place[m])
    {
      if m in s.place {
        assert PlaceOk(s, m, s.place[m]);
      }
    }
  }

  lemma AllocStep(s: State, p: nat, n: int)
    requires Inv(s) && p in s.procs && s.procs[p] == Idle
    requires n !in s.link && n >= HDR_END && n % NODE_SIZE == 0
    ensures Inv(Step(s, Alloc(p, n)))
  {
    hide ListsOk, PlacesOk, ProcsOk;
    AllocIsNodeStep(s, p, n);
    IdleSnap(s, Holding(n));
    NodeStepInv(s, Step(s, Alloc(p, n)), p);
  }

  /** A process that is not on a list says nothing about the lists. */
  lemma IdleSnap(s: State, c: Proc)
    requires !c.Adding? && !c.SwingTail? && !c.Removing?
    ensures SnapOk(s, c)
  {
  }

  lemma SetValueIsNodeStep(s: State, p: nat, v: int)
    requires PlacesOk(s) && p in s.procs && s.procs[p].Holding? && OwnNode(s, p, s.procs[p].node)
    ensures NodeStep(s, Step(s, SetValue(p, v)), p)
  {
    var s' := Step(s, SetValue(p, v));
    forall m | m in s'.place && (s.place[m].Stacked? || s.place[m] == Held(p))
      ensures HDR_END <= m && PlaceOk(s', m, s'.place[m])
    {
      assert PlaceOk(s, m, s.place[m]);
    }
  }

  lemma SetValueStep(s: State, p: nat, v: int)
    requires Inv(s) && p in s.procs && s.procs[p].Holding?
    ensures Inv(Step(s, SetValue(p, v)))
  {
    hide ListsOk;
    assert ProcOk(s, p, s.procs[p]);
    SetValueIsNodeStep(s, p, v);
    IdleSnap(s, s.procs[p]);
    NodeStepInv(s, Step(s, SetValue(p, v)), p);
  }

  /** The stores of lifo_add to the node in hand. */
  lemma PushStoreStep(s: State, a: Action)
    requires Inv(s) && a.p in s.procs && (a.PushSlot? || a.PushCnt?) && Step(s, a) != s
    ensures Inv(Step(s, a))
  {
    hide ListsOk, PlacesOk, SnapOk;
    var c := s.procs[a.p];
    assert ProcOk(s, a.p, c);
    hide ProcsOk;
    var s' := Step(s, a);
    PushProc(s, a);
    OwnStore(s, a.p, c.node, Link(s', c.node), s'.procs[a.p]);
  }

  lemma PushProc(s: State, a: Action)
    requires a.p in s.procs && Own(s, a.p, s.procs[a.p]) && (a.PushSlot? || a.PushCnt?) && Step(s, a) != s
    ensures var s', c := Step(s, a), s.procs[a.p];
            && (c.Holding? || c.Pushing?) && OwnNode(s, a.p, c.node)
            && ProcOk(s', a.p, s'.procs[a.p])
            && s' == At(StoreLink(s, c.node, Link(s', c.node)), a.p, s'.procs[a.p])
            && (forall n :: Owns(c, n) <==> Owns(s'.procs[a.p], n))
  {
    var s', n := Step(s, a), s.procs[a.p].node;
    assert s'.link == s.link[n := Link(s', n)];
  }

  lemma PushIsNodeStep(s: State, p: nat)
    requires PlacesOk(s) && p in s.procs && s.procs[p].Pushing? && s.procs[p].stored && Own(s, p, s.procs[p])
    ensures NodeStep(s, Step(s, Push(p)), p)
  {
    var s' := Step(s, Push(p));
    forall m | m in s'.place && (s.place[m].Stacked? || s.place[m] == Held(p))
      ensures HDR_END <= m && !s'.place[m].OnList? && PlaceOk(s', m, s'.place[m])
    {
      assert PlaceOk(s, m, s.place[m]);
    }
  }

  lemma PushStep(s: State, p: nat)
    requires Inv(s) && p in s.procs && s.procs[p].Pushing? && s.procs[p].stored
    ensures Inv(Step(s, Push(p)))
  {
    hide ListsOk;
    assert ProcOk(s, p, s.procs[p]);
    PushIsNodeStep(s, p);
    IdleSnap(s, Idle);
    NodeStepInv(s, Step(s, Push(p)), p);
  }

  lemma PopIsNodeStep(s: State, p: nat, n: int)
    requires PlacesOk(s) && p in s.procs && s.procs[p] == Idle && n in s.place && s.place[n] == Stacked
    ensures NodeStep(s, Step(s, Pop(p, n)), p)
    ensures Link(s, n).lo != n
  {
    var s' := Step(s, Pop(p, n));
    assert PlaceOk(s, n, s.place[n]);
    forall m | m in s'.place && (s.place[m].Stacked? || s.place[m] == Held(p))
      ensures HDR_END <= m && !s'.place[m].OnList? && PlaceOk(s', m, s'.place[m])
    {
      assert PlaceOk(s, m, s.place[m]);
    }
  }

  lemma PopStep(s: State, p: nat, n: int)
    requires Inv(s) && p in s.procs && s.procs[p] == Idle && n in s.place && s.place[n] == Stacked
    ensures Inv(Step(s, Pop(p, n)))
  {
    hide ListsOk;
    PopIsNodeStep(s, p, n);
    IdleSnap(s, ZeroSlot(n));
    NodeStepInv(s, Step(s, Pop(p, n)), p);
  }

  lemma BeginAddIsNodeStep(s: State, p: nat, l: ListId)
    requires PlacesOk(s) && p in s.procs && s.procs[p].Holding? && Own(s, p, s.procs[p])
    ensures NodeStep(s, Step(s, BeginAdd(p, l)), p)
    ensures ProcOk(Step(s, BeginAdd(p, l)), p, Step(s, BeginAdd(p, l)).procs[p])
  {
    var s' := Step(s, BeginAdd(p, l));
    forall m | m in s'.place && (s.place[m].Stacked? || s.place[m] == Held(p))
      ensures HDR_END <= m && !s'.place[m].OnList? && PlaceOk(s', m, s'.place[m])
    {
      assert PlaceOk(s, m, s.place[m]);
    }
  }

  lemma BeginAddStep(s: State, p: nat, l: ListId)
    requires Inv(s) && p in s.procs && s.procs[p].Holding?
    ensures Inv(Step(s, BeginAdd(p, l)))
  {
    hide ListsOk;
    assert ProcOk(s, p, s.procs[p]);
    BeginAddIsNodeStep(s, p, l);
    NodeStepInv(s, Step(s, BeginAdd(p, l)), p);
  }

  lemma InvKeys(s: State)
    requires Inv(s)
    ensures s.place.Keys == s.link.Keys && forall n :: n in s.link ==> HDR_END <= n
  {
  }

  /** The private stores of add_end and of the memset after a removal. */
  lemma StoreStep(s: State, p: nat)
    requires Inv(s) && p in s.procs
    requires var c := s.procs[p]; c.ZeroSlot? || c.ZeroGen? || (c.Adding? && (c.add.StoreSlot? || c.add.StoreGen?))
    ensures Inv(Step(s, Exec(p)))
  {
    hide ListsOk, PlacesOk, SnapOk;
    var c := s.procs[p];
    assert ProcOk(s, p, c);
    hide ProcsOk;
    var s' := Step(s, Exec(p));
    InvKeys(s);
    StoreProc(s, p);
    OwnStore(s, p, c.node, Link(s', c.node), s'.procs[p]);
  }

  lemma StoreProc(s: State, p: nat)
    requires p in s.procs && Own(s, p, s.procs[p]) && s.place.Keys == s.link.Keys
    requires (forall n :: n in s.link ==> HDR_END <= n)
    requires var c := s.procs[p]; c.ZeroSlot? || c.ZeroGen? || (c.Adding? && (c.add.StoreSlot? || c.add.StoreGen?))
    ensures var s' := Step(s, Exec(p));
            && ProcOk(s', p, s'.procs[p])
            && s' == At(StoreLink(s, s.procs[p].node, Link(s', s.procs[p].node)), p, s'.procs[p])
            && (forall n :: Owns(s.procs[p], n) <==> Owns(s'.procs[p], n))
  {
    var s', n := Step(s, Exec(p)), s.procs[p].node;
    assert s'.link == s.link[n := Link(s', n)];
  }

  // ------------------------------------------------------------ loads

  /** A process whose tail snapshot still is the tail finds its node on the list. */
  lemma TailNode(s: State, l: ListId, tb: Pair)
    requires ListOk(s, l) && Get(s, l).tail == tb
    ensures Get(s, l).log != []
    ensures TailIdx(Get(s, l)) == |Get(s, l).log| - 1 ==> Link(s, tb.lo) == tb
    ensures TailIdx(Get(s, l)) == |Get(s, l).log| - 2 ==>
              Link(s, tb.lo) == Get(s, l).log[|Get(s, l).log| - 1] && Link(s, tb.lo).lo != tb.lo
  {
    var q := Get(s, l);
    var t := TailIdx(q);
    if t == |q.log| - 2 {
      assert s.place[q.log[t].lo] == OnList(l, t) && s.place[q.log[t + 1].lo] == OnList(l, t + 1);
    }
  }

  lemma TailIsSeen(q: List, l: ListId, tlo: int)
    requires Shape(l, q) && AddSnap(q, LoadTailCnt(tlo))
    ensures TailSeen(q, Pair(tlo, q.tail.hi))
  {
    assert q.log[TailIdx(q)].hi == q.tail.hi;
  }

  ghost predicate IsAddLoad(at: AddAt) {
    at.LoadTail? || at.LoadTailCnt? || at.LoadTailSlot? || at.Compare? ||
    at.LoadNext? || at.LoadNextCnt? || at.LoadNextSlot?
  }

  /** Where a load of add_end leads to, and with what in hand. */
  ghost function Loaded(s: State, q: List, at: AddAt): AddAt
    requires IsAddLoad(at)
  {
    match at
    case LoadTail => LoadTailCnt(q.tail.lo)
    case LoadTailCnt(tlo) => Compare(Pair(tlo, q.tail.hi))
    case LoadTailSlot(thi) => Compare(Pair(q.tail.lo, thi))
    case Compare(tb) => if Link(s, tb.lo).lo == tb.lo then LinkLast(tb) else LoadNext(tb)
    case LoadNext(tb) => LoadNextCnt(tb, Link(s, tb.lo).lo)
    case LoadNextCnt(tb, nlo) => HelpTail(tb, Pair(nlo, Link(s, tb.lo).hi))
    case LoadNextSlot(tb, nhi) => HelpTail(tb, Pair(Link(s, tb.lo).lo, nhi))
  }

  lemma AddLoaded(s: State, p: nat, l: ListId, node: int, gen: nat, at: AddAt)
    requires IsAddLoad(at)
    ensures ExecAdd(s, p, l, node, gen, at) == At(s, p, Adding(l, node, gen, Loaded(s, Get(s, l), at)))
  {
  }

  lemma TailLoadSnap(s: State, l: ListId, at: AddAt)
    requires ListOk(s, l) && AddSnap(Get(s, l), at) && (at.LoadTail? || at.LoadTailCnt? || at.LoadTailSlot?)
    ensures AddSnap(Get(s, l), Loaded(s, Get(s, l), at))
  {
    hide InMemory;
    if at.LoadTailCnt? {
      TailIsSeen(Get(s, l), l, at.tlo);
    }
  }

  lemma NextLoadSnap(s: State, l: ListId, at: AddAt)
    requires ListOk(s, l) && AddSnap(Get(s, l), at)
    requires (at.Compare? || at.LoadNext? || at.LoadNextCnt? || at.LoadNextSlot?)
    ensures AddSnap(Get(s, l), Loaded(s, Get(s, l), at))
  {
    hide InMemory, TailSeen;
    if Get(s, l).tail == at.tb {
      TailNode(s, l, at.tb);
    }
  }

  lemma AddLoadSnap(s: State, p: nat, l: ListId, node: int, gen: nat, at: AddAt)
    requires ListOk(s, l) && AddSnap(Get(s, l), at) && IsAddLoad(at)
    ensures AddSnap(Get(s, l), Loaded(s, Get(s, l), at))
    ensures !Loaded(s, Get(s, l), at).StoreSlot? && !Loaded(s, Get(s, l), at).StoreGen?
  {
    if at.LoadTail? || at.LoadTailCnt? || at.LoadTailSlot? {
      TailLoadSnap(s, l, at);
    } else {
      NextLoadSnap(s, l, at);
    }
  }

  /** What the invariant says about one process. */
  lemma ProcFacts(s: State, p: nat)
    requires Inv(s) && p in s.procs
    ensures var c := s.procs[p];
            && Own(s, p, c)
            && (c.Adding? ==> ListOk(s, c.l) && AddSnap(Get(s, c.l), c.add))
            && (c.SwingTail? ==> ListOk(s, c.l) && SwingSnap(Get(s, c.l), c.node, c.gen, c.tb))
            && (c.Removing? ==> ListOk(s, c.l) && RemSnap(c.l, Get(s, c.l), c.cnt, c.rem))
  {
    hide PlacesOk, ListOk, Own, AddSnap, SwingSnap, RemSnap;
    var c := s.procs[p];
    assert ProcOk(s, p, c);
    if c.Adding? || c.SwingTail? || c.Removing? {
      assert Snap(c.l, Get(s, c.l), c);
    }
  }

  lemma AddMoves(s: State, p: nat, c: Proc, at': AddAt)
    requires c.Adding? && Own(s, p, c) && !c.add.StoreSlot? && !c.add.StoreGen?
    requires AddSnap(Get(s, c.l), at') && !at'.StoreSlot? && !at'.StoreGen?
    ensures ProcOk(s, p, Adding(c.l, c.node, c.gen, at'))
  {
  }

  lemma RemMoves(s: State, p: nat, l: ListId, c': Proc)
    requires c' == Idle || (c'.Removing? && c'.l == l && RemSnap(l, Get(s, l), c'.cnt, c'.rem))
    ensures ProcOk(s, p, c')
  {
  }

  lemma AddLoads(s: State, p: nat, c: Proc)
    requires p in s.procs && s.procs[p] == c && c.Adding? && IsAddLoad(c.add) && Own(s, p, c)
    requires ListOk(s, c.l) && AddSnap(Get(s, c.l), c.add)
    ensures Step(s, Exec(p)) == At(s, p, Step(s, Exec(p)).procs[p])
    ensures ProcOk(s, p, Step(s, Exec(p)).procs[p])
    ensures forall n :: Owns(c, n) <==> Owns(Step(s, Exec(p)).procs[p], n)
  {
    hide ListOk, AddSnap, Own, Loaded;
    AddLoaded(s, p, c.l, c.node, c.gen, c.add);
    AddLoadSnap(s, p, c.l, c.node, c.gen, c.add);
    AddMoves(s, p, c, Loaded(s, Get(s, c.l), c.add));
    hide ExecAdd;
  }

  lemma AddLoadStep(s: State, p: nat, c: Proc)
    requires Inv(s) && p in s.procs && s.procs[p] == c && c.Adding? && IsAddLoad(c.add) && Own(s, p, c)
    requires ListOk(s, c.l) && AddSnap(Get(s, c.l), c.add)
    ensures Inv(Step(s, Exec(p)))
  {
    hide ListsOk, ListOk, PlacesOk, ProcsOk, ProcOk;
    AddLoads(s, p, c);
    LocalStep(s, p, Step(s, Exec(p)).procs[p]);
  }

  /** Reading the high half of a pair first. */
  lemma HighTailSnap(s: State, l: ListId)
    requires ListOk(s, l)
    ensures AddSnap(Get(s, l), LoadTailSlot(Get(s, l).tail.hi))
  {
    var q := Get(s, l);
    assert q.log[TailIdx(q)].hi == q.tail.hi;
  }

  lemma HighNextSnap(s: State, l: ListId, tb: Pair)
    requires ListOk(s, l) && AddSnap(Get(s, l), LoadNext(tb))
    ensures AddSnap(Get(s, l), LoadNextSlot(tb, Link(s, tb.lo).hi))
  {
    hide InMemory;
    if Get(s, l).tail == tb {
      TailNode(s, l, tb);
    }
  }

  ghost predicate ReadsHigh(c: Proc) {
    c.Adding? && (c.add.LoadTail? || c.add.LoadNext?)
  }

  /** What is in hand after the high half has been read. */
  ghost function High(s: State, c: Proc): AddAt
    requires ReadsHigh(c)
  {
    if c.add.LoadTail? then LoadTailSlot(Get(s, c.l).tail.hi) else LoadNextSlot(c.add.tb, Link(s, c.add.tb.lo).hi)
  }

  lemma HighIs(s: State, p: nat)
    requires p in s.procs
    ensures var c := s.procs[p];
            Step(s, ExecHigh(p)) == if ReadsHigh(c) then At(s, p, Adding(c.l, c.node, c.gen, High(s, c))) else s
  {
  }

  lemma ReadHighStep(s: State, p: nat)
    requires Inv(s) && p in s.procs
    ensures Inv(Step(s, ExecHigh(p)))
  {
    HighIs(s, p);
    hide Inv, ListOk, Own, AddSnap, Step;
    ProcFacts(s, p);
    var c := s.procs[p];
    if c.Adding? && c.add.LoadTail? {
      HighTailSnap(s, c.l);
      HighStep(s, p, c, High(s, c));
    } else if c.Adding? && c.add.LoadNext? {
      HighNextSnap(s, c.l, c.add.tb);
      HighStep(s, p, c, High(s, c));
    }
  }

  lemma HighStep(s: State, p: nat, c: Proc, at: AddAt)
    requires Inv(s) && p in s.procs && s.procs[p] == c && c.Adding? && !c.add.StoreSlot? && !c.add.StoreGen?
    requires Own(s, p, c) && AddSnap(Get(s, c.l), at) && !at.StoreSlot? && !at.StoreGen?
    ensures Inv(At(s, p, Adding(c.l, c.node, c.gen, at)))
  {
    hide Inv, ProcOk, Own, AddSnap;
    AddMoves(s, p, c, at);
    LocalStep(s, p, Adding(c.l, c.node, c.gen, at));
  }

  /** Drawing an id only moves the counter. */
  lemma DrawStep(s: State, p: nat)
    requires Inv(s) && p in s.procs
    ensures Inv(Step(s, Draw(p)))
  {
    hide ListsOk, PlacesOk, ProcOk, NodeStep, Step;
    assert ProcOk(s, p, s.procs[p]);
    DrawIsNodeStep(s, p);
    DrawProc(s, p);
    hide ProcsOk;
    NodeStepInv(s, Step(s, Draw(p)), p);
  }

  lemma DrawProc(s: State, p: nat)
    requires p in s.procs && ProcOk(s, p, s.procs[p])
    ensures ProcOk(Step(s, Draw(p)), p, s.procs[p]) && Step(s, Draw(p)).procs == s.procs
  {
  }

  lemma DrawIsNodeStep(s: State, p: nat)
    requires PlacesOk(s) && p in s.procs
    ensures NodeStep(s, Step(s, Draw(p)), p)
  {
    var s' := Step(s, Draw(p));
    forall m | m in s'.place && (s.place[m].Stacked? || s.place[m] == Held(p))
      ensures HDR_END <= m && !s'.place[m].OnList? && PlaceOk(s', m, s'.place[m])
    {
      assert PlaceOk(s, m, s.place[m]);
    }
  }

  /** While the head counter has not moved, the node at the head is the dummy and its link names the first item. */
  lemma FirstNode(s: State, l: ListId, cnt: int, ref: int)
    requires ListOk(s, l) && HeadPassed(Get(s, l), cnt, ref) && Get(s, l).head.hi == cnt
    ensures var q := Get(s, l);
            && q.front + 1 < |q.log| && Link(s, ref) == q.log[q.front + 1]
            && Value(s, q.log[q.front + 1].lo) == q.vals[q.front + 1]
  {
  }

  lemma HeadLoads(s: State, l: ListId, cnt: int, at: RemAt)
    requires Shape(l, Get(s, l)) && RemSnap(l, Get(s, l), cnt, at)
    ensures at.LoadHead? ==> HeadKept(Get(s, l), cnt, Get(s, l).head.lo)
    ensures at.CheckEmpty? && at.ref != Get(s, l).tail.lo ==> HeadPassed(Get(s, l), cnt, at.ref)
  {
  }

  lemma RemLoadSnap(s: State, p: nat, l: ListId, cnt: int, at: RemAt)
    requires ListOk(s, l) && RemSnap(l, Get(s, l), cnt, at) && !at.SwingHead?
    ensures var c' := ExecRemove(s, p, l, cnt, at).procs[p];
            && ExecRemove(s, p, l, cnt, at) == At(s, p, c')
            && (c' == Idle || (c'.Removing? && c'.l == l && RemSnap(l, Get(s, l), c'.cnt, c'.rem)))
  {
    var q := Get(s, l);
    if at.LoadHead? || at.CheckEmpty? {
      hide InMemory;
      HeadLoads(s, l, cnt, at);
    } else if q.head.hi == cnt {
      FirstNode(s, l, cnt, at.ref);
      hide ListOk;
    }
  }

  lemma RemLoads(s: State, p: nat, c: Proc)
    requires p in s.procs && s.procs[p] == c && c.Removing? && !c.rem.SwingHead?
    requires ListOk(s, c.l) && RemSnap(c.l, Get(s, c.l), c.cnt, c.rem)
    ensures Step(s, Exec(p)) == At(s, p, Step(s, Exec(p)).procs[p])
    ensures ProcOk(s, p, Step(s, Exec(p)).procs[p])
    ensures forall n :: !Owns(Step(s, Exec(p)).procs[p], n)
  {
    RemLoadSnap(s, p, c.l, c.cnt, c.rem);
    RemMoves(s, p, c.l, Step(s, Exec(p)).procs[p]);
  }

  lemma RemLoadStep(s: State, p: nat, c: Proc)
    requires Inv(s) && p in s.procs && s.procs[p] == c && c.Removing? && !c.rem.SwingHead?
    requires ListOk(s, c.l) && RemSnap(c.l, Get(s, c.l), c.cnt, c.rem)
    ensures Inv(Step(s, Exec(p)))
  {
    hide ListsOk, ListOk, PlacesOk, ProcsOk, ProcOk;
    RemLoads(s, p, c);
    LocalStep(s, p, Step(s, Exec(p)).procs[p]);
  }

  lemma BeginRemoveStep(s: State, p: nat, l: ListId)
    requires Inv(s) && p in s.procs && s.procs[p] == Idle
    ensures Inv(Step(s, BeginRemove(p, l)))
  {
    hide ListsOk, PlacesOk, ProcsOk;
    LocalStep(s, p, Removing(l, Get(s, l).head.hi, LoadHead));
  }

  lemma GiveUpStep(s: State, p: nat)
    requires Inv(s) && p in s.procs && s.procs[p].Removing?
    ensures Inv(At(s, p, Idle))
  {
    hide ListsOk, PlacesOk, ProcsOk;
    IdleSnap(s, Idle);
    LocalStep(s, p, Idle);
  }
}
