/**
 * The DWCASes of the tagged list.  Each of them succeeds only where it should,
 * however old the values it compares with are, and keeps the invariant.
 */
module TaggedListSwaps {
  import opened Layout
  import opened TaggedList
  import opened TaggedListInv
  import opened TaggedListProof
  import opened TaggedListSteps

  /**
   * The process links behind a node of generation 0 although the tail has moved
   * on: its DWCAS finds the pair it has loaded.  Generation 0 exists only if
   * ID_CNTR starts at 0, and then belongs to the dummy the free pool is primed with.
   */
  ghost predicate StaleZero(s: State, a: Action) {
    && a.Exec? && a.p in s.procs && s.procs[a.p].Adding? && s.procs[a.p].add.LinkLast?
    && s.procs[a.p].add.tb.hi == 0 && Get(s, s.procs[a.p].l).tail.hi != 0
    && Link(s, s.procs[a.p].add.tb.lo) == s.procs[a.p].add.tb
  }

  /** A held node whose link names itself carries a generation that is not on any list. */
  lemma SelfLinked(s: State, n: int, gen: int)
    requires Inv(s) && n in s.place && s.place[n].Held? && Link(s, n) == Pair(n, gen) && gen > 0
    ensures gen in s.mint && s.mint[gen].Pending?
  {
    assert PlaceOk(s, n, s.place[n]);
    ProcFacts(s, s.place[n].p);
  }

  /** A node on a list whose link names itself is the last one. */
  lemma LastNode(s: State, l: ListId, i: nat, n: int)
    requires ListOk(s, l) && n in s.place && s.place[n] == OnList(l, i)
    requires Get(s, l).front <= i < |Get(s, l).log| && Get(s, l).log[i].lo == n
    ensures Link(s, n).lo == n ==> i == |Get(s, l).log| - 1
  {
    var q := Get(s, l);
    if i < |q.log| - 1 {
      assert Link(s, q.log[i].lo) == q.log[i + 1];
      assert s.place[q.log[i + 1].lo] == OnList(l, i + 1);
    }
  }

  /** A loaded tail names an entry of the log; with generation 0 it is the first one, intact. */
  lemma SeenEntry(s: State, l: ListId, tb: Pair) returns (j: nat)
    requires ListOk(s, l) && TailSeen(Get(s, l), tb)
    ensures j <= TailIdx(Get(s, l)) < |Get(s, l).log| && Get(s, l).log[j].hi == tb.hi && tb.hi >= 0
    ensures tb.hi in s.mint && s.mint[tb.hi] == Linked(l, j)
    ensures tb.hi == 0 && Get(s, l).tail.hi == 0 ==> j == 0 == TailIdx(Get(s, l)) && tb.lo == Get(s, l).log[0].lo
  {
    var q := Get(s, l);
    j :| 0 <= j <= TailIdx(q) && j < |q.log| && q.log[j].hi == tb.hi;
  }

  lemma SelfLinkedPlace(s: State, n: int, gen: int)
    requires Inv(s) && n in s.link && Link(s, n) == Pair(n, gen) && gen > 0 && gen in s.mint && s.mint[gen].Linked?
    ensures s.place[n].OnList?
  {
    assert PlaceOk(s, n, s.place[n]);
    if s.place[n].Held? {
      SelfLinked(s, n, gen);
    }
  }

  /** A node on a list that names itself with the generation of entry j of list l is that entry. */
  lemma SelfLinkedEntry(s: State, l: ListId, j: nat, n: int, gen: int)
    requires ListsOk(s) && PlacesOk(s) && n in s.place && s.place[n].OnList? && Link(s, n) == Pair(n, gen)
    requires gen in s.mint && s.mint[gen] == Linked(l, j)
    ensures j == |Get(s, l).log| - 1 && Get(s, l).log[j] == Pair(n, gen)
  {
    hide ListOk;
    var k, i := s.place[n].l, s.place[n].i;
    assert PlaceOk(s, n, s.place[n]) && ListOk(s, k);
    LastNode(s, k, i, n);
    EntryMinted(s, k, i, n);
  }

  lemma EntryMinted(s: State, k: ListId, i: nat, n: int)
    requires ListOk(s, k) && Get(s, k).front <= i < |Get(s, k).log| && Get(s, k).log[i].lo == n && n in s.place &&
            s.place[n] == OnList(k, i)
    ensures Link(s, n).lo == n ==> i == |Get(s, k).log| - 1 && Link(s, n) == Get(s, k).log[i]
    ensures Get(s, k).log[i].hi in s.mint && s.mint[Get(s, k).log[i].hi] == Linked(k, i)
  {
    LastNode(s, k, i, n);
  }

  lemma ZeroEntryPlace(s: State, l: ListId)
    requires ListOk(s, l) && TailIdx(Get(s, l)) == 0
    ensures Get(s, l).log[0].lo in s.link && Get(s, l).log[0].lo in s.place
    ensures s.place[Get(s, l).log[0].lo] == OnList(l, 0)
  {
  }

  /**
   * A link DWCAS that would succeed hits the last node of the list, which is
   * also the tail: a loaded tail that is stale, or whose halves were loaded at
   * different times, never matches.
   */
  lemma LinkTarget(s: State, l: ListId, tb: Pair)
    requires Inv(s) && ListOk(s, l) && TailSeen(Get(s, l), tb) && Link(s, tb.lo) == tb
    requires tb.hi == 0 ==> Get(s, l).tail.hi == 0
    ensures Get(s, l).log != [] && tb == Get(s, l).log[|Get(s, l).log| - 1] && tb == Get(s, l).tail
  {
    hide ProcsOk;
    var j := SeenEntry(s, l, tb);
    if tb.hi == 0 {
      ZeroEntryPlace(s, l);
    } else {
      SelfLinkedPlace(s, tb.lo, tb.hi);
    }
    SelfLinkedEntry(s, l, j, tb.lo, tb.hi);
    TailEntry(l, Get(s, l), j);
  }

  lemma TailEntry(l: ListId, q: List, j: nat)
    requires Shape(l, q) && j == |q.log| - 1 && j <= TailIdx(q)
    ensures q.tail == q.log[j]
  {
  }

  // ------------------------------------------------------------ linking a node

  /** The list after a node has been linked behind its last node. */
  ghost function Appended(q: List, e: Pair, v: int): List {
    q.(log := q.log + [e], vals := q.vals + [v])
  }

  lemma AppendedShape(l: ListId, q: List, e: Pair, v: int)
    requires Shape(l, q) && TailIdx(q) == |q.log| - 1 && e.hi > 0 && e != q.tail
    ensures Shape(l, Appended(q, e, v)) && TailIdx(Appended(q, e, v)) == |q.log| - 1
    ensures Advances(q, Appended(q, e, v))
  {
    var q' := Appended(q, e, v);
    assert q'.log[|q'.log| - 1] == e;
    assert q'.log[|q'.log| - 2] == q.tail;
  }

  /** Process p is at a link DWCAS that is about to succeed. */
  ghost predicate AtLink(s: State, p: nat, l: ListId, node: int, gen: nat, tb: Pair) {
    && p in s.procs && s.procs[p] == Adding(l, node, gen, LinkLast(tb))
    && OwnNode(s, p, node) && Link(s, node) == Pair(node, gen)
    && gen in s.mint && s.mint[gen] == Pending(p) && gen > 0
    && Get(s, l).log != [] && tb == Get(s, l).log[|Get(s, l).log| - 1] && tb == Get(s, l).tail
    && tb.lo in s.link && tb.lo in s.place && s.place[tb.lo] == OnList(l, |Get(s, l).log| - 1)
  }

  /** The state after the link DWCAS of process p has succeeded. */
  ghost predicate Links(s: State, s': State, p: nat, l: ListId, node: int, gen: nat, tb: Pair) {
    && AtLink(s, p, l, node, gen, tb)
    && Get(s', l) == Appended(Get(s, l), Pair(node, gen), Value(s, node))
    && (forall k :: k != l ==> Get(s', k) == Get(s, k))
    && s'.link == s.link[tb.lo := Pair(node, gen)] && s'.val == s.val
    && s'.place == s.place[node := OnList(l, |Get(s, l).log|)]
    && s'.mint == s.mint[gen := Linked(l, |Get(s, l).log|)] && s'.idCntr == s.idCntr
    && s'.procs == s.procs[p := SwingTail(l, node, gen, tb)]
  }

  lemma SwapLinks(s: State, p: nat, l: ListId, node: int, gen: nat, tb: Pair)
    requires AtLink(s, p, l, node, gen, tb) && Link(s, tb.lo) == tb
    ensures Links(s, LinkSwap(s, p, l, node, gen, tb), p, l, node, gen, tb)
  {
  }

  lemma LinksShape(s: State, s': State, p: nat, l: ListId, node: int, gen: nat, tb: Pair)
    requires Links(s, s', p, l, node, gen, tb) && ListOk(s, l)
    ensures Shape(l, Get(s', l)) && Advances(Get(s, l), Get(s', l))
  {
    hide Placed, Chained;
    assert s.mint[tb.hi] == Linked(l, |Get(s, l).log| - 1);
    AppendedShape(l, Get(s, l), Pair(node, gen), Value(s, node));
  }

  lemma LinksPlaced(s: State, s': State, p: nat, l: ListId, node: int, gen: nat, tb: Pair)
    requires Links(s, s', p, l, node, gen, tb) && Placed(s, l, Get(s, l)) && s.val.Keys == s.link.Keys == s.place.Keys
    requires |Get(s, l).vals| == |Get(s, l).log|
    ensures Placed(s', l, Get(s', l))
  {
    var q, q' := Get(s, l), Get(s', l);
    forall i | q'.front <= i < |q'.log|
      ensures q'.log[i].lo in s'.link
      ensures q'.log[i].lo in s'.place && s'.place[q'.log[i].lo] == OnList(l, i)
      ensures Value(s', q'.log[i].lo) == q'.vals[i]
    {
      if i < |q.log| {
        assert q'.log[i] == q.log[i] && q.log[i].lo != node;
      }
    }
  }

  lemma LinksChained(s: State, s': State, p: nat, l: ListId, node: int, gen: nat, tb: Pair)
    requires Links(s, s', p, l, node, gen, tb) && Placed(s, l, Get(s, l)) && Chained(s, Get(s, l))
    requires |Get(s, l).vals| == |Get(s, l).log|
    ensures Chained(s', Get(s', l))
  {
    var q, q' := Get(s, l), Get(s', l);
    forall i, j | q'.front <= i && j == i + 1 && j < |q'.log| ensures Link(s', q'.log[i].lo) == q'.log[j] {
      assert q'.log[i] == q.log[i];
      if j < |q.log| {
        assert q'.log[j] == q.log[j];
        assert s.place[q.log[i].lo] == OnList(l, i);
      }
    }
  }

  lemma LinksMinted(s: State, s': State, p: nat, l: ListId, node: int, gen: nat, tb: Pair)
    requires Links(s, s', p, l, node, gen, tb) && Minted(s, l, Get(s, l))
    ensures Minted(s', l, Get(s', l))
  {
    var q, q' := Get(s, l), Get(s', l);
    forall i | 0 <= i < |q'.log|
      ensures 0 <= q'.log[i].hi && q'.log[i].hi in s'.mint && s'.mint[q'.log[i].hi] == Linked(l, i)
    {
      if i < |q.log| {
        assert q'.log[i] == q.log[i] && q.log[i].hi != gen;
      }
    }
  }

  lemma LinksList(s: State, s': State, p: nat, l: ListId, node: int, gen: nat, tb: Pair)
    requires Links(s, s', p, l, node, gen, tb) && ListOk(s, l) && s.val.Keys == s.link.Keys == s.place.Keys
    ensures ListOk(s', l) && Advances(Get(s, l), Get(s', l))
  {
    hide Placed, Chained, Minted, Advances;
    LinksShape(s, s', p, l, node, gen, tb);
    LinksPlaced(s, s', p, l, node, gen, tb);
    LinksChained(s, s', p, l, node, gen, tb);
    LinksMinted(s, s', p, l, node, gen, tb);
  }

  lemma LinksPlaces(s: State, s': State, p: nat, l: ListId, node: int, gen: nat, tb: Pair)
    requires Links(s, s', p, l, node, gen, tb) && PlacesOk(s)
    ensures PlacesOk(s')
  {
    forall n | n in s'.place ensures PlaceOk(s', n, s'.place[n]) {
      assert PlaceOk(s, n, s.place[n]);
      if n != node && s.place[n].OnList? && s.place[n].l == l {
        assert Get(s', l).log[s.place[n].i] == Get(s, l).log[s.place[n].i];
      }
    }
  }

  lemma LinksOthers(s: State, s': State, p: nat, l: ListId, node: int, gen: nat, tb: Pair)
    requires Links(s, s', p, l, node, gen, tb) && Advances(Get(s, l), Get(s', l))
    ensures Others(s, s', p)
  {
    forall k ensures Advances(Get(s, k), Get(s', k)) {
    }
    assert Advances(Get(s, Items), Get(s', Items)) && Advances(Get(s, Events), Get(s', Events)) &&
        Advances(Get(s, Free), Get(s', Free));
  }

  lemma LinksUntouched(s: State, s': State, p: nat, l: ListId, node: int, gen: nat, tb: Pair, k: ListId)
    requires Links(s, s', p, l, node, gen, tb) && k != l
    ensures Untouched(s, s', k)
  {
  }

  lemma LinksProc(s: State, s': State, p: nat, l: ListId, node: int, gen: nat, tb: Pair)
    requires Links(s, s', p, l, node, gen, tb)
    ensures ProcOk(s', p, s'.procs[p])
  {
    var q, q' := Get(s, l), Get(s', l);
    var i, j := |q.log| - 1, |q.log|;
    assert q'.log[i] == tb && q'.log[j] == Pair(node, gen);
  }

  lemma LinksInv(s: State, s': State, p: nat, l: ListId, node: int, gen: nat, tb: Pair)
    requires Inv(s) && ListOk(s, l) && Links(s, s', p, l, node, gen, tb)
    ensures Inv(s')
  {
    hide ListsOk, ListOk, ProcsOk, ProcOk;
    LinksList(s, s', p, l, node, gen, tb);
    LinksPlaces(s, s', p, l, node, gen, tb);
    LinksOthers(s, s', p, l, node, gen, tb);
    LinksProc(s, s', p, l, node, gen, tb);
    KeepOthers(s, s', l) by {
      forall k | k != l ensures Untouched(s, s', k) {
        LinksUntouched(s, s', p, l, node, gen, tb, k);
      }
    }
    ProcsKept(s, s', p);
  }

  lemma KeepOthers(s: State, s': State, l: ListId)
    requires ListsOk(s) && ListOk(s', l)
    requires forall k :: k != l ==> Untouched(s, s', k)
    ensures ListsOk(s')
  {
    forall k | k != l ensures ListOk(s', k) {
      assert ListOk(s, k);
      ListKept(s, s', k);
    }
  }

  // ------------------------------------------------------------ moving the tail

  /** The state after a DWCAS has moved a tail that was one behind. */
  ghost predicate Moves(s: State, s': State, p: nat, l: ListId, c': Proc) {
    && p in s.procs
    && Get(s, l).log != [] && TailIdx(Get(s, l)) == |Get(s, l).log| - 2
    && Get(s', l) == Get(s, l).(tail := Get(s, l).log[|Get(s, l).log| - 1])
    && (forall k :: k != l ==> Get(s', k) == Get(s, k))
    && s'.link == s.link && s'.val == s.val && s'.place == s.place && s'.mint == s.mint && s'.idCntr == s.idCntr
    && s'.procs == s.procs[p := c']
    && (forall n :: Owns(s.procs[p], n) <==> Owns(c', n))
  }

  lemma MovesList(s: State, s': State, p: nat, l: ListId, c': Proc)
    requires Moves(s, s', p, l, c') && ListOk(s, l)
    ensures ListOk(s', l) && Advances(Get(s, l), Get(s', l))
  {
    var q, q' := Get(s, l), Get(s', l);
    forall i, j | q'.front <= i && j == i + 1 && j < |q'.log| ensures Link(s', q'.log[i].lo) == q'.log[j] {
      assert Link(s, q.log[i].lo) == q.log[j];
    }
  }

  lemma MovesPlaces(s: State, s': State, p: nat, l: ListId, c': Proc)
    requires Moves(s, s', p, l, c') && PlacesOk(s)
    ensures PlacesOk(s')
  {
    forall n | n in s'.place ensures PlaceOk(s', n, s'.place[n]) {
      assert PlaceOk(s, n, s.place[n]);
    }
  }

  lemma MovesOthers(s: State, s': State, p: nat, l: ListId, c': Proc)
    requires Moves(s, s', p, l, c') && Advances(Get(s, l), Get(s', l))
    ensures Others(s, s', p)
  {
    forall k ensures Advances(Get(s, k), Get(s', k)) {
    }
    assert Advances(Get(s, Items), Get(s', Items)) && Advances(Get(s, Events), Get(s', Events)) &&
        Advances(Get(s, Free), Get(s', Free));
  }

  lemma MovesInv(s: State, s': State, p: nat, l: ListId, c': Proc)
    requires Inv(s) && ListOk(s, l) && Moves(s, s', p, l, c')
    requires ProcOk(s', p, c')
    ensures Inv(s')
  {
    hide ListsOk, ListOk, PlacesOk, ProcsOk, ProcOk;
    MovesList(s, s', p, l, c');
    MovesPlaces(s, s', p, l, c');
    MovesOthers(s, s', p, l, c');
    KeepOthers(s, s', l);
    ProcsKept(s, s', p);
  }

  /** What add_end's last DWCAS finds when it succeeds: its own node is the one the tail is behind by. */
  lemma SwingTarget(s: State, l: ListId, node: int, gen: nat, tb: Pair)
    requires ListOk(s, l) && SwingSnap(Get(s, l), node, gen, tb) && Get(s, l).tail == tb
    ensures var q := Get(s, l); TailIdx(q) == |q.log| - 2 && Pair(node, gen) == q.log[|q.log| - 1]
  {
    var q := Get(s, l);
    var i, j :| 0 <= i && j == i + 1 && j < |q.log| && q.log[i] == tb && q.log[j] == Pair(node, gen);
    GensDistinct(s, l);
    assert TailIdx(q) == i;
  }

  lemma SwingMoves(s: State, p: nat, l: ListId, node: int, gen: nat, tb: Pair)
    requires p in s.procs && s.procs[p] == SwingTail(l, node, gen, tb)
    requires ListOk(s, l) && SwingSnap(Get(s, l), node, gen, tb) && Get(s, l).tail == tb
    ensures Moves(s, Step(s, Exec(p)), p, l, Idle) && ProcOk(Step(s, Exec(p)), p, Idle)
  {
    SwingTarget(s, l, node, gen, tb);
  }

  lemma SwingMisses(s: State, p: nat, l: ListId, node: int, gen: nat, tb: Pair)
    requires p in s.procs && s.procs[p] == SwingTail(l, node, gen, tb) && Get(s, l).tail != tb
    ensures Step(s, Exec(p)) == At(s, p, Idle) && ProcOk(s, p, Idle)
  {
  }

  lemma SwingTailStep(s: State, p: nat, l: ListId, node: int, gen: nat, tb: Pair)
    requires Inv(s) && p in s.procs && s.procs[p] == SwingTail(l, node, gen, tb)
    requires ListOk(s, l) && SwingSnap(Get(s, l), node, gen, tb)
    ensures Inv(Step(s, Exec(p)))
  {
    hide ListsOk, ListOk, PlacesOk, ProcsOk, ProcOk;
    var s' := Step(s, Exec(p));
    if Get(s, l).tail == tb {
      SwingMoves(s, p, l, node, gen, tb);
      MovesInv(s, s', p, l, Idle);
    } else {
      SwingMisses(s, p, l, node, gen, tb);
      LocalStep(s, p, Idle);
    }
  }

  lemma HelpMoves(s: State, p: nat, c: Proc)
    requires p in s.procs && s.procs[p] == c && c.Adding? && c.add.HelpTail? && Own(s, p, c)
    requires ListOk(s, c.l) && AddSnap(Get(s, c.l), c.add) && Get(s, c.l).tail == c.add.tb
    ensures Moves(s, Step(s, Exec(p)), p, c.l, Adding(c.l, c.node, c.gen, LoadTail))
    ensures ProcOk(Step(s, Exec(p)), p, Adding(c.l, c.node, c.gen, LoadTail))
  {
    hide InMemory, TailSeen;
  }

  lemma HelpMisses(s: State, p: nat, c: Proc)
    requires p in s.procs && s.procs[p] == c && c.Adding? && c.add.HelpTail? && Own(s, p, c)
    requires Get(s, c.l).tail != c.add.tb
    ensures Step(s, Exec(p)) == At(s, p, Adding(c.l, c.node, c.gen, LoadTail))
    ensures ProcOk(s, p, Adding(c.l, c.node, c.gen, LoadTail))
  {
  }

  lemma HelpStep(s: State, p: nat, c: Proc)
    requires Inv(s) && p in s.procs && s.procs[p] == c && c.Adding? && c.add.HelpTail? && Own(s, p, c)
    requires ListOk(s, c.l) && AddSnap(Get(s, c.l), c.add)
    ensures Inv(Step(s, Exec(p)))
  {
    hide ListsOk, ListOk, PlacesOk, ProcsOk, ProcOk;
    if Get(s, c.l).tail == c.add.tb {
      HelpMoves(s, p, c);
      MovesInv(s, Step(s, Exec(p)), p, c.l, Adding(c.l, c.node, c.gen, LoadTail));
    } else {
      HelpMisses(s, p, c);
      LocalStep(s, p, Adding(c.l, c.node, c.gen, LoadTail));
    }
  }

  // ------------------------------------------------------------ moving the head

  /** The list after its head has been moved to the next node. */
  ghost function Dropped(q: List, v: int): List
    requires q.front + 1 < |q.log|
  {
    q.(head := Pair(q.log[q.front + 1].lo, q.head.hi + 1), front := q.front + 1, out := q.out + [v])
  }

  ghost predicate Drops(s: State, s': State, p: nat, l: ListId, v: int) {
    var q := Get(s, l);
    && p in s.procs && s.procs[p].Removing?
    && q.front < TailIdx(q) < |q.log| && (l != Free ==> |q.vals| == |q.log| && v == q.vals[q.front + 1])
    && Get(s', l) == Dropped(q, v)
    && (forall k :: k != l ==> Get(s', k) == Get(s, k))
    && s'.link == s.link && s'.val == s.val && s'.mint == s.mint && s'.idCntr == s.idCntr
    && s'.place == s.place[q.head.lo := Held(p)]
    && s'.procs == s.procs[p := ZeroSlot(q.head.lo)]
  }

  lemma DropsShape(s: State, s': State, p: nat, l: ListId, v: int)
    requires Drops(s, s', p, l, v) && Shape(l, Get(s, l))
    ensures Shape(l, Get(s', l)) && Advances(Get(s, l), Get(s', l))
  {
    var q, q' := Get(s, l), Get(s', l);
    assert q'.out == q.vals[1..q.front + 1] + [q.vals[q.front + 1]] == q'.vals[1..q'.front + 1] || l == Free;
  }

  lemma DropsPlaced(s: State, s': State, p: nat, l: ListId, v: int)
    requires Drops(s, s', p, l, v) && Placed(s, l, Get(s, l)) && Shape(l, Get(s, l))
    ensures Placed(s', l, Get(s', l))
  {
    var q, q' := Get(s, l), Get(s', l);
    forall i | q'.front <= i < |q'.log| ensures q'.log[i].lo in s'.place && s'.place[q'.log[i].lo] == OnList(l, i) {
      assert s.place[q.log[i].lo] == OnList(l, i) && s.place[q.log[q.front].lo] == OnList(l, q.front);
    }
  }

  lemma DropsMemory(s: State, s': State, p: nat, l: ListId, v: int)
    requires Drops(s, s', p, l, v) && InMemory(s, l, Get(s, l)) && Shape(l, Get(s, l))
    ensures InMemory(s', l, Get(s', l))
  {
    DropsPlaced(s, s', p, l, v);
    hide Shape, Placed;
    var q, q' := Get(s, l), Get(s', l);
    forall i, j | q'.front <= i && j == i + 1 && j < |q'.log| ensures Link(s', q'.log[i].lo) == q'.log[j] {
      assert Link(s, q.log[i].lo) == q.log[j];
    }
  }

  lemma DropsList(s: State, s': State, p: nat, l: ListId, v: int)
    requires Drops(s, s', p, l, v) && ListOk(s, l)
    ensures ListOk(s', l) && Advances(Get(s, l), Get(s', l))
  {
    hide InMemory, Advances;
    DropsShape(s, s', p, l, v);
    DropsMemory(s, s', p, l, v);
  }

  lemma DropsPlaces(s: State, s': State, p: nat, l: ListId, v: int)
    requires Drops(s, s', p, l, v) && PlacesOk(s) && Get(s, l).head.lo in s.place
    requires s.place[Get(s, l).head.lo] == OnList(l, Get(s, l).front)
    ensures PlacesOk(s')
  {
    forall n | n in s'.place ensures PlaceOk(s', n, s'.place[n]) {
      assert PlaceOk(s, n, s.place[n]);
    }
  }

  lemma DropsOthers(s: State, s': State, p: nat, l: ListId, v: int)
    requires Drops(s, s', p, l, v) && Advances(Get(s, l), Get(s', l)) && Get(s, l).head.lo in s.place
    requires s.place[Get(s, l).head.lo] == OnList(l, Get(s, l).front)
    ensures Others(s, s', p)
  {
    forall k ensures Advances(Get(s, k), Get(s', k)) {
    }
    assert Advances(Get(s, Items), Get(s', Items)) && Advances(Get(s, Events), Get(s', Events)) &&
        Advances(Get(s, Free), Get(s', Free));
  }

  lemma DropsUntouched(s: State, s': State, p: nat, l: ListId, v: int, k: ListId)
    requires Drops(s, s', p, l, v) && k != l && Get(s, l).head.lo in s.place
    requires s.place[Get(s, l).head.lo] == OnList(l, Get(s, l).front)
    ensures Untouched(s, s', k)
  {
  }

  lemma HeadNode(s: State, l: ListId)
    requires ListOk(s, l) && Get(s, l).front < TailIdx(Get(s, l))
    ensures var q := Get(s, l);
            q.head.lo in s.place && s.place[q.head.lo] == OnList(l, q.front) && Link(s, q.head.lo).lo != q.head.lo
  {
    var q := Get(s, l);
    assert s.place[q.log[q.front].lo] == OnList(l, q.front) && s.place[q.log[q.front + 1].lo] == OnList(l, q.front + 1);
    assert Link(s, q.log[q.front].lo) == q.log[q.front + 1];
  }

  lemma DropsLists(s: State, s': State, p: nat, l: ListId, v: int)
    requires ListsOk(s) && ListOk(s, l) && Drops(s, s', p, l, v)
    ensures ListsOk(s') && Advances(Get(s, l), Get(s', l))
  {
    HeadNode(s, l);
    DropsList(s, s', p, l, v);
    forall k | k != l ensures Untouched(s, s', k) {
      DropsUntouched(s, s', p, l, v, k);
    }
    KeepOthers(s, s', l);
  }

  lemma DropsProc(s: State, s': State, p: nat, l: ListId, v: int)
    requires ListOk(s, l) && Drops(s, s', p, l, v)
    ensures ProcOk(s', p, s'.procs[p])
  {
    HeadNode(s, l);
  }

  lemma DropsInv(s: State, s': State, p: nat, l: ListId, v: int)
    requires Inv(s) && ListOk(s, l) && Drops(s, s', p, l, v)
    ensures Inv(s')
  {
    hide ListsOk, ListOk, PlacesOk, ProcsOk, ProcOk;
    DropsLists(s, s', p, l, v);
    HeadNode(s, l);
    DropsPlaces(s, s', p, l, v);
    DropsOthers(s, s', p, l, v);
    DropsProc(s, s', p, l, v);
    ProcsKept(s, s', p);
  }

  /** A head DWCAS that would succeed puts the true successor at the head and hands out the successor's value. */
  lemma HeadTarget(s: State, p: nat, l: ListId, cnt: int, ref: int, v: int, after: int)
    requires p in s.procs && s.procs[p] == Removing(l, cnt, SwingHead(ref, v, after))
    requires ListOk(s, l) && RemSnap(l, Get(s, l), cnt, SwingHead(ref, v, after)) && Get(s, l).head == Pair(ref, cnt)
    ensures Drops(s, Step(s, Exec(p)), p, l, v)
  {
  }

  lemma HeadMisses(s: State, p: nat, l: ListId, cnt: int, ref: int, v: int, after: int)
    requires p in s.procs && s.procs[p] == Removing(l, cnt, SwingHead(ref, v, after))
    requires Get(s, l).head != Pair(ref, cnt)
    ensures Step(s, Exec(p)) == At(s, p, Idle) && ProcOk(s, p, Idle)
  {
  }

  lemma SwingHeadStep(s: State, p: nat, l: ListId, cnt: int, ref: int, v: int, after: int)
    requires Inv(s) && p in s.procs && s.procs[p] == Removing(l, cnt, SwingHead(ref, v, after))
    requires ListOk(s, l) && RemSnap(l, Get(s, l), cnt, SwingHead(ref, v, after))
    ensures Inv(Step(s, Exec(p)))
  {
    hide ListsOk, ListOk, PlacesOk, ProcsOk, ProcOk;
    if Get(s, l).head == Pair(ref, cnt) {
      HeadTarget(s, p, l, cnt, ref, v, after);
      DropsInv(s, Step(s, Exec(p)), p, l, v);
    } else {
      HeadMisses(s, p, l, cnt, ref, v, after);
      LocalStep(s, p, Idle);
    }
  }

  lemma LinkMisses(s: State, p: nat, c: Proc)
    requires p in s.procs && s.procs[p] == c && c.Adding? && c.add.LinkLast? && Own(s, p, c)
    requires Link(s, c.add.tb.lo) != c.add.tb
    ensures Step(s, Exec(p)) == At(s, p, Adding(c.l, c.node, c.gen, LoadTail))
    ensures ProcOk(s, p, Adding(c.l, c.node, c.gen, LoadTail))
  {
  }

  lemma LinkHits(s: State, p: nat, c: Proc)
    requires p in s.procs && s.procs[p] == c && c.Adding? && c.add.LinkLast? && Own(s, p, c)
    requires ListOk(s, c.l) && Link(s, c.add.tb.lo) == c.add.tb && PlacesOk(s)
    requires Get(s, c.l).log != [] && c.add.tb == Get(s, c.l).log[|Get(s, c.l).log| - 1] && c.add.tb == Get(s, c.l).tail
    ensures Links(s, Step(s, Exec(p)), p, c.l, c.node, c.gen, c.add.tb)
  {
    SwapLinks(s, p, c.l, c.node, c.gen, c.add.tb);
  }

  lemma LinkStep(s: State, p: nat, c: Proc)
    requires Inv(s) && p in s.procs && s.procs[p] == c && c.Adding? && c.add.LinkLast? && Own(s, p, c)
    requires ListOk(s, c.l) && AddSnap(Get(s, c.l), c.add) && !StaleZero(s, Exec(p))
    ensures Inv(Step(s, Exec(p)))
  {
    hide ListsOk, ListOk, PlacesOk, ProcsOk, ProcOk;
    if Link(s, c.add.tb.lo) == c.add.tb {
      LinkTarget(s, c.l, c.add.tb);
      LinkHits(s, p, c);
      LinksInv(s, Step(s, Exec(p)), p, c.l, c.node, c.gen, c.add.tb);
    } else {
      LinkMisses(s, p, c);
      LocalStep(s, p, Adding(c.l, c.node, c.gen, LoadTail));
    }
  }
}
