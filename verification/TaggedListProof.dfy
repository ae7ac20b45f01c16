/**
 * Every step of the tagged list keeps the invariant.
 */
module TaggedListProof {
  import opened Layout
  import opened TaggedList
  import opened TaggedListInv

  /** How one list may change: its log grows, head and tail only move forward. */
  ghost predicate Advances(q: List, q': List) {
    && q.log <= q'.log
    && q.vals <= q'.vals
    && q.front <= q'.front
    && TailIdx(q) <= TailIdx(q')
    && q.head.hi <= q'.head.hi
    && (q.head.hi == q'.head.hi ==> q.front == q'.front && q.head == q'.head)
  }

  lemma GensDistinct(s: State, l: ListId)
    requires ListOk(s, l)
    ensures DistinctGens(Get(s, l).log)
  {
    var log := Get(s, l).log;
    forall i, j | 0 <= i < j < |log| ensures log[i].hi != log[j].hi {
      assert s.mint[log[i].hi] == Linked(l, i) && s.mint[log[j].hi] == Linked(l, j);
    }
  }

  /** A tail that has moved on from `tb` never comes back to it. */
  lemma TailSeenStable(l: ListId, q: List, q': List, tb: Pair)
    requires Shape(l, q) && Shape(l, q') && DistinctGens(q'.log) && Advances(q, q')
    requires TailSeen(q, tb)
    ensures TailSeen(q', tb)
    ensures q'.tail == tb ==> q.tail == tb && TailIdx(q') == TailIdx(q)
  {
    var j :| 0 <= j <= TailIdx(q) && j < |q.log| && q.log[j].hi == tb.hi;
    assert q'.log[j] == q.log[j];
    if q'.tail == tb {
      assert j == TailIdx(q');
    }
  }

  lemma GenSeenStable(q: List, q': List, gen: int)
    requires Advances(q, q') && GenSeen(q, gen) && TailIdx(q') < |q'.log|
    ensures GenSeen(q', gen)
  {
    var j :| 0 <= j <= TailIdx(q) && j < |q.log| && q.log[j].hi == gen;
    assert q'.log[j] == q.log[j];
  }

  lemma AddSnapStable(l: ListId, q: List, q': List, at: AddAt)
    requires Shape(l, q) && Shape(l, q') && DistinctGens(q'.log) && Advances(q, q')
    requires AddSnap(q, at)
    ensures AddSnap(q', at)
  {
    hide TailSeen, GenSeen, DistinctGens;
    if at.Compare? || at.LinkLast? || at.LoadNext? || at.LoadNextCnt? || at.LoadNextSlot? || at.HelpTail? {
      TailSeenStable(l, q, q', at.tb);
    } else if at.LoadTailSlot? {
      GenSeenStable(q, q', at.thi);
    }
  }

  lemma SwingSnapStable(q: List, q': List, node: int, gen: nat, tb: Pair)
    requires Advances(q, q') && SwingSnap(q, node, gen, tb)
    ensures SwingSnap(q', node, gen, tb)
  {
    var i, j :| 0 <= i && j == i + 1 && j < |q.log| && q.log[i] == tb && q.log[j] == Pair(node, gen);
    assert q'.log[i] == q.log[i] && q'.log[j] == q.log[j];
  }

  lemma RemSnapStable(l: ListId, q: List, q': List, cnt: int, at: RemAt)
    requires Shape(l, q) && Shape(l, q') && Advances(q, q') && RemSnap(l, q, cnt, at)
    ensures RemSnap(l, q', cnt, at)
  {
  }

  /** What a process has loaded stays as useful as it was when other processes move the list. */
  lemma SnapStable(l: ListId, q: List, q': List, c: Proc)
    requires Shape(l, q) && Shape(l, q') && DistinctGens(q'.log) && Advances(q, q')
    requires Snap(l, q, c)
    ensures Snap(l, q', c)
  {
    hide Shape, DistinctGens, Advances, AddSnap, SwingSnap, RemSnap;
    if c.Adding? && c.l == l {
      AddSnapStable(l, q, q', c.add);
    } else if c.SwingTail? && c.l == l {
      SwingSnapStable(q, q', c.node, c.gen, c.tb);
    } else if c.Removing? && c.l == l {
      RemSnapStable(l, q, q', c.cnt, c.rem);
    }
  }

  /** What a step of process p leaves alone for the other processes. */
  ghost predicate Others(s: State, s': State, p: nat) {
    && s'.procs.Keys == s.procs.Keys
    && (forall o :: o in s.procs && o != p ==> s'.procs[o] == s.procs[o])
    && (forall n :: n in s.place && s.place[n].Held? && s.place[n].p != p ==>
          n in s'.place && s'.place[n] == s.place[n] && Link(s', n) == Link(s, n))
    && (forall g :: g in s.mint && s.mint[g].Pending? && s.mint[g].p != p ==>
          g in s'.mint && s'.mint[g] == s.mint[g])
    && Advances(s.items, s'.items) && Advances(s.events, s'.events) && Advances(s.free, s'.free)
  }

  lemma OwnStable(s: State, s': State, p: nat, o: nat, c: Proc)
    requires Others(s, s', p) && o != p && s.place.Keys == s.link.Keys
    requires Own(s, o, c)
    ensures Own(s', o, c)
  {
  }

  lemma SnapsStable(s: State, s': State, p: nat, c: Proc)
    requires Others(s, s', p) && SnapOk(s, c)
    requires ListsOk(s) && ListsOk(s')
    ensures SnapOk(s', c)
  {
    hide InMemory;
    GensDistinct(s', Items);
    GensDistinct(s', Events);
    GensDistinct(s', Free);
    SnapStable(Items, s.items, s'.items, c);
    SnapStable(Events, s.events, s'.events, c);
    SnapStable(Free, s.free, s'.free, c);
  }

  lemma ProcsKept(s: State, s': State, p: nat)
    requires Others(s, s', p) && p in s.procs
    requires Inv(s) && ListsOk(s') && ProcOk(s', p, s'.procs[p])
    ensures ProcsOk(s')
  {
    hide ListsOk;
    forall o | o in s'.procs ensures ProcOk(s', o, s'.procs[o]) {
      if o != p {
        assert ProcOk(s, o, s.procs[o]);
        OwnStable(s, s', p, o, s.procs[o]);
        SnapsStable(s, s', p, s.procs[o]);
      }
    }
  }

  /** A list that a step does not touch. */
  ghost predicate Untouched(s: State, s': State, l: ListId) {
    && Get(s', l) == Get(s, l)
    && s.link.Keys <= s'.link.Keys
    && (forall n :: n in s.place && s.place[n].OnList? && s.place[n].l == l ==>
          n in s'.place && s'.place[n] == s.place[n] && Link(s', n) == Link(s, n) && Value(s', n) == Value(s, n))
    && (forall g :: g in s.mint && s.mint[g].Linked? && s.mint[g].l == l ==> g in s'.mint && s'.mint[g] == s.mint[g])
  }

  lemma ListKept(s: State, s': State, l: ListId)
    requires ListOk(s, l) && Untouched(s, s', l)
    ensures ListOk(s', l)
  {
    var q := Get(s, l);
    forall i | q.front <= i < |q.log|
      ensures q.log[i].lo in s'.link && q.log[i].lo in s'.place && s'.place[q.log[i].lo] == OnList(l, i)
      ensures Value(s', q.log[i].lo) == q.vals[i] && Link(s', q.log[i].lo) == Link(s, q.log[i].lo)
    {
      assert s.place[q.log[i].lo] == OnList(l, i);
    }
  }

  /**
   * A step of p that leaves the lists alone: it touches only nodes that p holds
   * before or after the step, or fresh or stacked nodes.
   */
  ghost predicate NodeStep(s: State, s': State, p: nat) {
    && p in s.procs && s'.procs.Keys == s.procs.Keys
    && s'.items == s.items && s'.events == s.events && s'.free == s.free
    && s.link.Keys <= s'.link.Keys && s'.place.Keys == s'.link.Keys == s'.val.Keys
    && (forall o :: o in s.procs && o != p ==> s'.procs[o] == s.procs[o])
    && (forall n :: n in s.place && (s.place[n].OnList? || (s.place[n].Held? && s.place[n].p != p)) ==>
          n in s'.place && s'.place[n] == s.place[n] && Link(s', n) == Link(s, n) && Value(s', n) == Value(s, n))
    && (forall n :: n in s'.place && (n !in s.place || s.place[n].Stacked? || s.place[n] == Held(p)) ==>
          HDR_END <= n && !s'.place[n].OnList? && PlaceOk(s', n, s'.place[n]))
    && s.mint.Keys <= s'.mint.Keys
    && (forall g :: g in s.mint ==> s'.mint[g] == s.mint[g])
    && (forall g :: g in s'.mint && g !in s.mint ==> g < s'.idCntr && s'.mint[g].Pending? && g > 0)
    && s.idCntr <= s'.idCntr
  }

  lemma NodeStepLists(s: State, s': State, p: nat)
    requires NodeStep(s, s', p) && ListsOk(s) && s.place.Keys == s.link.Keys
    ensures ListsOk(s')
  {
    ListKept(s, s', Items);
    ListKept(s, s', Events);
    ListKept(s, s', Free);
  }

  lemma NodeStepPlaces(s: State, s': State, p: nat)
    requires NodeStep(s, s', p) && PlacesOk(s)
    ensures PlacesOk(s')
  {
    forall n | n in s'.place ensures PlaceOk(s', n, s'.place[n]) && HDR_END <= n {
      if n in s.place {
        assert PlaceOk(s, n, s.place[n]);
      }
    }
  }

  lemma NodeStepInv(s: State, s': State, p: nat)
    requires Inv(s) && NodeStep(s, s', p) && ProcOk(s', p, s'.procs[p])
    ensures Inv(s')
  {
    hide ListsOk, ProcsOk;
    NodeStepLists(s, s', p);
    NodeStepPlaces(s, s', p);
    assert Others(s, s', p);
    ProcsKept(s, s', p);
  }
}
