/**
 * A remove finishes alone: wherever the other processes have stopped, and
 * wherever it stands itself, it ends within a bounded number of instructions,
 * and takes the front of the list exactly if nobody has moved the head since it
 * loaded the counter, and there is something to take.
 */
module TaggedListProgress {
  import opened Layout
  import opened TaggedList
  import opened TaggedListInv
  import opened TaggedListSteps
  import opened TaggedListSwaps
  import opened TaggedListTheorems

  /** How many loads are still ahead of the DWCAS of the head, and the DWCAS. */
  ghost function Ahead(at: RemAt): nat {
    match at
    case LoadHead => 7
    case CheckEmpty(_) => 6
    case LoadFirst(_) => 5
    case LoadValue(_, _) => 4
    case Recheck(_, _) => 3
    case LoadAfter(_, _) => 2
    case SwingHead(_, _, _) => 1
  }

  /** The value of the front item has not been looked at yet. */
  ghost predicate Unread(at: RemAt) {
    at.LoadHead? || at.CheckEmpty? || at.LoadFirst? || at.LoadValue?
  }

  /** The remover will take the front: the head has not moved, and behind it is a node, of an item one with a value. */
  ghost predicate Gets(l: ListId, q: List, cnt: int, at: RemAt) {
    && q.head.hi == cnt && q.front < TailIdx(q)
    && (l == Items && Unread(at) ==> q.front + 1 < |q.vals| && q.vals[q.front + 1] != 0)
  }

  /** A load leads on with the same prospect, or ends the remove if there is none. */
  ghost predicate LoadsOn(l: ListId, q: List, cnt: int, at: RemAt, c': Proc) {
    if c' == Idle then !Gets(l, q, cnt, at)
    else
      && c'.Removing? && c'.l == l && c'.cnt == cnt && Ahead(c'.rem) < Ahead(at)
      && (Gets(l, q, cnt, c'.rem) <==> Gets(l, q, cnt, at))
  }

  /** Head and tail name the same slot exactly if the list is empty, as far as the tail has been moved. */
  lemma SameSlot(s: State, l: ListId)
    requires ListOk(s, l)
    ensures var q := Get(s, l); q.head.lo == q.tail.lo <==> q.front == TailIdx(q)
  {
    var q := Get(s, l);
    assert s.place[q.log[q.front].lo] == OnList(l, q.front) && s.place[q.log[TailIdx(q)].lo] == OnList(l, TailIdx(q));
  }

  lemma HeadLoadsOn(s: State, l: ListId, cnt: int, at: RemAt, p: nat)
    requires ListOk(s, l) && RemSnap(l, Get(s, l), cnt, at) && (at.LoadHead? || at.CheckEmpty? || at.Recheck?)
    ensures LoadsOn(l, Get(s, l), cnt, at, ExecRemove(s, p, l, cnt, at).procs[p])
  {
    hide InMemory, ValueSeen;
    SameSlot(s, l);
  }

  lemma NodeLoadsOn(s: State, l: ListId, cnt: int, at: RemAt, p: nat)
    requires ListOk(s, l) && PlacesOk(s) && RemSnap(l, Get(s, l), cnt, at)
    requires (at.LoadFirst? || at.LoadValue? || at.LoadAfter?)
    ensures LoadsOn(l, Get(s, l), cnt, at, ExecRemove(s, p, l, cnt, at).procs[p])
  {
    hide PlacesOk;
    var q := Get(s, l);
    if q.head.hi == cnt {
      FirstNode(s, l, cnt, at.ref);
      FrontNode(s, l);
    }
    hide ListOk;
  }

  lemma FrontNode(s: State, l: ListId)
    requires ListOk(s, l) && PlacesOk(s) && Get(s, l).front < TailIdx(Get(s, l))
    ensures Get(s, l).log[Get(s, l).front + 1].lo >= HDR_END
  {
    var q := Get(s, l);
    assert q.log[q.front + 1].lo in s.link;
  }

  /** The remove is through: the front is taken and its old dummy in hand, zeroed; or nothing has changed. */
  ghost predicate Ended(s: State, s': State, p: nat, l: ListId, gets: bool) {
    var q := Get(s, l);
    && p in s'.procs
    && if gets then
         && q.front + 1 < |q.log| && |q.vals| == |q.log|
         && s'.procs[p] == Holding(q.head.lo) && Link(s', q.head.lo) == Pair(0, 0)
         && Get(s', l).front == q.front + 1 && Get(s', l).log == q.log && Get(s', l).head.lo == q.log[q.front + 1].lo
         && (l != Free ==> Get(s', l).out == q.out + [q.vals[q.front + 1]])
       else s'.procs[p] == Idle && Get(s', l) == q
  }

  ghost predicate EndsWithin(s: State, p: nat, l: ListId, gets: bool, n: nat) {
    exists k :: 1 <= k <= n && Ended(s, Solo(s, p, k), p, l, gets)
  }

  /** The DWCAS that matches, and the two stores that zero the node. */
  lemma SwingEnds(s: State, p: nat, l: ListId, cnt: int, ref: int, v: int, after: int)
    requires p in s.procs && s.procs[p] == Removing(l, cnt, SwingHead(ref, v, after))
    requires ListOk(s, l) && RemSnap(l, Get(s, l), cnt, SwingHead(ref, v, after)) && Get(s, l).head == Pair(ref, cnt)
    ensures Ended(s, Solo(s, p, 3), p, l, true)
  {
    var s1 := Step(s, Exec(p));
    assert Solo(s, p, 0) == s && Solo(s, p, 1) == s1;
    HeadTarget(s, p, l, cnt, ref, v, after);
    InvShape(s, l);
    hide ListOk, RemSnap;
    assert Solo(s, p, 2) == Step(s1, Exec(p)) && Solo(s, p, 3) == Step(Solo(s, p, 2), Exec(p));
    hide Solo;
    ZeroEnds(s1, p, ref);
    assert Get(s1, l) == Dropped(Get(s, l), v);
  }

  lemma ZeroEnds(s: State, p: nat, n: int)
    requires p in s.procs && s.procs[p] == ZeroSlot(n)
    ensures var s' := Step(Step(s, Exec(p)), Exec(p));
            && p in s'.procs && s'.procs[p] == Holding(n) && Link(s', n) == Pair(0, 0)
            && forall l :: Get(s', l) == Get(s, l)
  {
  }

  lemma SwingMissEnds(s: State, p: nat, l: ListId, cnt: int, ref: int, v: int, after: int)
    requires p in s.procs && s.procs[p] == Removing(l, cnt, SwingHead(ref, v, after))
    requires Get(s, l).head != Pair(ref, cnt)
    ensures Ended(s, Step(s, Exec(p)), p, l, false)
  {
  }

  lemma EndsLater(s: State, p: nat, l: ListId, gets: bool, n: nat, m: nat)
    requires p in s.procs && Get(Step(s, Exec(p)), l) == Get(s, l) && EndsWithin(Step(s, Exec(p)), p, l, gets, n)
    requires n < m
    ensures EndsWithin(s, p, l, gets, m)
  {
    assert Solo(s, p, 1) == Step(s, Exec(p)) by {
      assert Solo(s, p, 0) == s;
    }
    var s1 := Step(s, Exec(p));
    hide Solo, Step;
    var k :| 1 <= k <= n && Ended(s1, Solo(s1, p, k), p, l, gets);
    SoloAdd(s, p, 1, k);
    assert Ended(s, Solo(s, p, 1 + k), p, l, gets);
  }

  lemma EndsNow(s: State, p: nat, l: ListId, gets: bool, m: nat)
    requires p in s.procs && Ended(s, Step(s, Exec(p)), p, l, gets) && m >= 1
    ensures EndsWithin(s, p, l, gets, m)
  {
    assert Solo(s, p, 0) == s && Solo(s, p, 1) == Step(s, Exec(p));
    hide Step, Ended;
  }

  lemma {:induction false} EndsFrom(s: State, p: nat)
    requires Inv(s) && p in s.procs && s.procs[p].Removing?
    ensures var c := s.procs[p];
            EndsWithin(s, p, c.l, Gets(c.l, Get(s, c.l), c.cnt, c.rem), Ahead(c.rem) + 2)
    decreases Ahead(s.procs[p].rem)
  {
    hide Inv, Solo, Gets, Ended, EndsWithin, RemSnap, ListOk, ExecRemove, Own;
    var c := s.procs[p];
    var q := Get(s, c.l);
    ProcFacts(s, p);
    if c.rem.SwingHead? {
      SwingGets(s, c.l, c.cnt, c.rem);
      if q.head == Pair(c.rem.ref, c.cnt) {
        SwingEnds(s, p, c.l, c.cnt, c.rem.ref, c.rem.v, c.rem.after);
        assert EndsWithin(s, p, c.l, true, 3) by {
          WithinThree(s, p, c.l);
        }
      } else {
        SwingMissEnds(s, p, c.l, c.cnt, c.rem.ref, c.rem.v, c.rem.after);
        EndsNow(s, p, c.l, false, 3);
      }
    } else {
      LoadEnds(s, p, c);
    }
  }

  lemma WithinThree(s: State, p: nat, l: ListId)
    requires Ended(s, Solo(s, p, 3), p, l, true)
    ensures EndsWithin(s, p, l, true, 3)
  {
    hide Ended, Solo;
  }

  lemma SwingGets(s: State, l: ListId, cnt: int, at: RemAt)
    requires ListOk(s, l) && at.SwingHead? && RemSnap(l, Get(s, l), cnt, at)
    ensures Gets(l, Get(s, l), cnt, at) <==> Get(s, l).head == Pair(at.ref, cnt)
  {
    hide InMemory, ValueSeen, AfterSeen;
  }

  lemma InvPlaces(s: State)
    requires Inv(s)
    ensures PlacesOk(s)
  {
  }

  lemma {:induction false} LoadEnds(s: State, p: nat, c: Proc)
    requires Inv(s) && p in s.procs && s.procs[p] == c && c.Removing? && !c.rem.SwingHead?
    requires ListOk(s, c.l) && RemSnap(c.l, Get(s, c.l), c.cnt, c.rem)
    ensures EndsWithin(s, p, c.l, Gets(c.l, Get(s, c.l), c.cnt, c.rem), Ahead(c.rem) + 2)
    decreases Ahead(c.rem), 0
  {
    hide Inv, Solo, Gets, EndsWithin, RemSnap, ListOk, PlacesOk, ExecRemove, StaleZero;
    InvPlaces(s);
    if c.rem.LoadHead? || c.rem.CheckEmpty? || c.rem.Recheck? {
      HeadLoadsOn(s, c.l, c.cnt, c.rem, p);
    } else {
      NodeLoadsOn(s, c.l, c.cnt, c.rem, p);
    }
    RemLoads(s, p, c);
    var s1 := Step(s, Exec(p));
    var c1 := s1.procs[p];
    assert !StaleZero(s, Exec(p)) by {
      NotAdding(s, p);
    }
    StepInv(s, Exec(p));
    assert Get(s1, c.l) == Get(s, c.l);
    var gets := Gets(c.l, Get(s, c.l), c.cnt, c.rem);
    hide Step, ProcOk;
    if c1 == Idle {
      EndsNow(s, p, c.l, false, Ahead(c.rem) + 2);
    } else {
      EndsFrom(s1, p);
      EndsLater(s, p, c.l, gets, Ahead(c1.rem) + 2, Ahead(c.rem) + 2);
    }
  }

  lemma NotAdding(s: State, p: nat)
    requires p in s.procs && s.procs[p].Removing?
    ensures !StaleZero(s, Exec(p))
  {
  }

  /**
   * Wherever the other processes have stopped, and wherever it stands itself, a
   * remove finishes alone, with at most 9 instructions.  It takes the front of
   * the list, once, with the node behind the old dummy as the new one, exactly
   * if the head has not moved since its counter was loaded and there is an item;
   * else it leaves the list as it is.
   */
  lemma RemoveFinishesAlone(s: State, p: nat)
    requires Inv(s) && p in s.procs && s.procs[p].Removing?
    ensures var c := s.procs[p];
            EndsWithin(s, p, c.l, Gets(c.l, Get(s, c.l), c.cnt, c.rem), 9)
  {
    hide Inv, Gets, EndsWithin;
    var c := s.procs[p];
    EndsFrom(s, p);
    Wider(s, p, c.l, Gets(c.l, Get(s, c.l), c.cnt, c.rem), Ahead(c.rem) + 2, 9);
  }

  lemma Wider(s: State, p: nat, l: ListId, gets: bool, n: nat, m: nat)
    requires EndsWithin(s, p, l, gets, n) && n <= m
    ensures EndsWithin(s, p, l, gets, m)
  {
    hide Ended, Solo;
  }

  // ------------------------------------------------------------ from the call on

  lemma NotStale(s: State, a: Action)
    requires a.BeginAdd? || a.BeginRemove?
    ensures !StaleZero(s, a)
  {
  }

  lemma RemoveBegins(s: State, p: nat, l: ListId)
    requires p in s.procs && s.procs[p] == Idle
    ensures var s1 := Step(s, BeginRemove(p, l));
            && p in s1.procs && s1.procs[p] == Removing(l, Get(s, l).head.hi, LoadHead) && Get(s1, l) == Get(s, l)
  {
  }

  lemma AppendBegins(s: State, p: nat, l: ListId)
    requires p in s.procs && s.procs[p].Holding?
    ensures var s1 := Step(s, BeginAdd(p, l));
            && p in s1.procs && s1.procs[p] == Adding(l, s.procs[p].node, s.idCntr, StoreSlot)
            && Get(s1, l) == Get(s, l) && s1.idCntr == s.idCntr + 1
  {
  }

  /** Alone from the call on, a remove takes the front exactly if there is one, of the items one with a value. */
  lemma RemoveCalledAlone(s: State, p: nat, l: ListId)
    requires Inv(s) && p in s.procs && s.procs[p] == Idle
    ensures var q := Get(s, l);
            var gets := q.front < TailIdx(q) &&
              (l == Items ==> q.front + 1 < |q.vals| && q.vals[q.front + 1] != 0);
            EndsWithin(Step(s, BeginRemove(p, l)), p, l, gets, 9) && Get(Step(s, BeginRemove(p, l)), l) == q
  {
    hide Inv, EndsWithin, Step, StaleZero, TailIdx;
    RemoveBegins(s, p, l);
    NotStale(s, BeginRemove(p, l));
    StepInv(s, BeginRemove(p, l));
    RemoveFinishesAlone(Step(s, BeginRemove(p, l)), p);
  }

  /** And an append links the node in hand at the end, under a generation not drawn before. */
  lemma AppendCalledAlone(s: State, p: nat, l: ListId)
    requires Inv(s) && p in s.procs && s.procs[p].Holding?
    ensures var link := Pair(s.procs[p].node, s.idCntr);
            && ThroughWithin(Step(s, BeginAdd(p, l)), p, l, Get(s, l).log + [link], 16)
            && Step(s, BeginAdd(p, l)).idCntr == s.idCntr + 1
  {
    hide Inv, ThroughWithin, Step, StaleZero;
    AppendBegins(s, p, l);
    NotStale(s, BeginAdd(p, l));
    StepInv(s, BeginAdd(p, l));
    AppendFinishesAlone(Step(s, BeginAdd(p, l)), p);
  }
}
