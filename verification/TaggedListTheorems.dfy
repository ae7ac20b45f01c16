/**
 * What the tagged list guarantees over every run: any number of processes, any
 * interleaving, nodes moving between the lists, the stack and their owners.
 */
module TaggedListTheorems {
  import opened Layout
  import opened TaggedList
  import opened TaggedListInv
  import opened TaggedListProof
  import opened TaggedListSteps
  import opened TaggedListSwaps

  lemma InitInv(start: nat, pids: set<nat>)
    ensures Inv(Init(start, pids))
  {
    hide ListOk, PlacesOk;
    InitList(start, pids, Items);
    InitList(start, pids, Events);
    InitList(start, pids, Free);
    InitPlaces(start, pids);
  }

  lemma InitPlaces(start: nat, pids: set<nat>)
    ensures PlacesOk(Init(start, pids))
  {
  }

  lemma InitList(start: nat, pids: set<nat>, l: ListId)
    ensures ListOk(Init(start, pids), l)
  {
    assert TailIdx(Get(Init(start, pids), l)) == 0;
  }

  lemma ExecInv(s: State, p: nat)
    requires Inv(s) && p in s.procs && !StaleZero(s, Exec(p))
    ensures Inv(Step(s, Exec(p)))
  {
    ProcFacts(s, p);
    var c := s.procs[p];
    match c
    case Adding(l, node, gen, at) =>
      if at.StoreSlot? || at.StoreGen? {
        StoreStep(s, p);
      } else if at.LinkLast? {
        LinkStep(s, p, c);
      } else if at.HelpTail? {
        HelpStep(s, p, c);
      } else {
        AddLoadStep(s, p, c);
      }
    case SwingTail(l, node, gen, tb) => SwingTailStep(s, p, l, node, gen, tb);
    case Removing(l, cnt, at) =>
      if at.SwingHead? {
        SwingHeadStep(s, p, l, cnt, at.ref, at.v, at.after);
      } else {
        RemLoadStep(s, p, c);
      }
    case ZeroSlot(_) => StoreStep(s, p);
    case ZeroGen(_) => StoreStep(s, p);
    case _ =>
  }

  /** Every step keeps the invariant, except possibly one behind a stale node of generation 0. */
  lemma StepInv(s: State, a: Action)
    requires Inv(s) && !StaleZero(s, a)
    ensures Inv(Step(s, a))
  {
    if Step(s, a) != s {
      var c := s.procs[a.p];
      match a
      case Alloc(p, n) => AllocStep(s, p, n);
      case SetValue(p, v) => SetValueStep(s, p, v);
      case PushSlot(_, _) => PushStoreStep(s, a);
      case PushCnt(_, _) => PushStoreStep(s, a);
      case Push(p) => PushStep(s, p);
      case Pop(p, n) => PopStep(s, p, n);
      case BeginAdd(p, l) => BeginAddStep(s, p, l);
      case BeginRemove(p, l) => BeginRemoveStep(s, p, l);
      case GiveUp(p) => GiveUpStep(s, p);
      case Draw(p) => DrawStep(s, p);
      case ExecHigh(p) => ReadHighStep(s, p);
      case Exec(p) => ExecInv(s, p);
    }
  }

  // ------------------------------------------------------------ runs

  /** No step of the run links behind a stale node of generation 0. */
  ghost predicate Clean(s: State, acts: seq<Action>) {
    forall k :: 0 <= k < |acts| ==> !StaleZero(Run(s, acts[..k]), acts[k])
  }

  lemma {:induction false} RunInv(s: State, acts: seq<Action>)
    requires Inv(s) && Clean(s, acts)
    ensures Inv(Run(s, acts))
  {
    hide Inv, StaleZero;
    if acts != [] {
      var k := |acts| - 1;
      forall i | 0 <= i < k ensures !StaleZero(Run(s, acts[..k][..i]), acts[..k][i]) {
        assert acts[..k][..i] == acts[..i];
      }
      RunInv(s, acts[..k]);
      StepInv(Run(s, acts[..k]), acts[k]);
    }
  }

  /** Without generation 0, no loaded tail is stale in that way. */
  lemma NoStaleZero(s: State, a: Action)
    requires Inv(s) && 0 !in s.mint
    ensures !StaleZero(s, a)
  {
    hide ListOk, ProcsOk, PlacesOk, AddSnap;
    if StaleZero(s, a) {
      var c := s.procs[a.p];
      ProcFacts(s, a.p);
      assert TailSeen(Get(s, c.l), c.add.tb) by {
        LinkSnap(Get(s, c.l), c.add);
      }
      var j := SeenEntry(s, c.l, c.add.tb);
    }
  }

  lemma LinkSnap(q: List, at: AddAt)
    requires AddSnap(q, at) && at.LinkLast?
    ensures TailSeen(q, at.tb)
  {
  }

  /** Only a drawn generation and one that gets linked change the record of generations. */
  lemma MintKept(s: State, a: Action)
    requires a.p in s.procs && !(a.Exec? && s.procs[a.p].Adding?)
    ensures Step(s, a).mint == s.mint || (a.BeginAdd? && Step(s, a).mint == s.mint[s.idCntr := Pending(a.p)])
  {
    hide Link, Value, ExecAdd, ExecRemove;
    if a.Exec? && s.procs[a.p].Removing? {
      RemoveMint(s, a.p, s.procs[a.p].l, s.procs[a.p].cnt, s.procs[a.p].rem);
    }
  }

  lemma RemoveMint(s: State, p: nat, l: ListId, cnt: int, at: RemAt)
    ensures ExecRemove(s, p, l, cnt, at).mint == s.mint
  {
    hide Link, Value;
  }

  lemma AddMint(s: State, p: nat, l: ListId, node: int, gen: nat, at: AddAt)
    ensures ExecAdd(s, p, l, node, gen, at).mint.Keys <= s.mint.Keys + {gen}
  {
    hide Link, Value;
  }

  /** If ID_CNTR does not start at 0, no node ever carries generation 0. */
  lemma NoZeroMint(s: State, a: Action)
    requires Inv(s) && 0 !in s.mint
    ensures 0 !in Step(s, a).mint && !StaleZero(s, a)
  {
    NoStaleZero(s, a);
    hide ListsOk, ProcsOk, ExecAdd, StaleZero;
    if a.p in s.procs {
      if a.Exec? && s.procs[a.p].Adding? {
        var c := s.procs[a.p];
        ProcFacts(s, a.p);
        AddMint(s, a.p, c.l, c.node, c.gen, c.add);
      } else {
        MintKept(s, a);
        hide Step;
      }
    }
  }

  lemma {:induction false} PositiveStartClean(start: nat, pids: set<nat>, acts: seq<Action>)
    requires start > 0
    ensures Inv(Run(Init(start, pids), acts)) && 0 !in Run(Init(start, pids), acts).mint
    ensures Clean(Init(start, pids), acts)
  {
    if acts == [] {
      InitInv(start, pids);
    } else {
      hide Inv, StaleZero, Clean, Step, Init;
      var k := |acts| - 1;
      PositiveStartClean(start, pids, acts[..k]);
      var s := Run(Init(start, pids), acts[..k]);
      NoZeroMint(s, acts[k]);
      StepInv(s, acts[k]);
      CleanSoFar(Init(start, pids), acts);
    }
  }

  lemma CleanSoFar(s: State, acts: seq<Action>)
    requires acts != [] && Clean(s, acts[..|acts| - 1]) && !StaleZero(Run(s, acts[..|acts| - 1]), acts[|acts| - 1])
    ensures Clean(s, acts)
  {
    hide StaleZero, Run;
    var k := |acts| - 1;
    forall i | 0 <= i < |acts| ensures !StaleZero(Run(s, acts[..i]), acts[i]) {
      if i < k {
        assert acts[..k][..i] == acts[..i] && acts[..k][i] == acts[i];
      }
    }
  }

  // ------------------------------------------------------------ what the memory holds

  /** The nodes of a list, from the head on: appended and not yet removed. */
  ghost function Nodes(q: List): seq<Pair>
    requires q.front <= |q.log|
  {
    q.log[q.front..]
  }

  /**
   * Read from memory alone, the list is exactly `chain`: it starts at the head,
   * each link holds the slot and generation of the next node, the last node
   * holds its own, no node occurs twice, and the tail is the last node or the
   * one before it.
   */
  ghost predicate Spells(s: State, l: ListId, chain: seq<Pair>) {
    var q := Get(s, l);
    && chain != []
    && q.head.lo == chain[0].lo
    && (forall i, j :: 0 <= i && j == i + 1 && j < |chain| ==> Link(s, chain[i].lo) == chain[j])
    && Link(s, chain[|chain| - 1].lo) == chain[|chain| - 1]
    && (forall i, j :: 0 <= i < j < |chain| ==> chain[i].lo != chain[j].lo && chain[i].hi != chain[j].hi)
    && (q.tail == chain[|chain| - 1] || (|chain| > 1 && q.tail == chain[|chain| - 2]))
  }

  /** Every list holds, in order, exactly the nodes that were appended to it and not removed. */
  ghost predicate Intact(s: State) {
    forall l :: Get(s, l).front < |Get(s, l).log| && Spells(s, l, Nodes(Get(s, l)))
  }

  lemma NodesDistinct(s: State, l: ListId)
    requires ListOk(s, l)
    ensures var chain := Nodes(Get(s, l));
            forall i, j :: 0 <= i < j < |chain| ==> chain[i].lo != chain[j].lo && chain[i].hi != chain[j].hi
  {
    hide Chained;
    var q := Get(s, l);
    GensDistinct(s, l);
    forall i, j | 0 <= i < j < |Nodes(q)| ensures Nodes(q)[i].lo != Nodes(q)[j].lo && Nodes(q)[i].hi != Nodes(q)[j].hi {
      assert s.place[q.log[q.front + i].lo] == OnList(l, q.front + i) &&
        s.place[q.log[q.front + j].lo] == OnList(l, q.front + j);
    }
  }

  lemma NodesLinked(s: State, l: ListId)
    requires ListOk(s, l)
    ensures var chain := Nodes(Get(s, l));
            forall i, j :: 0 <= i && j == i + 1 && j < |chain| ==> Link(s, chain[i].lo) == chain[j]
  {
    hide Placed, Minted;
    var q := Get(s, l);
    var chain := Nodes(q);
    forall i, j | 0 <= i && j == i + 1 && j < |chain| ensures Link(s, chain[i].lo) == chain[j] {
      assert Link(s, q.log[q.front + i].lo) == q.log[q.front + j];
    }
  }

  lemma InvSpells(s: State, l: ListId)
    requires ListOk(s, l)
    ensures Get(s, l).front < |Get(s, l).log| && Spells(s, l, Nodes(Get(s, l)))
  {
    InvShape(s, l);
    LastLinked(s, l);
    NodesDistinct(s, l);
    NodesLinked(s, l);
    hide ListOk;
  }

  lemma InvIntact(s: State)
    requires Inv(s)
    ensures Intact(s)
  {
    forall l ensures Get(s, l).front < |Get(s, l).log| && Spells(s, l, Nodes(Get(s, l))) {
      assert ListOk(s, l);
      InvSpells(s, l);
    }
  }

  /** The list protocol: over every run without a stale generation 0, every list stays intact. */
  lemma ListsStayIntact(start: nat, pids: set<nat>, acts: seq<Action>)
    requires Clean(Init(start, pids), acts)
    ensures Intact(Run(Init(start, pids), acts))
  {
    InitInv(start, pids);
    RunInv(Init(start, pids), acts);
    InvIntact(Run(Init(start, pids), acts));
  }

  /** The values that the nodes behind the dummy carry, read from memory. */
  ghost function Carried(s: State, chain: seq<Pair>): seq<int> {
    seq(|chain|, i requires 0 <= i < |chain| => Value(s, chain[i].lo))
  }

  lemma CarriedValues(s: State, l: ListId, q: List)
    requires Placed(s, l, q) && q.front < |q.log| == |q.vals|
    ensures Carried(s, Nodes(q)[1..]) == q.vals[q.front + 1..]
  {
    forall i | 0 <= i < |q.log| - q.front - 1 ensures Carried(s, Nodes(q)[1..])[i] == q.vals[q.front + 1 + i] {
      assert Value(s, q.log[q.front + 1 + i].lo) == q.vals[q.front + 1 + i];
    }
  }

  lemma InvFifo(s: State, l: ListId)
    requires ListOk(s, l) && l != Free
    ensures var q := Get(s, l); q.front < |q.log| && q.vals != [] && q.out + Carried(s, Nodes(q)[1..]) == q.vals[1..]
  {
    hide Placed, Chained, Minted, Carried;
    var q := Get(s, l);
    CarriedValues(s, l, q);
    assert q.vals[1..q.front + 1] + q.vals[q.front + 1..] == q.vals[1..];
  }

  /**
   * First in, first out: the values handed to removers, followed by the values
   * the remaining nodes carry in memory, are exactly the values linked, in the
   * order of their link DWCASes.
   */
  lemma FirstInFirstOut(start: nat, pids: set<nat>, acts: seq<Action>, l: ListId)
    requires Clean(Init(start, pids), acts) && l != Free
    ensures var s := Run(Init(start, pids), acts);
            var q := Get(s, l);
            q.front < |q.log| && q.vals != [] && q.out + Carried(s, Nodes(q)[1..]) == q.vals[1..]
  {
    InitInv(start, pids);
    RunInv(Init(start, pids), acts);
    var s := Run(Init(start, pids), acts);
    assert ListOk(s, l);
    hide ListOk, PlacesOk, ProcsOk, Carried;
    InvFifo(s, l);
  }

  lemma OwnedPlace(s: State, p: nat, n: int)
    requires Inv(s) && p in s.procs && n in s.place
    ensures Owns(s.procs[p], n) <==> s.place[n] == Held(p)
  {
    hide ListsOk;
    ProcFacts(s, p);
    assert PlaceOk(s, n, s.place[n]);
  }

  lemma ListedPlace(s: State, l: ListId, i: nat, n: int)
    requires Inv(s) && n in s.place && Get(s, l).front <= i < |Get(s, l).log|
    ensures Get(s, l).log[i].lo == n <==> s.place[n] == OnList(l, i)
  {
    hide ProcsOk;
    assert PlaceOk(s, n, s.place[n]);
    assert ListOk(s, l);
  }

  lemma InvOnePlace(s: State, n: int)
    requires Inv(s) && n in s.link
    ensures n in s.place
    ensures forall p :: p in s.procs ==> (Owns(s.procs[p], n) <==> s.place[n] == Held(p))
    ensures forall l, i :: Get(s, l).front <= i < |Get(s, l).log| ==>
              (Get(s, l).log[i].lo == n <==> s.place[n] == OnList(l, i))
  {
    hide ListsOk, ProcsOk;
    forall p | p in s.procs ensures Owns(s.procs[p], n) <==> s.place[n] == Held(p) {
      OwnedPlace(s, p, n);
    }
    forall l, i | Get(s, l).front <= i < |Get(s, l).log| ensures Get(s, l).log[i].lo == n <==>
        s.place[n] == OnList(l, i) {
      ListedPlace(s, l, i, n);
    }
  }

  /** A node is at one place only: on one list at one position, with one process, or on the stack. */
  lemma OnePlace(start: nat, pids: set<nat>, acts: seq<Action>, n: int)
    requires Clean(Init(start, pids), acts) && n in Run(Init(start, pids), acts).link
    ensures var s := Run(Init(start, pids), acts);
            && n in s.place
            && (forall p :: p in s.procs ==> (Owns(s.procs[p], n) <==> s.place[n] == Held(p)))
            && (forall l, i :: Get(s, l).front <= i < |Get(s, l).log| ==>
                 (Get(s, l).log[i].lo == n <==> s.place[n] == OnList(l, i)))
  {
    InitInv(start, pids);
    RunInv(Init(start, pids), acts);
    hide Inv;
    InvOnePlace(Run(Init(start, pids), acts), n);
  }

  // ------------------------------------------------------------ single instructions

  /**
   * A DWCAS never succeeds on a stale or torn pair: if what it compares with is
   * in memory, then what it writes is right.
   */
  ghost predicate SwapsAreExact(s: State, p: nat) {
    p in s.procs ==>
      var c := s.procs[p];
      && (c.Adding? && c.add.LinkLast? && Link(s, c.add.tb.lo) == c.add.tb ==>
            var q := Get(s, c.l); q.front < |q.log| && c.add.tb == q.log[|q.log| - 1] && c.add.tb == q.tail)
      && (c.Adding? && c.add.HelpTail? && Get(s, c.l).tail == c.add.tb ==>
            var q := Get(s, c.l);
            q.front < |q.log| - 1 && c.add.tb == q.log[|q.log| - 2] && c.add.nxt == q.log[|q.log| - 1])
      && (c.SwingTail? && Get(s, c.l).tail == c.tb ==>
            var q := Get(s, c.l);
            q.front < |q.log| - 1 && c.tb == q.log[|q.log| - 2] && Pair(c.node, c.gen) == q.log[|q.log| - 1])
      && (c.Removing? && c.rem.SwingHead? && Get(s, c.l).head == Pair(c.rem.ref, c.cnt) ==>
            var q := Get(s, c.l); q.front < |q.log| - 1 && |q.vals| == |q.log| && q.tail.lo != c.rem.ref &&
                                  c.rem.ref == q.log[q.front].lo && c.rem.after == q.log[q.front + 1].lo &&
                                  (c.l != Free ==> c.rem.v == q.vals[q.front + 1]))
  }

  lemma HeadSwapExact(s: State, l: ListId, cnt: int, ref: int, v: int, after: int)
    requires ListOk(s, l) && RemSnap(l, Get(s, l), cnt, SwingHead(ref, v, after)) && Get(s, l).head == Pair(ref, cnt)
    ensures var q := Get(s, l); q.front < |q.log| - 1 && |q.vals| == |q.log| && q.tail.lo != ref &&
                                ref == q.log[q.front].lo && after == q.log[q.front + 1].lo &&
                                    (l != Free ==> v == q.vals[q.front + 1])
  {
    var q := Get(s, l);
    assert s.place[q.log[q.front].lo] == OnList(l, q.front) && s.place[q.log[TailIdx(q)].lo] == OnList(l, TailIdx(q));
  }

  lemma HelpSwapExact(l: ListId, q: List, at: AddAt)
    requires Shape(l, q) && at.HelpTail? && AddSnap(q, at) && q.tail == at.tb
    ensures q.front < |q.log| - 1 && at.tb == q.log[|q.log| - 2] && at.nxt == q.log[|q.log| - 1]
  {
  }

  lemma TailSwapExact(s: State, l: ListId, node: int, gen: nat, tb: Pair)
    requires ListOk(s, l) && SwingSnap(Get(s, l), node, gen, tb) && Get(s, l).tail == tb
    ensures var q := Get(s, l);
            q.front < |q.log| - 1 && tb == q.log[|q.log| - 2] && Pair(node, gen) == q.log[|q.log| - 1]
  {
    hide Placed, Chained, Minted;
    SwingTarget(s, l, node, gen, tb);
  }

  lemma LinkSwapExact(s: State, l: ListId, tb: Pair)
    requires Inv(s) && ListOk(s, l) && TailSeen(Get(s, l), tb) && Link(s, tb.lo) == tb
    requires tb.hi == 0 ==> Get(s, l).tail.hi == 0
    ensures var q := Get(s, l); q.front < |q.log| && tb == q.log[|q.log| - 1] && tb == q.tail
  {
    hide ListsOk, PlacesOk, ProcsOk, InMemory;
    LinkTarget(s, l, tb);
  }

  lemma InvExact(s: State, p: nat)
    requires Inv(s) && !StaleZero(s, Exec(p))
    ensures SwapsAreExact(s, p)
  {
    hide ListsOk, ListOk, PlacesOk, ProcsOk, RemSnap, SwingSnap, Own;
    if p in s.procs {
      ProcFacts(s, p);
      match s.procs[p]
      case Adding(l, node, gen, at) =>
        if at.LinkLast? && Link(s, at.tb.lo) == at.tb {
          LinkSwapExact(s, l, at.tb);
        } else if at.HelpTail? && Get(s, l).tail == at.tb {
          InvShape(s, l);
          HelpSwapExact(l, Get(s, l), at);
        }
      case SwingTail(l, node, gen, tb) =>
        if Get(s, l).tail == tb {
          TailSwapExact(s, l, node, gen, tb);
        }
      case Removing(l, cnt, at) =>
        if at.SwingHead? && Get(s, l).head == Pair(at.ref, cnt) {
          HeadSwapExact(s, l, cnt, at.ref, at.v, at.after);
        }
      case _ =>
    }
  }

  lemma InvShape(s: State, l: ListId)
    requires ListOk(s, l)
    ensures Shape(l, Get(s, l))
  {
  }

  /** Stale and torn loads are harmless in every state of every run. */
  lemma StalePairsNeverMatch(start: nat, pids: set<nat>, acts: seq<Action>, p: nat)
    requires Clean(Init(start, pids), acts + [Exec(p)])
    ensures SwapsAreExact(Run(Init(start, pids), acts), p)
  {
    hide Inv, StaleZero, SwapsAreExact;
    var s, all := Init(start, pids), acts + [Exec(p)];
    InitInv(start, pids);
    forall k | 0 <= k < |acts| ensures !StaleZero(Run(s, acts[..k]), acts[k]) {
      assert all[..k] == acts[..k] && all[k] == acts[k];
    }
    RunInv(s, acts);
    assert all[..|acts|] == acts && all[|acts|] == Exec(p);
    InvExact(Run(s, acts), p);
  }

  // ------------------------------------------------------------ progress

  /** `k` instructions of p, every other process standing still. */
  ghost function Solo(s: State, p: nat, k: nat): State {
    if k == 0 then s else Step(Solo(s, p, k - 1), Exec(p))
  }

  lemma {:induction false} SoloAdd(s: State, p: nat, j: nat, k: nat)
    ensures Solo(s, p, j + k) == Solo(Solo(s, p, j), p, k)
  {
    hide Step;
    if k > 0 {
      SoloAdd(s, p, j, k - 1);
    }
  }

  lemma SoloLocal(s: State, p: nat, c: Proc, c': Proc)
    requires p in s.procs && ExecNext(At(s, p, c), p, c) == At(At(s, p, c), p, c')
    ensures Step(At(s, p, c), Exec(p)) == At(s, p, c')
  {
    assert s.procs[p := c][p := c'] == s.procs[p := c'];
  }

  lemma SoloNext(s: State, p: nat, k: nat, c: Proc, c': Proc)
    requires p in s.procs && Solo(s, p, k) == At(s, p, c) && ExecNext(At(s, p, c), p, c) == At(At(s, p, c), p, c')
    ensures Solo(s, p, k + 1) == At(s, p, c')
  {
    hide Step, ExecNext;
    SoloLocal(s, p, c, c');
  }

  /** Three instructions load the tail and look at the node it names. */
  lemma SoloLook(s: State, p: nat, l: ListId, node: int, gen: nat)
    requires p in s.procs && s.procs[p] == Adding(l, node, gen, LoadTail)
    ensures var tb := Get(s, l).tail;
            Solo(s, p, 3) == At(s, p,
                Adding(l, node, gen, if Link(s, tb.lo).lo == tb.lo then LinkLast(tb) else LoadNext(tb)))
  {
    var tb := Get(s, l).tail;
    assert Solo(s, p, 0) == At(s, p, s.procs[p]);
    hide Step, Solo, Link;
    SoloNext(s, p, 0, Adding(l, node, gen, LoadTail), Adding(l, node, gen, LoadTailCnt(tb.lo)));
    SoloNext(s, p, 1, Adding(l, node, gen, LoadTailCnt(tb.lo)), Adding(l, node, gen, Compare(tb)));
    LookLands(s, p, l, node, gen, tb);
    SoloNext(s, p, 2, Adding(l, node, gen, Compare(tb)),
             Adding(l, node, gen, if Link(s, tb.lo).lo == tb.lo then LinkLast(tb) else LoadNext(tb)));
  }

  lemma LookLands(s: State, p: nat, l: ListId, node: int, gen: nat, tb: Pair)
    ensures var c := Adding(l, node, gen, Compare(tb));
            ExecNext(At(s, p, c), p, c) ==
              At(At(s, p, c), p, Adding(l, node, gen, if Link(s, tb.lo).lo == tb.lo then LinkLast(tb)
                else LoadNext(tb)))
  {
  }

  lemma NextLands(s: State, p: nat, l: ListId, node: int, gen: nat, tb: Pair, nxt: Pair)
    requires Link(s, tb.lo) == nxt
    ensures var c, d := Adding(l, node, gen, LoadNext(tb)), Adding(l, node, gen, LoadNextCnt(tb, nxt.lo));
            && ExecNext(At(s, p, c), p, c) == At(At(s, p, c), p, d)
            && ExecNext(At(s, p, d), p, d) == At(At(s, p, d), p, Adding(l, node, gen, HelpTail(tb, nxt)))
  {
  }

  lemma SoloSeeBehind(s: State, p: nat, l: ListId, node: int, gen: nat)
    requires p in s.procs && s.procs[p] == Adding(l, node, gen, LoadTail)
    requires Link(s, Get(s, l).tail.lo).lo != Get(s, l).tail.lo
    ensures Solo(s, p, 5) == At(s, p, Adding(l, node, gen, HelpTail(Get(s, l).tail, Link(s, Get(s, l).tail.lo))))
  {
    hide Step, Solo, Link, ExecNext, At;
    var tb, nxt := Get(s, l).tail, Link(s, Get(s, l).tail.lo);
    SoloLook(s, p, l, node, gen);
    NextLands(s, p, l, node, gen, tb, nxt);
    SoloNext(s, p, 3, Adding(l, node, gen, LoadNext(tb)), Adding(l, node, gen, LoadNextCnt(tb, nxt.lo)));
    SoloNext(s, p, 4, Adding(l, node, gen, LoadNextCnt(tb, nxt.lo)), Adding(l, node, gen, HelpTail(tb, nxt)));
  }

  /** With the tail one behind, six instructions move it on. */
  lemma SoloHelp(s: State, p: nat, l: ListId, node: int, gen: nat)
    requires p in s.procs && s.procs[p] == Adding(l, node, gen, LoadTail)
    requires Link(s, Get(s, l).tail.lo).lo != Get(s, l).tail.lo
    ensures Solo(s, p, 6) == Put(s, l, Get(s, l).(tail := Link(s, Get(s, l).tail.lo)))
  {
    hide Step;
    SoloSeeBehind(s, p, l, node, gen);
    HelpLands(s, p, l, node, gen, Get(s, l).tail, Link(s, Get(s, l).tail.lo));
  }

  lemma HelpLands(s: State, p: nat, l: ListId, node: int, gen: nat, tb: Pair, nxt: Pair)
    requires p in s.procs && s.procs[p] == Adding(l, node, gen, LoadTail) && Get(s, l).tail == tb
    ensures Step(At(s, p, Adding(l, node, gen, HelpTail(tb, nxt))), Exec(p)) == Put(s, l, Get(s, l).(tail := nxt))
  {
    assert s.procs[p := Adding(l, node, gen, HelpTail(tb, nxt))][p := Adding(l, node, gen, LoadTail)] == s.procs;
  }

  /** With the tail at the last node, five instructions append the node and move the tail. */
  lemma SoloAppend(s: State, p: nat, l: ListId, node: int, gen: nat)
    requires p in s.procs && s.procs[p] == Adding(l, node, gen, LoadTail)
    requires Link(s, Get(s, l).tail.lo) == Get(s, l).tail
    ensures var s' := Solo(s, p, 5);
            && p in s'.procs && s'.procs[p] == Idle
            && Get(s', l).log == Get(s, l).log + [Pair(node, gen)]
            && Get(s', l).tail == Pair(node, gen)
  {
    hide Step;
    var tb := Get(s, l).tail;
    SoloLook(s, p, l, node, gen);
    var s3 := At(s, p, Adding(l, node, gen, LinkLast(tb)));
    assert Solo(s, p, 3) == s3;
    hide Link;
    LinkLands(s3, p, l, node, gen, tb);
    SwingLands(Solo(s, p, 4), p, l, node, gen, tb);
  }

  lemma LinkLands(s: State, p: nat, l: ListId, node: int, gen: nat, tb: Pair)
    requires p in s.procs && s.procs[p] == Adding(l, node, gen, LinkLast(tb)) && Link(s, tb.lo) == tb
    ensures var s' := Step(s, Exec(p));
            && p in s'.procs && s'.procs[p] == SwingTail(l, node, gen, tb)
            && Get(s', l).log == Get(s, l).log + [Pair(node, gen)] && Get(s', l).tail == Get(s, l).tail
  {
  }

  lemma SwingLands(s: State, p: nat, l: ListId, node: int, gen: nat, tb: Pair)
    requires p in s.procs && s.procs[p] == SwingTail(l, node, gen, tb) && Get(s, l).tail == tb
    ensures var s' := Step(s, Exec(p));
            && p in s'.procs && s'.procs[p] == Idle
            && Get(s', l).log == Get(s, l).log && Get(s', l).tail == Pair(node, gen)
  {
  }

  lemma LastLinked(s: State, l: ListId)
    requires ListOk(s, l)
    ensures Get(s, l).log != [] && Link(s, Get(s, l).log[|Get(s, l).log| - 1].lo) == Get(s, l).log[|Get(s, l).log| - 1]
  {
  }

  /** Process p is through, and the log of list l is `log`. */
  ghost predicate Through(s: State, p: nat, l: ListId, log: seq<Pair>) {
    p in s.procs && s.procs[p] == Idle && Get(s, l).log == log
  }

  ghost predicate ThroughWithin(s: State, p: nat, l: ListId, log: seq<Pair>, n: nat) {
    exists k :: 1 <= k <= n && Through(Solo(s, p, k), p, l, log)
  }

  /** From the top of the loop of add_end it takes 5 instructions, or 11 if the tail is one behind. */
  lemma FinishesFromTop(s: State, p: nat)
    requires Inv(s) && p in s.procs && s.procs[p].Adding? && s.procs[p].add.LoadTail?
    ensures var c := s.procs[p];
            ThroughWithin(s, p, c.l, Get(s, c.l).log + [Pair(c.node, c.gen)], 11)
  {
    hide Inv, ListOk, Step, Solo;
    var c := s.procs[p];
    var q, log := Get(s, c.l), Get(s, c.l).log + [Pair(c.node, c.gen)];
    ProcFacts(s, p);
    TailNode(s, c.l, q.tail);
    InvShape(s, c.l);
    if TailIdx(q) == |q.log| - 1 {
      SoloAppend(s, p, c.l, c.node, c.gen);
      assert Through(Solo(s, p, 5), p, c.l, log);
    } else {
      SoloHelp(s, p, c.l, c.node, c.gen);
      var s6 := Solo(s, p, 6);
      LastLinked(s, c.l);
      SoloAppend(s6, p, c.l, c.node, c.gen);
      SoloAdd(s, p, 6, 5);
      assert Through(Solo(s, p, 11), p, c.l, log);
    }
  }

  /** How many instructions lead back to the top of the loop, unless the node is linked on the way. */
  ghost function ToTop(at: AddAt): nat {
    match at
    case StoreSlot => 2
    case StoreGen => 1
    case LoadTail => 0
    case LoadTailCnt(_) => 5
    case LoadTailSlot(_) => 5
    case Compare(_) => 4
    case LinkLast(_) => 1
    case LoadNext(_) => 3
    case LoadNextCnt(_, _) => 2
    case LoadNextSlot(_, _) => 2
    case HelpTail(_, _) => 1
  }

  /** A DWCAS that links finishes the append with one more instruction. */
  lemma FinishesFromLink(s: State, p: nat, l: ListId, node: int, gen: nat, tb: Pair)
    requires p in s.procs && s.procs[p] == Adding(l, node, gen, LinkLast(tb)) && Link(s, tb.lo) == tb
    ensures ThroughWithin(s, p, l, Get(s, l).log + [Pair(node, gen)], 12)
  {
    hide Step;
    var s1 := Step(s, Exec(p));
    SoloTwo(s, p);
    LinkLands(s, p, l, node, gen, tb);
    SwingThrough(s1, p, l, node, gen, tb);
    assert Through(Solo(s, p, 2), p, l, Get(s, l).log + [Pair(node, gen)]);
  }

  lemma SoloTwo(s: State, p: nat)
    ensures Solo(s, p, 1) == Step(s, Exec(p)) && Solo(s, p, 2) == Step(Step(s, Exec(p)), Exec(p))
  {
    hide Step;
    assert Solo(s, p, 0) == s;
  }

  lemma SwingThrough(s: State, p: nat, l: ListId, node: int, gen: nat, tb: Pair)
    requires p in s.procs && s.procs[p] == SwingTail(l, node, gen, tb)
    ensures Through(Step(s, Exec(p)), p, l, Get(s, l).log)
  {
  }

  /** Any other instruction gets nearer to the top of the loop and links nothing. */
  ghost predicate Nearer(s: State, s1: State, p: nat, l: ListId, node: int, gen: nat, at: AddAt) {
    && p in s1.procs && s1.procs[p].Adding? && s1.procs[p] == Adding(l, node, gen, s1.procs[p].add)
    && Get(s1, l).log == Get(s, l).log && ToTop(s1.procs[p].add) < ToTop(at)
  }

  lemma NearerTop(s: State, p: nat, l: ListId, node: int, gen: nat, at: AddAt)
    requires p in s.procs && !at.LoadTail?
    requires at.LinkLast? ==> Link(s, at.tb.lo) != at.tb
    ensures Nearer(s, ExecAdd(s, p, l, node, gen, at), p, l, node, gen, at)
  {
    hide Link;
    if at.HelpTail? {
      assert Get(TailSwap(s, l, at.tb, at.nxt), l).log == Get(s, l).log;
      hide TailSwap;
    }
  }

  lemma WithinLater(s: State, p: nat, l: ListId, log: seq<Pair>, n: nat, m: nat)
    requires p in s.procs && ThroughWithin(Step(s, Exec(p)), p, l, log, n) && n < m
    ensures ThroughWithin(s, p, l, log, m)
  {
    assert Solo(s, p, 1) == Step(s, Exec(p)) by {
      assert Solo(s, p, 0) == s;
    }
    hide Solo, Step, Through;
    var k :| 1 <= k <= n && Through(Solo(Step(s, Exec(p)), p, k), p, l, log);
    SoloAdd(s, p, 1, k);
    assert Through(Solo(s, p, 1 + k), p, l, log);
  }

  lemma {:induction false} FinishesFrom(s: State, p: nat)
    requires Inv(s) && p in s.procs && s.procs[p].Adding?
    ensures var c := s.procs[p];
            ThroughWithin(s, p, c.l, Get(s, c.l).log + [Pair(c.node, c.gen)], 11 + ToTop(c.add))
    decreases ToTop(s.procs[p].add)
  {
    hide Inv, Solo, Link, ThroughWithin, ExecAdd;
    var c := s.procs[p];
    if c.add.LoadTail? {
      FinishesFromTop(s, p);
    } else if c.add.LinkLast? && Link(s, c.add.tb.lo) == c.add.tb {
      FinishesFromLink(s, p, c.l, c.node, c.gen, c.add.tb);
    } else {
      var s1 := Step(s, Exec(p));
      NearerTop(s, p, c.l, c.node, c.gen, c.add);
      StepInv(s, Exec(p));
      assert Nearer(s, s1, p, c.l, c.node, c.gen, c.add);
      hide Step;
      FinishesFrom(s1, p);
      WithinLater(s, p, c.l, Get(s, c.l).log + [Pair(c.node, c.gen)], 11 + ToTop(s1.procs[p].add), 11 + ToTop(c.add));
    }
  }

  /**
   * Wherever the other processes have stopped, and wherever it stands itself,
   * an append finishes alone: with at most 16 instructions its node is linked
   * once, and it is idle.
   */
  lemma AppendFinishesAlone(s: State, p: nat)
    requires Inv(s) && p in s.procs && (s.procs[p].Adding? || s.procs[p].SwingTail?)
    ensures var c := s.procs[p];
            var log := if c.Adding? then Get(s, c.l).log + [Pair(c.node, c.gen)] else Get(s, c.l).log;
            ThroughWithin(s, p, c.l, log, 16)
  {
    var c := s.procs[p];
    if c.Adding? {
      hide Inv, Step, Solo, Through;
      FinishesFrom(s, p);
      var k :| 1 <= k <= 11 + ToTop(c.add) && Through(Solo(s, p, k), p, c.l, Get(s, c.l).log + [Pair(c.node, c.gen)]);
    } else {
      hide Inv;
      SwingThrough(s, p, c.l, c.node, c.gen, c.tb);
      assert Solo(s, p, 0) == s;
      assert Through(Solo(s, p, 1), p, c.l, Get(s, c.l).log);
    }
  }
}
