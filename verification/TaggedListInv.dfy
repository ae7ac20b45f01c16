/**
 * The inductive invariant of the tagged list, and the proof that every step
 * keeps it.
 */
module TaggedListInv {
  import opened Layout
  import opened TaggedList

  /** The index of the log entry the tail names: the last one, or the one before it. */
  ghost function TailIdx(q: List): int {
    if q.log != [] && q.tail == q.log[|q.log| - 1] then |q.log| - 1 else |q.log| - 2
  }

  /** Head, tail and log of one list agree, whatever the memory holds. */
  ghost predicate Shape(l: ListId, q: List) {
    && |q.vals| == |q.log|
    && 0 <= q.front <= TailIdx(q) < |q.log|
    && q.head.lo == q.log[q.front].lo
    && q.tail == q.log[TailIdx(q)]
    && (forall i :: 1 <= i < |q.log| ==> q.log[i].hi > 0)
    && (l != Free ==> q.out == q.vals[1..q.front + 1])
  }

  ghost predicate DistinctGens(log: seq<Pair>) {
    forall i, j :: 0 <= i < j < |log| ==> log[i].hi != log[j].hi
  }

  /** From the head on, the log entries are nodes, on the list, with their values. */
  ghost predicate Placed(s: State, l: ListId, q: List) {
    forall i :: q.front <= i < |q.log| && i < |q.vals| ==>
      && q.log[i].lo in s.link
      && q.log[i].lo in s.place && s.place[q.log[i].lo] == OnList(l, i)
      && Value(s, q.log[i].lo) == q.vals[i]
  }

  /** Every link from the head on is the slot and generation of the next node, and the last one its own. */
  ghost predicate Chained(s: State, q: List) {
    && (forall i, j :: q.front <= i && j == i + 1 && j < |q.log| ==> Link(s, q.log[i].lo) == q.log[j])
    && (q.log != [] ==> Link(s, q.log[|q.log| - 1].lo) == q.log[|q.log| - 1])
  }

  /** Every generation of the log was drawn for its entry and no other. */
  ghost predicate Minted(s: State, l: ListId, q: List) {
    forall i :: 0 <= i < |q.log| ==>
      0 <= q.log[i].hi && q.log[i].hi in s.mint && s.mint[q.log[i].hi] == Linked(l, i)
  }

  ghost predicate InMemory(s: State, l: ListId, q: List) {
    Placed(s, l, q) && Chained(s, q) && Minted(s, l, q)
  }

  ghost predicate ListOk(s: State, l: ListId) {
    Shape(l, Get(s, l)) && InMemory(s, l, Get(s, l))
  }

  /** The process owns the node: it got it and has not linked it yet. */
  ghost predicate Owns(c: Proc, n: int) {
    (c.Holding? || c.Adding? || c.ZeroSlot? || c.ZeroGen? || c.Pushing?) && c.node == n
  }

  /** The place recorded for a node is the one it occupies. */
  ghost predicate PlaceOk(s: State, n: int, at: Place) {
    match at
    case OnList(l, i) => Get(s, l).front <= i < |Get(s, l).log| && Get(s, l).log[i].lo == n
    case Held(p) => p in s.procs && Owns(s.procs[p], n)
    case Stacked => Link(s, n).lo != n
  }

  ghost predicate PlacesOk(s: State) {
    && s.place.Keys == s.link.Keys
    && s.val.Keys == s.link.Keys
    && (forall n :: n in s.link ==> HDR_END <= n)
    && (forall n :: n in s.place ==> PlaceOk(s, n, s.place[n]))
    && s.idCntr > 0
    && (forall g :: g in s.mint ==> g < s.idCntr && (s.mint[g].Pending? ==> g > 0))
  }

  ghost predicate OwnNode(s: State, p: nat, n: int) {
    n in s.place && s.place[n] == Held(p)
  }

  /** The generation was that of the tail once. */
  ghost predicate GenSeen(q: List, gen: int) {
    exists j :: 0 <= j <= TailIdx(q) && j < |q.log| && q.log[j].hi == gen
  }

  /** What a loaded tail still tells: where its generation was, and its slot if the tail has never moved. */
  ghost predicate TailSeen(q: List, tb: Pair) {
    GenSeen(q, tb.hi) && (TailIdx(q) == 0 && q.log != [] ==> tb.lo == q.log[0].lo)
  }

  /** If the tail has not moved since it was loaded, it is one behind. */
  ghost predicate TailBehind(q: List, tb: Pair) {
    q.tail == tb ==> TailIdx(q) == |q.log| - 2
  }

  /** What a remover's loads still tell: they hold as long as the head counter has not moved. */
  ghost predicate HeadKept(q: List, cnt: int, ref: int) {
    && cnt <= q.head.hi
    && (q.head.hi == cnt ==> q.head.lo == ref)
  }

  ghost predicate HeadPassed(q: List, cnt: int, ref: int) {
    HeadKept(q, cnt, ref) && (q.head.hi == cnt ==> q.front < TailIdx(q))
  }

  ghost predicate ValueSeen(l: ListId, q: List, cnt: int, v: int) {
    l != Free && q.head.hi == cnt && q.front + 1 < |q.vals| ==> v == q.vals[q.front + 1]
  }

  /** What the locals of add_end say about the list. */
  ghost predicate AddSnap(q: List, at: AddAt) {
    match at
    case LoadTailCnt(tlo) => TailIdx(q) == 0 && q.log != [] ==> tlo == q.log[0].lo
    case LoadTailSlot(thi) => GenSeen(q, thi)
    case Compare(tb) => TailSeen(q, tb)
    case LinkLast(tb) => TailSeen(q, tb)
    case LoadNext(tb) => TailSeen(q, tb) && TailBehind(q, tb)
    case LoadNextCnt(tb, nlo) =>
      TailSeen(q, tb) && TailBehind(q, tb) && (q.tail == tb && q.log != [] ==> nlo == q.log[|q.log| - 1].lo)
    case LoadNextSlot(tb, nhi) =>
      TailSeen(q, tb) && TailBehind(q, tb) && (q.tail == tb && q.log != [] ==> nhi == q.log[|q.log| - 1].hi)
    case HelpTail(tb, nxt) =>
      TailSeen(q, tb) && TailBehind(q, tb) && (q.tail == tb && q.log != [] ==> nxt == q.log[|q.log| - 1])
    case _ => true
  }

  /** What the last DWCAS of add_end relies on: the node was appended right behind `tb`. */
  ghost predicate SwingSnap(q: List, node: int, gen: nat, tb: Pair) {
    exists i, j :: 0 <= i && j == i + 1 && j < |q.log| && q.log[i] == tb && q.log[j] == Pair(node, gen)
  }

  ghost predicate AfterSeen(q: List, cnt: int, after: int) {
    q.head.hi == cnt && q.front + 1 < |q.log| ==> after == q.log[q.front + 1].lo
  }

  /** What the locals of a remover say about the list. */
  ghost predicate RemSnap(l: ListId, q: List, cnt: int, at: RemAt) {
    match at
    case LoadHead => cnt <= q.head.hi
    case CheckEmpty(ref) => HeadKept(q, cnt, ref)
    case LoadFirst(ref) => HeadPassed(q, cnt, ref)
    case LoadValue(ref, after) => HeadPassed(q, cnt, ref) && AfterSeen(q, cnt, after)
    case Recheck(ref, v) => HeadPassed(q, cnt, ref) && ValueSeen(l, q, cnt, v)
    case LoadAfter(ref, v) => HeadPassed(q, cnt, ref) && ValueSeen(l, q, cnt, v)
    case SwingHead(ref, v, after) => HeadPassed(q, cnt, ref) && ValueSeen(l, q, cnt, v) && AfterSeen(q, cnt, after)
  }

  /** The part of a process's invariant that depends on its list. */
  ghost predicate Snap(l: ListId, q: List, c: Proc) {
    match c
    case Adding(k, _, _, at) => k == l ==> AddSnap(q, at)
    case SwingTail(k, node, gen, tb) => k == l ==> SwingSnap(q, node, gen, tb)
    case Removing(k, cnt, at) => k == l ==> RemSnap(l, q, cnt, at)
    case _ => true
  }

  /** The link of a node whose append is under way. */
  ghost predicate AddLink(n: int, gen: nat, at: AddAt, w: Pair) {
    match at
    case StoreSlot => w.lo != n && w.hi == 0
    case StoreGen => w == Pair(n, 0)
    case _ => w == Pair(n, gen)
  }

  /** The part of a process's invariant that depends on the node it owns. */
  ghost predicate Own(s: State, p: nat, c: Proc) {
    match c
    case Holding(n) => OwnNode(s, p, n) && Link(s, n).lo != n && Link(s, n).hi == 0
    case Adding(_, n, gen, at) =>
      OwnNode(s, p, n) && AddLink(n, gen, at, Link(s, n)) && gen in s.mint && s.mint[gen] == Pending(p)
    case ZeroSlot(n) => OwnNode(s, p, n) && Link(s, n).lo != n
    case ZeroGen(n) => OwnNode(s, p, n) && Link(s, n).lo == 0
    case Pushing(n, _) => OwnNode(s, p, n) && Link(s, n).lo != n
    case _ => true
  }

  ghost predicate SnapOk(s: State, c: Proc) {
    Snap(Items, s.items, c) && Snap(Events, s.events, c) && Snap(Free, s.free, c)
  }

  ghost predicate ProcOk(s: State, p: nat, c: Proc) {
    Own(s, p, c) && SnapOk(s, c)
  }

  ghost predicate ListsOk(s: State) {
    ListOk(s, Items) && ListOk(s, Events) && ListOk(s, Free)
  }

  ghost predicate ProcsOk(s: State) {
    forall p :: p in s.procs ==> ProcOk(s, p, s.procs[p])
  }

  /** What holds in every state a run can reach. */
  ghost predicate Inv(s: State) {
    ListsOk(s) && PlacesOk(s) && ProcsOk(s)
  }
}
