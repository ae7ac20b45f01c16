/**
 * The lock-free linked list shared by the item queue, the event queue and the
 * pool of free nodes, as a state machine.  Every step is one load, one store,
 * one fetch-and-add, one CAS or one DWCAS of some process; the processes and
 * their interleaving are arbitrary.
 *
 * A node is a block of four slots.  Its first two slots are its link: the slot
 * and the generation of its successor, or its own slot and generation when it
 * is the last node.  The generation of a node is drawn afresh from ID_CNTR each
 * time the node is appended.
 */
module TaggedList {
  import opened Layout

  /**
   * One list.  `head` and `tail` are the words in the header of the object; the
   * other fields are history: `log` is every (slot, generation) ever appended,
   * oldest first, `vals` the value each of them carried, `front` the index of
   * the node the head is at (a dummy), and `out` the values handed to removers.
   */
  datatype List = List(head: Pair, tail: Pair, log: seq<Pair>, vals: seq<int>, front: nat, out: seq<int>)

  /** Where a node is: on a list at an index of its log, with a process, or on the LIFO stack. */
  datatype Place = OnList(l: ListId, i: nat) | Held(p: nat) | Stacked

  /** What a generation was drawn for: an entry of a log, or an append still under way. */
  datatype Mint = Linked(l: ListId, i: nat) | Pending(p: nat)

  /** Where a process is in add_end, with its local variables. */
  datatype AddAt =
    | StoreSlot
    | StoreGen
    | LoadTail
    | LoadTailCnt(tlo: int)
    | LoadTailSlot(thi: int)
    | Compare(tb: Pair)
    | LinkLast(tb: Pair)
    | LoadNext(tb: Pair)
    | LoadNextCnt(tb: Pair, nlo: int)
    | LoadNextSlot(tb: Pair, nhi: int)
    | HelpTail(tb: Pair, nxt: Pair)

  /** Where a process is in fifo_remove, shr_q_event or realloc_pooled_mem. */
  datatype RemAt =
    | LoadHead
    | CheckEmpty(ref: int)
    | LoadFirst(ref: int)
    | LoadValue(ref: int, after: int)
    | Recheck(ref: int, v: int)
    | LoadAfter(ref: int, v: int)
    | SwingHead(ref: int, v: int, after: int)

  /** A process: what it runs, the instruction it is at, and its local variables. */
  datatype Proc =
    | Idle
    | Holding(node: int)
    | Adding(l: ListId, node: int, gen: nat, add: AddAt)
    | SwingTail(l: ListId, node: int, gen: nat, tb: Pair)  // the last DWCAS of add_end
    | Removing(l: ListId, cnt: int, rem: RemAt)
    | ZeroSlot(node: int)                                  // the memset of a removed node
    | ZeroGen(node: int)
    | Pushing(node: int, stored: bool)                     // lifo_add: the top's slot, or slot and counter, stored

  /** The whole system; `place` and `mint` are history, the rest is memory and locals. */
  datatype State = State(
    link: map<int, Pair>,
    val: map<int, int>,
    items: List,
    events: List,
    free: List,
    idCntr: nat,
    procs: map<nat, Proc>,
    place: map<int, Place>,
    mint: map<nat, Mint>)

  /** The choices of the scheduler and of the callers. */
  datatype Action =
    | Alloc(p: nat, n: int)            // a node is carved by alloc_new_data
    | SetValue(p: nat, v: int)         // a private store to the node's value
    | PushSlot(p: nat, top: int)       // lifo_add stores the slot of the top, at first or after a failed DWCAS
    | PushCnt(p: nat, cnt: int)        // and the counter
    | Push(p: nat)                     // the DWCAS: the node goes onto the LIFO stack
    | Pop(p: nat, n: int)              // the DWCAS of remove_top: a node comes off the LIFO stack
    | BeginAdd(p: nat, l: ListId)      // add_end draws a generation
    | BeginRemove(p: nat, l: ListId)   // the head counter is loaded
    | GiveUp(p: nat)                   // shr_q_clean meets an item that has not expired
    | Draw(p: nat)                     // copy_value or copy_vector draws a unique id
    | Exec(p: nat)                     // the next instruction of p
    | ExecHigh(p: nat)                 // the same, where a pair is read high half first

  function Get(s: State, l: ListId): List {
    match l
    case Items => s.items
    case Events => s.events
    case Free => s.free
  }

  function Put(s: State, l: ListId, q: List): State {
    match l
    case Items => s.(items := q)
    case Events => s.(events := q)
    case Free => s.(free := q)
  }

  function At(s: State, p: nat, c: Proc): State {
    s.(procs := s.procs[p := c])
  }

  function Link(s: State, n: int): Pair {
    if n in s.link then s.link[n] else Pair(0, 0)
  }

  function Value(s: State, n: int): int {
    if n in s.val then s.val[n] else 0
  }

  // ---------------------------------------------------------------- the steps

  /** add_end draws a generation with one fetch-and-add of ID_CNTR. */
  function DrawGen(s: State, p: nat, node: int, l: ListId): State {
    At(s.(idCntr := s.idCntr + 1, mint := s.mint[s.idCntr := Pending(p)]), p, Adding(l, node, s.idCntr, StoreSlot))
  }

  /** The DWCAS that appends a node to the node the process believes is last. */
  function LinkSwap(s: State, p: nat, l: ListId, node: int, gen: nat, tb: Pair): State {
    if Link(s, tb.lo) == tb then
      var q := Get(s, l);
      var k := |q.log|;
      var q' := q.(log := q.log + [Pair(node, gen)], vals := q.vals + [Value(s, node)]);
      var s' := s.(link := s.link[tb.lo := Pair(node, gen)],
                   place := s.place[node := OnList(l, k)],
                   mint := s.mint[gen := Linked(l, k)]);
      At(Put(s', l, q'), p, SwingTail(l, node, gen, tb))
    else
      At(s, p, Adding(l, node, gen, LoadTail))
  }

  /** A DWCAS of the tail from `tb` to `next`. */
  function TailSwap(s: State, l: ListId, tb: Pair, next: Pair): State {
    var q := Get(s, l);
    if q.tail == tb then Put(s, l, q.(tail := next)) else s
  }

  /** The DWCAS that moves the head to the next node; the counter goes up by one. */
  function HeadSwap(s: State, p: nat, l: ListId, cnt: int, ref: int, v: int, after: int): State {
    var q := Get(s, l);
    if q.head == Pair(ref, cnt) then
      var q' := q.(head := Pair(after, cnt + 1), front := q.front + 1, out := q.out + [v]);
      At(Put(s.(place := s.place[ref := Held(p)]), l, q'), p, ZeroSlot(ref))
    else
      At(s, p, Idle)
  }

  function StoreLink(s: State, n: int, w: Pair): State {
    s.(link := s.link[n := w])
  }

  /** The instructions of add_end.  The order in which the halves of a pair are read is open. */
  function ExecAdd(s: State, p: nat, l: ListId, node: int, gen: nat, at: AddAt): State {
    match at
    case StoreSlot =>
      At(StoreLink(s, node, Pair(node, Link(s, node).hi)), p, Adding(l, node, gen, StoreGen))
    case StoreGen =>
      At(StoreLink(s, node, Pair(Link(s, node).lo, gen)), p, Adding(l, node, gen, LoadTail))
    case LoadTail =>
      At(s, p, Adding(l, node, gen, LoadTailCnt(Get(s, l).tail.lo)))
    case LoadTailCnt(tlo) =>
      At(s, p, Adding(l, node, gen, Compare(Pair(tlo, Get(s, l).tail.hi))))
    case LoadTailSlot(thi) =>
      At(s, p, Adding(l, node, gen, Compare(Pair(Get(s, l).tail.lo, thi))))
    case Compare(tb) =>
      At(s, p, Adding(l, node, gen, if Link(s, tb.lo).lo == tb.lo then LinkLast(tb) else LoadNext(tb)))
    case LinkLast(tb) =>
      LinkSwap(s, p, l, node, gen, tb)
    case LoadNext(tb) =>
      At(s, p, Adding(l, node, gen, LoadNextCnt(tb, Link(s, tb.lo).lo)))
    case LoadNextCnt(tb, nlo) =>
      At(s, p, Adding(l, node, gen, HelpTail(tb, Pair(nlo, Link(s, tb.lo).hi))))
    case LoadNextSlot(tb, nhi) =>
      At(s, p, Adding(l, node, gen, HelpTail(tb, Pair(Link(s, tb.lo).lo, nhi))))
    case HelpTail(tb, nxt) =>
      At(TailSwap(s, l, tb, nxt), p, Adding(l, node, gen, LoadTail))
  }

  /** The instructions of the removers, up to and including remove_front. */
  function ExecRemove(s: State, p: nat, l: ListId, cnt: int, at: RemAt): State {
    match at
    case LoadHead =>
      At(s, p, Removing(l, cnt, CheckEmpty(Get(s, l).head.lo)))
    case CheckEmpty(ref) =>
      At(s, p, if ref == Get(s, l).tail.lo then Idle
               else Removing(l, cnt, if l == Free then Recheck(ref, 0) else LoadFirst(ref)))
    case LoadFirst(ref) =>
      var after := Link(s, ref).lo;
      At(s, p, if l == Items && after < HDR_END then Idle else Removing(l, cnt, LoadValue(ref, after)))
    case LoadValue(ref, after) =>
      var v := Value(s, after);
      At(s, p, if l == Items && v == 0 then Idle else Removing(l, cnt, Recheck(ref, v)))
    case Recheck(ref, v) =>
      At(s, p, if ref == Get(s, l).tail.lo then Idle else Removing(l, cnt, LoadAfter(ref, v)))
    case LoadAfter(ref, v) =>
      At(s, p, Removing(l, cnt, SwingHead(ref, v, Link(s, ref).lo)))
    case SwingHead(ref, v, after) =>
      HeadSwap(s, p, l, cnt, ref, v, after)
  }

  function ExecNext(s: State, p: nat, c: Proc): State {
    match c
    case Adding(l, node, gen, at) => ExecAdd(s, p, l, node, gen, at)
    case SwingTail(l, node, gen, tb) => At(TailSwap(s, l, tb, Pair(node, gen)), p, Idle)
    case Removing(l, cnt, at) => ExecRemove(s, p, l, cnt, at)
    case ZeroSlot(node) => At(StoreLink(s, node, Pair(0, Link(s, node).hi)), p, ZeroGen(node))
    case ZeroGen(node) => At(StoreLink(s, node, Pair(Link(s, node).lo, 0)), p, Holding(node))
    case _ => s
  }

  /** A process about to read a pair reads its high half. */
  function ReadHigh(s: State, p: nat, c: Proc): State {
    if c.Adding? && c.add.LoadTail? then
      At(s, p, Adding(c.l, c.node, c.gen, LoadTailSlot(Get(s, c.l).tail.hi)))
    else if c.Adding? && c.add.LoadNext? then
      At(s, p, Adding(c.l, c.node, c.gen, LoadNextSlot(c.add.tb, Link(s, c.add.tb.lo).hi)))
    else s
  }

  /** One step of the system; an action that does not apply changes nothing. */
  function Step(s: State, a: Action): State {
    if a.p !in s.procs then s else
    var c := s.procs[a.p];
    match a
    case Alloc(p, n) =>
      if c == Idle && n !in s.link && n >= HDR_END && n % NODE_SIZE == 0 then
        At(s.(link := s.link[n := Pair(NODE_SIZE, 0)], val := s.val[n := 0], place := s.place[n := Held(p)]), p,
            Holding(n))
      else s
    case SetValue(p, v) =>
      if c.Holding? then s.(val := s.val[c.node := v]) else s
    case PushSlot(p, top) =>
      if (c.Holding? || (c.Pushing? && c.stored)) && top != c.node then
        At(StoreLink(s, c.node, Pair(top, Link(s, c.node).hi)), p, Pushing(c.node, false))
      else s
    case PushCnt(p, cnt) =>
      if c.Pushing? && !c.stored then At(StoreLink(s, c.node, Pair(Link(s, c.node).lo, cnt)), p, Pushing(c.node, true))
        else s
    case Push(p) =>
      if c.Pushing? && c.stored then At(s.(place := s.place[c.node := Stacked]), p, Idle) else s
    case Pop(p, n) =>
      if c == Idle && n in s.place && s.place[n] == Stacked then
        At(s.(place := s.place[n := Held(p)]), p, ZeroSlot(n))
      else s
    case BeginAdd(p, l) =>
      if c.Holding? then DrawGen(s, p, c.node, l) else s
    case BeginRemove(p, l) =>
      if c == Idle then At(s, p, Removing(l, Get(s, l).head.hi, LoadHead)) else s
    case GiveUp(p) =>
      if c.Removing? && c.rem.Recheck? then At(s, p, Idle) else s
    case Draw(p) =>
      s.(idCntr := s.idCntr + 1)
    case Exec(p) =>
      ExecNext(s, p, c)
    case ExecHigh(p) =>
      ReadHigh(s, p, c)
  }

  /** The state after a run. */
  function Run(s: State, acts: seq<Action>): State {
    if acts == [] then s else Step(Run(s, acts[..|acts| - 1]), acts[|acts| - 1])
  }

  /** prime_list: one dummy node that carries its own slot and generation. */
  function Primed(slot: int, gen: nat): List {
    List(Pair(slot, gen), Pair(slot, gen), [Pair(slot, gen)], [0], 0, [])
  }

  /**
   * The freshly formatted object: the free pool is primed first, then the event
   * list, then the item list.  `start` is the value ID_CNTR has before that; the
   * library leaves it at 0.
   */
  function Init(start: nat, pids: set<nat>): State {
    State(
      map[HDR_END := Pair(HDR_END, start), HDR_END + 4 := Pair(HDR_END + 4, start + 1), HDR_END +
        8 := Pair(HDR_END + 8, start + 2)],
      map[HDR_END := 0, HDR_END + 4 := 0, HDR_END + 8 := 0],
      Primed(HDR_END + 8, start + 2),
      Primed(HDR_END + 4, start + 1),
      Primed(HDR_END, start),
      start + 3,
      map p | p in pids :: Idle,
      map[HDR_END := OnList(Free, 0), HDR_END + 4 := OnList(Events, 0), HDR_END + 8 := OnList(Items, 0)],
      map[start := Linked(Free, 0), start + 1 := Linked(Events, 0), start + 2 := Linked(Items, 0)])
  }
}
