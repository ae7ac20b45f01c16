/**
 * The token protocol of the queue: ENQ_SEM counts free places, DEQ_SEM counts
 * items that may be taken, COUNT is the advertised depth.  The three are
 * updated at different moments by adders, removers and cleaners; each step is
 * one semaphore operation, one link or unlink, or one fetch-and-add.
 */
module Tokens {

  /** Where a process is in an add, or in a remove or clean. */
  datatype Proc =
    | Idle
      // shr_q_add: past the enq gate, past the link, past the fetch-and-add of COUNT
    | HasSlot
    | HasLinked
    | HasCounted
      // shr_q_remove and shr_q_clean: past the deq gate, past the unlink, past the fetch-and-sub of COUNT
    | HasToken
    | HasUnlinked
    | HasUncounted

  /** `linked` is the number of items on the list or the stack; `prods` (history) counts calls of shr_q_prod. */
  datatype State = State(maxDepth: int, enq: int, deq: int, count: int, linked: int, prods: int, procs: map<nat, Proc>)

  datatype Action =
    | EnqGate(p: nat)      // sem_trywait or sem_wait on ENQ_SEM succeeds
    | AddFails(p: nat)     // no memory: enq_release_gate
    | DeqGate(p: nat)      // sem_trywait or sem_wait on DEQ_SEM succeeds
    | GiveBack(p: nat)     // nothing taken: deq_release_gate
    | Prod(p: nat)         // shr_q_prod posts DEQ_SEM
    | Exec(p: nat)         // the next instruction

  function At(s: State, p: nat, c: Proc): State {
    s.(procs := s.procs[p := c])
  }

  function Step(s: State, a: Action): State {
    if a.p !in s.procs then s else
    var p, c := a.p, s.procs[a.p];
    match a
    case EnqGate(_) => if c == Idle && s.enq > 0 then At(s.(enq := s.enq - 1), p, HasSlot) else s
    case AddFails(_) => if c == HasSlot then At(s.(enq := s.enq + 1), p, Idle) else s
    case DeqGate(_) => if c == Idle && s.deq > 0 then At(s.(deq := s.deq - 1), p, HasToken) else s
    case GiveBack(_) => if c == HasToken then At(s.(deq := s.deq + 1), p, Idle) else s
    case Prod(_) => if c == Idle then s.(deq := s.deq + 1, prods := s.prods + 1) else s
    case Exec(_) =>
      match c
      case Idle => s
      case HasSlot => At(s.(linked := s.linked + 1), p, HasLinked)
      case HasLinked => At(s.(count := s.count + 1), p, HasCounted)
      case HasCounted => At(s.(deq := s.deq + 1), p, Idle)
      case HasToken => if s.linked > 0 then At(s.(linked := s.linked - 1), p, HasUnlinked) else s
      case HasUnlinked => At(s.(count := s.count - 1), p, HasUncounted)
      case HasUncounted => At(s.(enq := s.enq + 1), p, Idle)
  }

  function Run(s: State, acts: seq<Action>): State {
    if acts == [] then s else Step(Run(s, acts[..|acts| - 1]), acts[|acts| - 1])
  }

  function Init(maxDepth: nat, pids: set<nat>): State {
    State(maxDepth, maxDepth, 0, 0, 0, 0, map p | p in pids :: Idle)
  }

  // ------------------------------------------------------------ counting processes

  ghost function Those(procs: map<nat, Proc>, c: Proc): set<nat> {
    set p | p in procs && procs[p] == c
  }

  /** How many processes are at c. */
  ghost function Number(procs: map<nat, Proc>, c: Proc): nat {
    |Those(procs, c)|
  }

  lemma Gains(procs: map<nat, Proc>, p: nat, d: Proc)
    requires p in procs && procs[p] != d
    ensures Number(procs[p := d], d) == Number(procs, d) + 1
  {
    assert Those(procs[p := d], d) == Those(procs, d) + {p};
  }

  lemma Loses(procs: map<nat, Proc>, p: nat, d: Proc)
    requires p in procs && procs[p] != d
    ensures Number(procs[p := d], procs[p]) == Number(procs, procs[p]) - 1
  {
    assert Those(procs, procs[p]) == Those(procs[p := d], procs[p]) + {p};
  }

  /** A process that moves from c to d is counted at d instead of at c. */
  lemma Moves(procs: map<nat, Proc>, p: nat, d: Proc)
    requires p in procs && procs[p] != d
    ensures Number(procs[p := d], d) == Number(procs, d) + 1
    ensures Number(procs[p := d], procs[p]) == Number(procs, procs[p]) - 1
    ensures forall e :: e != d && e != procs[p] ==> Number(procs[p := d], e) == Number(procs, e)
  {
    Gains(procs, p, d);
    Loses(procs, p, d);
    forall e | e != d && e != procs[p] ensures Number(procs[p := d], e) == Number(procs, e) {
      assert Those(procs[p := d], e) == Those(procs, e);
    }
  }

  // ------------------------------------------------------------ conservation

  /** Every place of the queue is free, promised to an adder, taken by an item, or about to be freed. */
  ghost predicate PlacesConserved(s: State) {
    s.enq + Number(s.procs, HasSlot) + s.linked + Number(s.procs, HasUnlinked) + Number(s.procs, HasUncounted) ==
        s.maxDepth
  }

  /** Every item (and every prod) is matched by a token: posted, held by a remover, or about to be posted. */
  ghost predicate TokensConserved(s: State) {
    s.linked + s.prods == s.deq + Number(s.procs, HasToken) + Number(s.procs, HasLinked) + Number(s.procs, HasCounted)
  }

  /** COUNT lags behind the links and unlinks by the processes between the two. */
  ghost predicate CountLags(s: State) {
    s.count == s.linked - Number(s.procs, HasLinked) + Number(s.procs, HasUnlinked)
  }

  ghost predicate Inv(s: State) {
    PlacesConserved(s) && TokensConserved(s) && CountLags(s) && s.enq >= 0 && s.deq >= 0 && s.linked >= 0 &&
      s.prods >= 0
  }

  lemma StepInv(s: State, a: Action)
    requires Inv(s)
    ensures Inv(Step(s, a))
  {
    hide Number;
    var s' := Step(s, a);
    if a.p in s.procs && s'.procs != s.procs {
      var d := s'.procs[a.p];
      assert s'.procs == s.procs[a.p := d];
      assert d != s.procs[a.p];
      Moves(s.procs, a.p, d);
    }
  }

  lemma InitInv(maxDepth: nat, pids: set<nat>)
    ensures Inv(Init(maxDepth, pids))
  {
    var procs := Init(maxDepth, pids).procs;
    forall c | c != Idle ensures Number(procs, c) == 0 {
      assert Those(procs, c) == {};
    }
  }

  lemma {:induction false} RunInv(maxDepth: nat, pids: set<nat>, acts: seq<Action>)
    ensures Inv(Run(Init(maxDepth, pids), acts)) && Run(Init(maxDepth, pids), acts).maxDepth == maxDepth
  {
    hide Inv;
    if acts == [] {
      InitInv(maxDepth, pids);
    } else {
      var k := |acts| - 1;
      RunInv(maxDepth, pids, acts[..k]);
      StepInv(Run(Init(maxDepth, pids), acts[..k]), acts[k]);
    }
  }

  /** The two token equations, after every step of every run. */
  lemma TokensAreConserved(maxDepth: nat, pids: set<nat>, acts: seq<Action>)
    ensures var s := Run(Init(maxDepth, pids), acts);
            && s.enq + Number(s.procs, HasSlot) + s.linked + Number(s.procs, HasUnlinked) +
               Number(s.procs, HasUncounted) == maxDepth
            && s.linked + s.prods == s.deq + Number(s.procs, HasToken) + Number(s.procs, HasLinked) +
               Number(s.procs, HasCounted)
  {
    RunInv(maxDepth, pids, acts);
  }

  /** The advertised depth never exceeds the maximum, and is negative only if shr_q_prod has been called. */
  lemma CountStaysInBounds(maxDepth: nat, pids: set<nat>, acts: seq<Action>)
    ensures var s := Run(Init(maxDepth, pids), acts); -s.prods <= s.count <= maxDepth && 0 <= s.linked <= maxDepth
  {
    RunInv(maxDepth, pids, acts);
    hide Number;
  }

  /** Without shr_q_prod, a process past the deq gate always has an item to take. */
  lemma TokenMeansItem(maxDepth: nat, pids: set<nat>, acts: seq<Action>, p: nat)
    requires var s := Run(Init(maxDepth, pids), acts); s.prods == 0 && p in s.procs && s.procs[p] == HasToken
    ensures Run(Init(maxDepth, pids), acts).linked > 0
  {
    RunInv(maxDepth, pids, acts);
    var s := Run(Init(maxDepth, pids), acts);
    assert p in Those(s.procs, HasToken);
  }

  /**
   * When no operation is under way, the three counters agree with the number of
   * items; an add then passes its gate exactly if there is a free place, and a
   * remove exactly if there is an item, or a call of shr_q_prod to answer.
   */
  lemma QuietQueueAgrees(maxDepth: nat, pids: set<nat>, acts: seq<Action>)
    requires var s := Run(Init(maxDepth, pids), acts); forall p :: p in s.procs ==> s.procs[p] == Idle
    ensures var s := Run(Init(maxDepth, pids), acts);
            s.count == s.linked && s.deq == s.linked + s.prods && s.enq == maxDepth - s.linked
    ensures var s := Run(Init(maxDepth, pids), acts);
            forall p :: p in s.procs ==>
              && (Step(s, EnqGate(p)).procs[p] == (if s.linked < maxDepth then HasSlot else Idle))
              && (Step(s, DeqGate(p)).procs[p] == (if s.linked + s.prods > 0 then HasToken else Idle))
  {
    RunInv(maxDepth, pids, acts);
    var s := Run(Init(maxDepth, pids), acts);
    forall c | c != Idle ensures Number(s.procs, c) == 0 {
      assert Those(s.procs, c) == {};
    }
  }

  lemma Extend(s: State, acts: seq<Action>, a: Action)
    ensures Run(s, acts + [a]) == Step(Run(s, acts), a)
  {
    assert (acts + [a])[..|acts|] == acts;
  }

  ghost predicate Reachable(maxDepth: nat, pids: set<nat>, s: State) {
    exists acts :: Run(Init(maxDepth, pids), acts) == s
  }

  lemma Reach(maxDepth: nat, pids: set<nat>, s: State, a: Action)
    requires Reachable(maxDepth, pids, s)
    ensures Reachable(maxDepth, pids, Step(s, a))
  {
    var acts :| Run(Init(maxDepth, pids), acts) == s;
    Extend(Init(maxDepth, pids), acts, a);
  }

  predicate InRange(i: nat, k: nat) {
    i <= k
  }

  ghost function UpTo(k: nat): set<nat> {
    set i: nat | i <= k && InRange(i, k)
  }

  /** Processes 1 to k have linked an item and not counted it; process 0 has taken them all. */
  ghost predicate Parked(s: State, depth: nat, k: nat, n: nat) {
    && s.enq == depth && s.deq == 0 && s.linked == 0 && s.prods == k && s.count + k == 0
    && s.procs.Keys == UpTo(n)
    && forall i :: i in s.procs ==> s.procs[i] == if 1 <= i <= k then HasLinked else Idle
  }

  /** One more adder links an item and stops; process 0 calls shr_q_prod and takes the item. */
  lemma ParkOne(depth: nat, n: nat, s: State, k: nat) returns (s': State)
    requires depth > 0 && k < n && Reachable(depth, UpTo(n), s) && Parked(s, depth, k, n)
    ensures Reachable(depth, UpTo(n), s') && Parked(s', depth, k + 1, n)
  {
    hide Reachable;
    var i := k + 1;
    Reach(depth, UpTo(n), s, EnqGate(i));
    var s1 := Step(s, EnqGate(i));
    Reach(depth, UpTo(n), s1, Exec(i));
    var s2 := Step(s1, Exec(i));
    Reach(depth, UpTo(n), s2, Prod(0));
    var s3 := Step(s2, Prod(0));
    Reach(depth, UpTo(n), s3, DeqGate(0));
    var s4 := Step(s3, DeqGate(0));
    Reach(depth, UpTo(n), s4, Exec(0));
    var s5 := Step(s4, Exec(0));
    Reach(depth, UpTo(n), s5, Exec(0));
    var s6 := Step(s5, Exec(0));
    Reach(depth, UpTo(n), s6, Exec(0));
    s' := Step(s6, Exec(0));
    assert s4.procs == s.procs[i := HasLinked][0 := HasToken];
    assert s'.procs == s.procs[i := HasLinked][0 := Idle];
  }

  lemma {:induction false} ParkMany(depth: nat, n: nat, k: nat) returns (s: State)
    requires depth > 0 && k <= n
    ensures Reachable(depth, UpTo(n), s) && Parked(s, depth, k, n)
  {
    if k == 0 {
      s := Init(depth, UpTo(n));
      assert Run(s, []) == s;
    } else {
      s := ParkMany(depth, n, k - 1);
      hide Reachable, Parked;
      s := ParkOne(depth, n, s, k - 1);
    }
  }

  /**
   * The bound with shr_q_prod is attained for every number of calls: after k of
   * them COUNT can read -k, because a remover can take an item whose adder has
   * not counted it yet.
   */
  lemma ProdCanMakeCountNegative(maxDepth: nat, k: nat) returns (acts: seq<Action>)
    requires maxDepth > 0
    ensures var s := Run(Init(maxDepth, UpTo(k)), acts); s.prods == k && s.count + k == 0
  {
    var s := ParkMany(maxDepth, k, k);
    acts :| Run(Init(maxDepth, UpTo(k)), acts) == s;
  }

  /** COUNT never falls below -k in the runs with at most k calls of shr_q_prod, and below no higher bound. */
  lemma LeastCount(maxDepth: nat, k: nat, bound: int)
    requires maxDepth > 0
    ensures (forall pids, acts :: Run(Init(maxDepth, pids), acts).prods <= k ==>
              Run(Init(maxDepth, pids), acts).count >= bound)
              <==> bound + k <= 0
  {
    hide Run, Init;
    if bound + k <= 0 {
      forall pids, acts | Run(Init(maxDepth, pids), acts).prods <= k
        ensures Run(Init(maxDepth, pids), acts).count >= bound {
        CountStaysInBounds(maxDepth, pids, acts);
      }
    } else {
      var acts := ProdCanMakeCountNegative(maxDepth, k);
    }
  }

  // ------------------------------------------------------------ progress

  /** `n` instructions of p, every other process standing still. */
  ghost function Solo(s: State, p: nat, n: nat): State {
    if n == 0 then s else Step(Solo(s, p, n - 1), Exec(p))
  }

  /** The instructions that are left of an add, or of a remove. */
  ghost function Left(c: Proc): nat {
    match c
    case Idle => 0
    case HasSlot => 3
    case HasLinked => 2
    case HasCounted => 1
    case HasToken => 3
    case HasUnlinked => 2
    case HasUncounted => 1
  }

  function Bit(b: bool): int {
    if b then 1 else 0
  }

  /**
   * From any instruction, an add finishes alone: what is left of it is done, each
   * part once; and if it finds no memory, its place is free again.
   */
  lemma {:induction false} AddFinishesAlone(s: State, p: nat)
    requires p in s.procs && (s.procs[p] == HasSlot || s.procs[p] == HasLinked || s.procs[p] == HasCounted)
    ensures var c, e := s.procs[p], Solo(s, p, Left(s.procs[p]));
            && e.linked == s.linked + Bit(c == HasSlot) && e.count == s.count + Bit(c != HasCounted)
            && e.deq == s.deq + 1 && e.enq == s.enq && e.prods == s.prods && e.procs == s.procs[p := Idle]
    ensures s.procs[p] == HasSlot ==> Step(s, AddFails(p)) == s.(enq := s.enq + 1, procs := s.procs[p := Idle])
    decreases Left(s.procs[p])
  {
    SoloFirst(s, p, Left(s.procs[p]) - 1);
    if s.procs[p] == HasCounted {
      assert Solo(Step(s, Exec(p)), p, 0) == Step(s, Exec(p));
    } else {
      AddFinishesAlone(Step(s, Exec(p)), p);
    }
  }

  lemma {:induction false} SoloFirst(s: State, p: nat, n: nat)
    ensures Solo(s, p, n + 1) == Solo(Step(s, Exec(p)), p, n)
  {
    hide Step;
    if n == 0 {
      assert Solo(s, p, 0) == s && Solo(Step(s, Exec(p)), p, 0) == Step(s, Exec(p));
    } else {
      SoloFirst(s, p, n - 1);
    }
  }

  /** So does a remove or a clean that has taken an item. */
  lemma {:induction false} TakerFinishesAlone(s: State, p: nat)
    requires p in s.procs && (s.procs[p] == HasUnlinked || s.procs[p] == HasUncounted)
    ensures var e := Solo(s, p, Left(s.procs[p]));
            && e.linked == s.linked && e.count == s.count - Bit(s.procs[p] == HasUnlinked) && e.enq == s.enq + 1
            && e.deq == s.deq && e.prods == s.prods && e.procs == s.procs[p := Idle]
    decreases Left(s.procs[p])
  {
    SoloFirst(s, p, Left(s.procs[p]) - 1);
    if s.procs[p] == HasUncounted {
      assert Solo(Step(s, Exec(p)), p, 0) == Step(s, Exec(p));
    } else {
      TakerFinishesAlone(Step(s, Exec(p)), p);
    }
  }

  lemma {:induction false} NothingToTake(s: State, p: nat, n: nat)
    requires p in s.procs && s.procs[p] == HasToken && s.linked <= 0
    ensures Solo(s, p, n) == s
  {
    if n > 0 {
      NothingToTake(s, p, n - 1);
    }
  }

  /**
   * Behind the deq gate a remove or a clean finishes alone exactly if there is
   * an item, which there always is without shr_q_prod; else it waits, and can
   * only give its token back.
   */
  lemma RemoveFinishesAlone(s: State, p: nat, n: nat)
    requires p in s.procs && s.procs[p] == HasToken
    ensures s.linked <= 0 ==> Solo(s, p, n) == s && Step(s, GiveBack(p)).deq == s.deq + 1
                              && Step(s, GiveBack(p)).procs == s.procs[p := Idle]
    ensures s.linked > 0 ==>
              var e := Solo(s, p, 3);
              && e.linked == s.linked - 1 && e.count == s.count - 1 && e.enq == s.enq + 1
              && e.deq == s.deq && e.prods == s.prods && e.procs == s.procs[p := Idle]
  {
    if s.linked <= 0 {
      NothingToTake(s, p, n);
    } else {
      SoloFirst(s, p, 2);
      TakerFinishesAlone(Step(s, Exec(p)), p);
    }
  }
}
