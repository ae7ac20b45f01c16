/**
 * Every operation on an Image keeps the heap in order, and does to the queue
 * what its name says.
 */
module ImageProof {
  import opened Layout
  import opened Image
  import opened ImageOps
  import opened ImageFrame

  // ------------------------------------------------------------ add_end

  /** The caller holds the node, and for an item also the data block the node names. */
  ghost predicate CanAdd(q: Image, l: ListId, n: int) {
    && n in q.place && q.place[n] == Held && Len(q, n) == NODE_SIZE
    && (l == Items ==> DataHeld(q, n))
  }

  ghost predicate DataHeld(q: Image, n: int) {
    var d := W(q, n, VALUE_OFFSET);
    d != n && d in q.place && q.place[d] == Held && HeaderOk(q, d)
  }

  ghost function AddPlaces(q: Image, l: ListId, n: int): set<int> {
    if l == Items then {n, W(q, n, VALUE_OFFSET)} else {n}
  }

  /** The tail node of a list. */
  lemma LastNode(q: Image, l: ListId)
    requires ListOk(q, l)
    ensures var c := Get(q, l); var last := H(q, TailSlot(l));
            c.log != [] && last == c.log[|c.log| - 1] && Len(q, last) == NODE_SIZE && last in q.place &&
                q.place[last] == OnList(l, |c.log| - 1)
  {
  }

  /** What add_end does, word by word. */
  ghost predicate Adds(q: Image, q': Image, l: ListId, n: int) {
    var gen, last := H(q, ID_CNTR), H(q, TailSlot(l));
    && n != last
    && q'.blk.Keys == q.blk.Keys && |q'.h| == |q.h|
    && (forall b :: Len(q', b) == Len(q, b))
    && (forall b, j :: j >= 2 ==> W(q', b, j) == W(q, b, j))
    && (forall b :: b != n && b != last ==> W(q', b, 0) == W(q, b, 0) && W(q', b, 1) == W(q, b, 1))
    && W(q', n, 0) == n && W(q', n, 1) == gen && W(q', last, 0) == n && W(q', last, 1) == gen
    && (forall x :: H(q', x) == if x == ID_CNTR then gen + 1 else if x == TailSlot(l) then n
       else if x == TailSlot(l) + 1 then gen else H(q, x))
    && Get(q', l) == Get(q, l).(log := Get(q, l).log + [n])
    && (forall m :: m != l ==> Get(q', m) == Get(q, m))
    && q'.stacks == q.stacks
    && q'.place == if l == Items then q.place[n := OnList(l, |Get(q, l).log|)][W(q, n, VALUE_OFFSET) := Attached(n)]
                   else q.place[n := OnList(l, |Get(q, l).log|)]
  }

  /** The stores of add_end, without the history. */
  function AddStores(q: Image, l: ListId, n: int): Image {
    var gen, last := H(q, ID_CNTR), H(q, TailSlot(l));
    PutHPair(PutPair(PutPair(PutH(q, ID_CNTR, gen + 1), n, n, gen), last, n, gen), TailSlot(l), n, gen)
  }

  lemma AddStoresEffect(q: Image, l: ListId, n: int)
    requires n != H(q, TailSlot(l)) && Len(q, n) >= 2 && Len(q, H(q, TailSlot(l))) >= 2 && |q.h| == HDR_END
    ensures var gen, last, q' := H(q, ID_CNTR), H(q, TailSlot(l)), AddStores(q, l, n);
            && q' == q.(h := q'.h, blk := q'.blk)
            && q'.blk.Keys == q.blk.Keys && |q'.h| == |q.h|
            && (forall b :: Len(q', b) == Len(q, b))
            && (forall b, j :: j >= 2 ==> W(q', b, j) == W(q, b, j))
            && (forall b :: b != n && b != last ==> W(q', b, 0) == W(q, b, 0) && W(q', b, 1) == W(q, b, 1))
            && W(q', n, 0) == n && W(q', n, 1) == gen && W(q', last, 0) == n && W(q', last, 1) == gen
            && (forall x :: H(q', x) == if x == ID_CNTR then gen + 1 else if x == TailSlot(l) then n
               else if x == TailSlot(l) + 1 then gen else H(q, x))
  {
    hide PutPair, PutHPair, PutH, W, H, Len;
    var gen, last := H(q, ID_CNTR), H(q, TailSlot(l));
    SlotsDiffer(l, l, Lifo);
    assert Plain(ID_CNTR);
    var q0 := PutH(q, ID_CNTR, gen + 1);
    PutHEffect(q, ID_CNTR, gen + 1);
    SameBlocks(q, q0);
    PutPairEffect(q0, n, n, gen);
    var q1 := PutPair(q0, n, n, gen);
    PutPairEffect(q1, last, n, gen);
    var q2 := PutPair(q1, last, n, gen);
    SameHeader(q0, q1);
    SameHeader(q1, q2);
    PutHPairEffect(q2, TailSlot(l), n, gen);
    SameBlocks(q2, AddStores(q, l, n));
  }

  lemma SameBlocks(q: Image, q': Image)
    requires q'.blk == q.blk
    ensures (forall b, j :: W(q', b, j) == W(q, b, j)) && (forall b :: Len(q', b) == Len(q, b))
  {
  }

  lemma SameHeader(q: Image, q': Image)
    requires q'.h == q.h
    ensures forall x :: H(q', x) == H(q, x)
  {
  }

  lemma AddEndAdds(q: Image, l: ListId, n: int)
    requires n != H(q, TailSlot(l)) && Len(q, n) >= 2 && Len(q, H(q, TailSlot(l))) >= 2 && |q.h| == HDR_END
    ensures Adds(q, AddEnd(q, l, n), l, n)
  {
    hide W, H, Len, PutPair, PutHPair, PutH;
    AddStoresEffect(q, l, n);
    SameBlocks(AddStores(q, l, n), AddEnd(q, l, n));
    SameHeader(AddStores(q, l, n), AddEnd(q, l, n));
  }

  lemma AddsTouches(q: Image, q': Image, l: ListId, n: int)
    requires Adds(q, q', l, n) && CanAdd(q, l, n)
    ensures Touches(q, q', {n, H(q, TailSlot(l))}, AddPlaces(q, l, n), {ID_CNTR, TailSlot(l), TailSlot(l) + 1})
  {
    hide W, H, Len, HeaderOk;
  }

  lemma AddsList(q: Image, q': Image, l: ListId, n: int)
    requires ListOk(q, l) && CanAdd(q, l, n) && Adds(q, q', l, n)
    ensures ListOk(q', l)
  {
    var c, c' := Get(q, l), Get(q', l);
    SlotsDiffer(l, l, Lifo);
    assert Plain(ID_CNTR);
    LastNode(q, l);
    hide W, H, Len, HeaderOk;
    forall i | c.front <= i < |c.log| ensures c'.log[i] == c.log[i] && q'.place[c.log[i]] == OnList(l, i) &&
        (i < |c.log| - 1 ==> c.log[i] != n && c.log[i] != H(q, TailSlot(l))) {
      assert q.place[c.log[i]] == OnList(l, i);
    }
    forall i, j | c'.front <= i && j == i + 1 && j < |c'.log| ensures W(q', c'.log[i], 0) == c'.log[j] {
      if j < |c.log| {
        assert W(q, c.log[i], 0) == c.log[j];
      }
    }
  }

  lemma AddsQueued(q: Image, q': Image, l: ListId, n: int, m: int)
    requires PlacesOk(q) && CanAdd(q, l, n) && Adds(q, q', l, n) && ListOk(q, l)
    ensures Queued(q', m) <==> Queued(q, m) || (l == Items && m == n)
  {
    hide W, H, Len, HeaderOk;
  }

  lemma AddsPlace(q: Image, q': Image, l: ListId, n: int, b: int)
    requires PlacesOk(q) && CanAdd(q, l, n) && Adds(q, q', l, n) && ListOk(q, l) && PlaceOk(q, b)
    ensures PlaceOk(q', b)
  {
    AddsQueued(q, q', l, n, n);
    if q.place[b].Attached? {
      AddsQueued(q, q', l, n, q.place[b].node);
    }
    hide W, H, Len, HeaderOk, Queued, PlacesOk, ListOk;
  }

  lemma AddsData(q: Image, q': Image, l: ListId, n: int, m: int)
    requires PlacesOk(q) && CanAdd(q, l, n) && Adds(q, q', l, n) && ListOk(q, l) && Queued(q', m)
    ensures DataOk(q', m)
  {
    LastNode(q, l);
    AddsQueued(q, q', l, n, m);
    AddsTouches(q, q', l, n);
    hide W, H, Len, HeaderOk, ListOk;
    var xs, ps, ys := {n, H(q, TailSlot(l))}, AddPlaces(q, l, n), {ID_CNTR, TailSlot(l), TailSlot(l) + 1};
    if Queued(q, m) {
      assert DataOk(q, m);
      DataKept(q, q', m, xs, ps, ys);
    } else {
      HeaderKept(q, q', W(q, n, VALUE_OFFSET), xs, ps, ys);
    }
  }

  lemma AddsPlaces(q: Image, q': Image, l: ListId, n: int)
    requires PlacesOk(q) && CanAdd(q, l, n) && Adds(q, q', l, n) && ListOk(q, l)
    ensures PlacesOk(q')
  {
    forall b | b in q'.place ensures PlaceOk(q', b) {
      hide PlaceOk, Queued, DataOk, ListOk, HeaderOk;
      assert PlaceOk(q, b);
      AddsPlace(q, q', l, n, b);
    }
    forall m | Queued(q', m) ensures DataOk(q', m) {
      hide *;
      AddsData(q, q', l, n, m);
    }
  }

  /** Lists and stacks that a step does not name. */
  lemma OthersKept(q: Image, q': Image, xs: set<int>, ps: set<int>, ys: set<int>, l: ListId)
    requires ListsOk(q) && StacksOk(q) && Touches(q, q', xs, ps, ys)
    requires forall m :: m != l ==>
               Get(q', m) == Get(q, m) && HeadSlot(m) !in ys && TailSlot(m) !in ys && TailSlot(m) + 1 !in ys
    requires q'.stacks == q.stacks && forall k :: ValidId(k) ==> TopSlot(k) !in ys
    requires forall b :: (b in xs || b in ps) && b in q.place ==>
               !q.place[b].OnStack? && (q.place[b].OnList? ==> q.place[b].l == l)
    requires ListOk(q', l)
    ensures ListsOk(q') && StacksOk(q')
  {
    forall m ensures ListOk(q', m) {
      hide ListOk;
      if m != l {
        assert ListOk(q, m);
        ListKept(q, q', m, xs, ps, ys);
      }
    }
    forall k | ValidId(k) ensures StackOk(q', k) {
      hide StackOk;
      assert StackOk(q, k);
      StackKept(q, q', k, xs, ps, ys);
    }
  }

  lemma AddsOthers(q: Image, q': Image, l: ListId, n: int)
    requires ListsOk(q) && StacksOk(q) && CanAdd(q, l, n) && Adds(q, q', l, n) && ListOk(q, l) && ListOk(q', l)
    ensures ListsOk(q') && StacksOk(q')
  {
    hide W, H, Len, Touches, ListOk, StackOk, HeaderOk, StacksOk, ListsOk;
    LastNode(q, l);
    AddsTouches(q, q', l, n);
    AddSlots(l);
    OthersKept(q, q', {n, H(q, TailSlot(l))}, AddPlaces(q, l, n), {ID_CNTR, TailSlot(l), TailSlot(l) + 1}, l);
  }

  lemma AddEndOk(q: Image, l: ListId, n: int)
    requires Ok(q) && CanAdd(q, l, n)
    ensures Ok(AddEnd(q, l, n)) && Adds(q, AddEnd(q, l, n), l, n)
  {
    var q' := AddEnd(q, l, n);
    assert ListOk(q, l) && |q.h| == HDR_END;
    LastNode(q, l);
    hide AddEnd, Adds, ListOk, ListsOk, StacksOk, PlacesOk, Tiled, Touches;
    AddEndAdds(q, l, n);
    AddsList(q, q', l, n);
    AddsPlaces(q, q', l, n);
    AddsTouches(q, q', l, n);
    AddSlots(l);
    TiledKept(q, q', {n, H(q, TailSlot(l))}, AddPlaces(q, l, n), {ID_CNTR, TailSlot(l), TailSlot(l) + 1});
    AddsOthers(q, q', l, n);
  }

  lemma AddSlots(l: ListId)
    ensures var ys := {ID_CNTR, TailSlot(l), TailSlot(l) + 1};
            && DATA_ALLOC !in ys
            && (forall m :: m != l ==> HeadSlot(m) !in ys && TailSlot(m) !in ys && TailSlot(m) + 1 !in ys)
            && (forall k :: ValidId(k) ==> TopSlot(k) !in ys)
  {
    SlotsDiffer(l, l, Lifo);
    assert Plain(DATA_ALLOC) && Plain(ID_CNTR);
    forall m | m != l ensures HeadSlot(m) !in {ID_CNTR, TailSlot(l), TailSlot(l) + 1} &&
        TailSlot(m) !in {ID_CNTR, TailSlot(l), TailSlot(l) + 1} &&
        TailSlot(m) + 1 !in {ID_CNTR, TailSlot(l), TailSlot(l) + 1} {
      SlotsDiffer(m, l, Lifo);
      SlotsDiffer(l, m, Lifo);
    }
    forall k | ValidId(k) ensures TopSlot(k) !in {ID_CNTR, TailSlot(l), TailSlot(l) + 1} {
      SlotsDiffer(l, l, k);
    }
  }

  // ------------------------------------------------------------ remove_front

  ghost function RemPlaces(q: Image, l: ListId): set<int> {
    var ref := H(q, HeadSlot(l));
    if l == Items then {ref, W(q, W(q, ref, 0), VALUE_OFFSET)} else {ref}
  }

  ghost predicate Removes(q: Image, q': Image, l: ListId) {
    var ref := H(q, HeadSlot(l));
    var next := W(q, ref, 0);
    && q'.blk.Keys == q.blk.Keys && |q'.h| == |q.h|
    && (forall b :: Len(q', b) == Len(q, b))
    && (forall b, j :: j >= 2 ==> W(q', b, j) == W(q, b, j))
    && (forall b :: b != ref ==> W(q', b, 0) == W(q, b, 0) && W(q', b, 1) == W(q, b, 1))
    && W(q', ref, 0) == 0 && W(q', ref, 1) == 0
    && (forall x :: H(q', x) == if x == HeadSlot(l) then next else if x == HeadSlot(l) + 1 then H(q, x) + 1
       else H(q, x))
    && Get(q', l) == Get(q, l).(front := Get(q, l).front + 1)
    && (forall m :: m != l ==> Get(q', m) == Get(q, m))
    && q'.stacks == q.stacks
    && q'.place == if l == Items then q.place[ref := Held][W(q, next, VALUE_OFFSET) := Held] else q.place[ref := Held]
  }

  /** The dummy and the node behind it. */
  lemma FrontNodes(q: Image, l: ListId)
    requires ListOk(q, l) && !Empty(q, l)
    ensures var c, ref := Get(q, l), H(q, HeadSlot(l)); var next := W(q, ref, 0);
            && c.front + 1 < |c.log| && ref == c.log[c.front] && next == c.log[c.front + 1] && ref != next
            && Len(q, ref) == NODE_SIZE && ref in q.place && q.place[ref] == OnList(l, c.front)
            && Len(q, next) == NODE_SIZE && next in q.place && q.place[next] == OnList(l, c.front + 1)
  {
    var c := Get(q, l);
    assert W(q, c.log[c.front], 0) == c.log[c.front + 1];
  }

  lemma RemoveFrontRemoves(q: Image, l: ListId)
    requires Len(q, H(q, HeadSlot(l))) >= 2 && |q.h| == HDR_END
    ensures Removes(q, RemoveFront(q, l), l)
  {
    hide PutPair, PutHPair, W, H, Len;
    var ref := H(q, HeadSlot(l));
    var next := W(q, ref, 0);
    SlotsDiffer(l, l, Lifo);
    var q0 := PutHPair(q, HeadSlot(l), next, H(q, HeadSlot(l) + 1) + 1);
    PutHPairEffect(q, HeadSlot(l), next, H(q, HeadSlot(l) + 1) + 1);
    SameBlocks(q, q0);
    PutPairEffect(q0, ref, 0, 0);
    var q1 := PutPair(q0, ref, 0, 0);
    SameHeader(q0, q1);
    SameBlocks(q1, RemoveFront(q, l));
    SameHeader(q1, RemoveFront(q, l));
  }

  /** In the item list, the node behind the dummy is queued. */
  lemma FrontData(q: Image)
    requires ListOk(q, Items) && !Empty(q, Items) && PlacesOk(q)
    ensures var ref := H(q, HEAD); var next := W(q, ref, 0); var d := W(q, next, VALUE_OFFSET);
            && Queued(q, next) && DataOk(q, next) && d in q.place && q.place[d] == Attached(next) && HeaderOk(q, d)
            && d != ref && d != next
  {
    FrontNodes(q, Items);
    assert Queued(q, W(q, H(q, HEAD), 0));
  }

  lemma RemovesTouches(q: Image, q': Image, l: ListId)
    requires Removes(q, q', l) && ListOk(q, l) && !Empty(q, l) && PlacesOk(q)
    ensures Touches(q, q', {H(q, HeadSlot(l))}, RemPlaces(q, l), {HeadSlot(l), HeadSlot(l) + 1})
  {
    FrontNodes(q, l);
    if l == Items {
      FrontData(q);
    }
    hide W, H, Len, HeaderOk, ListOk, PlacesOk;
  }

  lemma RemovesList(q: Image, q': Image, l: ListId)
    requires Removes(q, q', l) && ListOk(q, l) && !Empty(q, l) && PlacesOk(q)
    ensures ListOk(q', l)
  {
    var c, c' := Get(q, l), Get(q', l);
    FrontNodes(q, l);
    SlotsDiffer(l, l, Lifo);
    if l == Items {
      FrontData(q);
    }
    hide W, H, Len, HeaderOk, PlacesOk;
    forall i | c'.front <= i < |c.log| ensures q'.place[c.log[i]] == OnList(l, i) && c.log[i] != H(q, HeadSlot(l)) {
      assert q.place[c.log[i]] == OnList(l, i);
    }
    forall i, j | c'.front <= i && j == i + 1 && j < |c'.log| ensures W(q', c'.log[i], 0) == c'.log[j] {
      assert W(q, c.log[i], 0) == c.log[j];
    }
  }

  lemma RemovesQueued(q: Image, q': Image, l: ListId, m: int)
    requires PlacesOk(q) && Removes(q, q', l) && ListOk(q, l) && !Empty(q, l)
    ensures Queued(q', m) <==> Queued(q, m) && !(l == Items && m == W(q, H(q, HeadSlot(l)), 0))
  {
    FrontNodes(q, l);
    if l == Items {
      FrontData(q);
    }
    assert m in q.place ==> PlaceOk(q, m);
    hide W, H, Len, HeaderOk, PlacesOk, ListOk, DataOk;
  }

  lemma RemovesPlace(q: Image, q': Image, l: ListId, b: int)
    requires PlacesOk(q) && Removes(q, q', l) && ListOk(q, l) && !Empty(q, l) && PlaceOk(q, b)
    ensures PlaceOk(q', b)
  {
    FrontNodes(q, l);
    if l == Items {
      FrontData(q);
    }
    if q.place[b].Attached? {
      RemovesQueued(q, q', l, q.place[b].node);
    }
    hide W, H, Len, HeaderOk, Queued, PlacesOk, ListOk;
  }

  lemma RemovesData(q: Image, q': Image, l: ListId, m: int)
    requires PlacesOk(q) && Removes(q, q', l) && ListOk(q, l) && !Empty(q, l) && Queued(q', m)
    ensures DataOk(q', m)
  {
    FrontNodes(q, l);
    if l == Items {
      FrontData(q);
    }
    RemovesQueued(q, q', l, m);
    assert DataOk(q, m);
    RemovesTouches(q, q', l);
    hide W, H, Len, HeaderOk, ListOk, PlacesOk, Queued;
    DataKept(q, q', m, {H(q, HeadSlot(l))}, RemPlaces(q, l), {HeadSlot(l), HeadSlot(l) + 1});
  }

  lemma RemovesPlaces(q: Image, q': Image, l: ListId)
    requires PlacesOk(q) && Removes(q, q', l) && ListOk(q, l) && !Empty(q, l)
    ensures PlacesOk(q')
  {
    forall b | b in q'.place ensures PlaceOk(q', b) {
      RemovesTouches(q, q', l);
      hide PlaceOk, Queued, DataOk, ListOk, HeaderOk, Removes;
      assert PlaceOk(q, b);
      RemovesPlace(q, q', l, b);
    }
    forall m | Queued(q', m) ensures DataOk(q', m) {
      hide *;
      RemovesData(q, q', l, m);
    }
  }

  lemma RemSlots(l: ListId)
    ensures var ys := {HeadSlot(l), HeadSlot(l) + 1};
            && DATA_ALLOC !in ys
            && (forall m :: m != l ==> HeadSlot(m) !in ys && TailSlot(m) !in ys && TailSlot(m) + 1 !in ys)
            && (forall k :: ValidId(k) ==> TopSlot(k) !in ys)
  {
    SlotsDiffer(l, l, Lifo);
    assert Plain(DATA_ALLOC);
    forall m | m != l ensures HeadSlot(m) !in {HeadSlot(l), HeadSlot(l) + 1} &&
        TailSlot(m) !in {HeadSlot(l), HeadSlot(l) + 1} && TailSlot(m) + 1 !in {HeadSlot(l), HeadSlot(l) + 1} {
      SlotsDiffer(m, l, Lifo);
      SlotsDiffer(l, m, Lifo);
    }
    forall k | ValidId(k) ensures TopSlot(k) !in {HeadSlot(l), HeadSlot(l) + 1} {
      SlotsDiffer(l, l, k);
    }
  }

  lemma RemovesOthers(q: Image, q': Image, l: ListId)
    requires ListsOk(q) && StacksOk(q) && PlacesOk(q) && Removes(q, q', l) && ListOk(q, l) && !Empty(q, l)
    requires ListOk(q', l)
    ensures ListsOk(q') && StacksOk(q')
  {
    hide W, H, Len, Touches, ListOk, StackOk, HeaderOk, StacksOk, ListsOk, PlacesOk;
    FrontNodes(q, l);
    if l == Items {
      FrontData(q);
    }
    RemovesTouches(q, q', l);
    RemSlots(l);
    OthersKept(q, q', {H(q, HeadSlot(l))}, RemPlaces(q, l), {HeadSlot(l), HeadSlot(l) + 1}, l);
  }

  lemma RemoveFrontOk(q: Image, l: ListId)
    requires Ok(q) && !Empty(q, l)
    ensures Ok(RemoveFront(q, l)) && Removes(q, RemoveFront(q, l), l)
  {
    var q' := RemoveFront(q, l);
    assert ListOk(q, l) && |q.h| == HDR_END;
    FrontNodes(q, l);
    hide RemoveFront, Removes, ListOk, ListsOk, StacksOk, PlacesOk, Tiled, Touches;
    RemoveFrontRemoves(q, l);
    RemovesList(q, q', l);
    RemovesPlaces(q, q', l);
    RemovesTouches(q, q', l);
    RemSlots(l);
    TiledKept(q, q', {H(q, HeadSlot(l))}, RemPlaces(q, l), {HeadSlot(l), HeadSlot(l) + 1});
    RemovesOthers(q, q', l);
  }
}
