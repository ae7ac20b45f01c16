/**
 * Pushes and pops keep the heap in order.
 */
module ImageStacks {
  import opened Layout
  import opened Image
  import opened ImageOps
  import opened ImageFrame
  import opened ImageProof

  // ------------------------------------------------------------ pushing

  ghost predicate CanPush(q: Image, k: StackId, b: int) {
    && ValidId(k) && b in q.place && q.place[b] == Held && Len(q, b) == BlockSize(k)
    && (k == Lifo ==> DataHeld(q, b))
  }

  ghost function PushPlaces(q: Image, k: StackId, b: int): set<int> {
    if k == Lifo then {b, W(q, b, VALUE_OFFSET)} else {b}
  }

  ghost predicate Pushes(q: Image, q': Image, k: StackId, b: int) {
    var top, cnt := H(q, TopSlot(k)), H(q, TopSlot(k) + 1);
    && q'.blk.Keys == q.blk.Keys && |q'.h| == |q.h|
    && (forall c :: Len(q', c) == Len(q, c))
    && (forall c, j :: j >= 2 ==> W(q', c, j) == W(q, c, j))
    && (forall c :: c != b ==> W(q', c, 0) == W(q, c, 0) && W(q', c, 1) == W(q, c, 1))
    && W(q', b, 0) == top
    && (forall x :: H(q', x) == if x == TopSlot(k) then b else if x == TopSlot(k) + 1 then cnt + 1 else H(q, x))
    && (forall m :: Get(q', m) == Get(q, m))
    && q'.stacks == q.stacks[k := Stack(q, k) + [b]]
    && q'.place == if k == Lifo then q.place[b := OnStack(k, |Stack(q, k)|)][W(q, b, VALUE_OFFSET) := Attached(b)]
                   else q.place[b := OnStack(k, |Stack(q, k)|)]
  }

  lemma PushPushes(q: Image, k: StackId, b: int)
    requires Len(q, b) >= 2 && |q.h| == HDR_END && ValidId(k)
    ensures Pushes(q, Push(q, k, b), k, b)
  {
    var top, cnt := H(q, TopSlot(k)), H(q, TopSlot(k) + 1);
    SlotsDiffer(Items, Items, k);
    PutPairEffect(q, b, top, cnt);
    var q1 := PutPair(q, b, top, cnt);
    SameHeader(q, q1);
    PutHPairEffect(q1, TopSlot(k), b, cnt + 1);
    var q2 := PutHPair(q1, TopSlot(k), b, cnt + 1);
    SameBlocks(q1, q2);
    SameBlocks(q2, Push(q, k, b));
    SameHeader(q2, Push(q, k, b));
    hide PutPair, PutHPair, W, H, Len;
  }

  lemma PushesTouches(q: Image, q': Image, k: StackId, b: int)
    requires Pushes(q, q', k, b) && CanPush(q, k, b)
    ensures Touches(q, q', {b}, PushPlaces(q, k, b), {TopSlot(k), TopSlot(k) + 1})
  {
    hide W, H, Len, HeaderOk;
  }

  lemma PushesStack(q: Image, q': Image, k: StackId, b: int)
    requires Pushes(q, q', k, b) && CanPush(q, k, b) && StackOk(q, k)
    ensures StackOk(q', k)
  {
    var c, c' := Stack(q, k), Stack(q', k);
    hide W, H, Len, HeaderOk;
    assert c' == c + [b];
    forall i | 0 <= i < |c| ensures c'[i] == c[i] && c[i] != b && q'.place[c[i]] == OnStack(k, i) {
      assert q.place[c[i]] == OnStack(k, i);
    }
    forall i, j | 0 <= i && j == i + 1 && j < |c'| ensures W(q', c'[j], 0) == c'[i] {
      if j < |c| {
        assert W(q, c[j], 0) == c[i];
      }
    }
  }

  lemma PushesQueued(q: Image, q': Image, k: StackId, b: int, m: int)
    requires PlacesOk(q) && CanPush(q, k, b) && Pushes(q, q', k, b)
    ensures Queued(q', m) <==> Queued(q, m) || (k == Lifo && m == b)
  {
    assert Get(q', Items) == Get(q, Items);
    hide W, H, Len, HeaderOk;
  }

  lemma PushesPlace(q: Image, q': Image, k: StackId, b: int, c: int)
    requires PlacesOk(q) && CanPush(q, k, b) && Pushes(q, q', k, b) && PlaceOk(q, c)
    ensures PlaceOk(q', c)
  {
    PushesQueued(q, q', k, b, b);
    if q.place[c].Attached? {
      PushesQueued(q, q', k, b, q.place[c].node);
    }
    hide W, H, Len, HeaderOk, Queued, PlacesOk;
  }

  lemma PushesData(q: Image, q': Image, k: StackId, b: int, m: int)
    requires PlacesOk(q) && CanPush(q, k, b) && Pushes(q, q', k, b) && Queued(q', m)
    ensures DataOk(q', m)
  {
    PushesQueued(q, q', k, b, m);
    PushesTouches(q, q', k, b);
    hide W, H, Len, HeaderOk;
    if Queued(q, m) {
      assert DataOk(q, m);
      DataKept(q, q', m, {b}, PushPlaces(q, k, b), {TopSlot(k), TopSlot(k) + 1});
    } else {
      HeaderKept(q, q', W(q, b, VALUE_OFFSET), {b}, PushPlaces(q, k, b), {TopSlot(k), TopSlot(k) + 1});
    }
  }

  lemma PushesPlaces(q: Image, q': Image, k: StackId, b: int)
    requires PlacesOk(q) && CanPush(q, k, b) && Pushes(q, q', k, b)
    ensures PlacesOk(q')
  {
    forall c | c in q'.place ensures PlaceOk(q', c) {
      PushesTouches(q, q', k, b);
      hide PlaceOk, Queued, DataOk, HeaderOk, Pushes;
      assert PlaceOk(q, c);
      PushesPlace(q, q', k, b, c);
    }
    forall m | Queued(q', m) ensures DataOk(q', m) {
      hide *;
      PushesData(q, q', k, b, m);
    }
  }

  lemma TopSlots(k: StackId)
    requires ValidId(k)
    ensures var ys := {TopSlot(k), TopSlot(k) + 1};
            && DATA_ALLOC !in ys
            && (forall m :: HeadSlot(m) !in ys && TailSlot(m) !in ys && TailSlot(m) + 1 !in ys)
            && (forall j :: ValidId(j) && j != k ==> TopSlot(j) !in ys)
  {
    SlotsDiffer(Items, Items, k);
    assert Plain(DATA_ALLOC);
    forall m ensures HeadSlot(m) !in {TopSlot(k), TopSlot(k) + 1} && TailSlot(m) !in {TopSlot(k), TopSlot(k) + 1} &&
        TailSlot(m) + 1 !in {TopSlot(k), TopSlot(k) + 1} {
      SlotsDiffer(m, m, k);
    }
    forall j | ValidId(j) && j != k ensures TopSlot(j) !in {TopSlot(k), TopSlot(k) + 1} {
      TopsDiffer(j, k);
      TopsDiffer(k, j);
    }
  }

  /** Lists, and stacks other than the one a step names. */
  lemma OtherStacksKept(q: Image, q': Image, xs: set<int>, ps: set<int>, k: StackId)
    requires ListsOk(q) && StacksOk(q) && Touches(q, q', xs, ps, {TopSlot(k), TopSlot(k) + 1}) && ValidId(k)
    requires (forall m :: Get(q', m) == Get(q, m)) && (forall j :: j != k ==> Stack(q', j) == Stack(q, j))
    requires forall b :: (b in xs || b in ps) && b in q.place ==>
               !q.place[b].OnList? && (q.place[b].OnStack? ==> q.place[b].k == k)
    requires StackOk(q', k)
    ensures ListsOk(q') && StacksOk(q')
  {
    TopSlots(k);
    forall m ensures ListOk(q', m) {
      hide ListOk, Touches;
      assert ListOk(q, m);
      ListKept(q, q', m, xs, ps, {TopSlot(k), TopSlot(k) + 1});
    }
    forall j | ValidId(j) ensures StackOk(q', j) {
      hide StackOk, Touches;
      if j != k {
        assert StackOk(q, j);
        StackKept(q, q', j, xs, ps, {TopSlot(k), TopSlot(k) + 1});
      }
    }
  }

  lemma PushesOthers(q: Image, q': Image, k: StackId, b: int)
    requires ListsOk(q) && StacksOk(q) && Pushes(q, q', k, b) && CanPush(q, k, b) && StackOk(q', k)
    ensures ListsOk(q') && StacksOk(q')
  {
    PushesTouches(q, q', k, b);
    hide W, H, Len, Touches, ListOk, StackOk, HeaderOk, StacksOk, ListsOk;
    OtherStacksKept(q, q', {b}, PushPlaces(q, k, b), k);
  }

  lemma PushOk(q: Image, k: StackId, b: int)
    requires Ok(q) && CanPush(q, k, b)
    ensures Ok(Push(q, k, b)) && Pushes(q, Push(q, k, b), k, b)
  {
    var q' := Push(q, k, b);
    assert StackOk(q, k) && |q.h| == HDR_END && Len(q, b) >= 2;
    hide Push, Pushes, StackOk, ListsOk, StacksOk, PlacesOk, Tiled, Touches;
    PushPushes(q, k, b);
    PushesStack(q, q', k, b);
    PushesPlaces(q, q', k, b);
    PushesTouches(q, q', k, b);
    TopSlots(k);
    TiledKept(q, q', {b}, PushPlaces(q, k, b), {TopSlot(k), TopSlot(k) + 1});
    PushesOthers(q, q', k, b);
  }

  // ------------------------------------------------------------ popping

  ghost function PopPlaces(q: Image, k: StackId): set<int> {
    var top := H(q, TopSlot(k));
    if k == Lifo then {top, W(q, top, VALUE_OFFSET)} else {top}
  }

  ghost predicate Pops(q: Image, q': Image, k: StackId) {
    var top, s := H(q, TopSlot(k)), Stack(q, k);
    && s != [] && top == s[|s| - 1]
    && q'.blk == q.blk && |q'.h| == |q.h|
    && (forall x :: H(q', x) == if x == TopSlot(k) then W(q, top, 0) else if x == TopSlot(k) + 1 then H(q, x) + 1
       else H(q, x))
    && (forall m :: Get(q', m) == Get(q, m))
    && q'.stacks == q.stacks[k := s[..|s| - 1]]
    && q'.place == if k == Lifo then q.place[top := Held][W(q, top, VALUE_OFFSET) := Held] else q.place[top := Held]
  }

  /** The topmost block of a stack. */
  lemma TopBlock(q: Image, k: StackId)
    requires StackOk(q, k) && Stack(q, k) != []
    ensures var s, top := Stack(q, k), H(q, TopSlot(k));
            && top == s[|s| - 1] && Len(q, top) == BlockSize(k) && top in q.place && q.place[top] == OnStack(k, |s| - 1)
            && W(q, top, 0) == if |s| == 1 then 0 else s[|s| - 2]
  {
    var s := Stack(q, k);
    if |s| > 1 {
      assert W(q, s[|s| - 1], 0) == s[|s| - 2];
    }
  }

  lemma TopData(q: Image)
    requires StackOk(q, Lifo) && Stack(q, Lifo) != [] && PlacesOk(q)
    ensures var top := H(q, STACK_HEAD); var d := W(q, top, VALUE_OFFSET);
            Queued(q, top) && DataOk(q, top) && d in q.place && q.place[d] == Attached(top) && HeaderOk(q, d) &&
              d != top
  {
    TopBlock(q, Lifo);
    assert Queued(q, H(q, STACK_HEAD));
  }

  lemma PopPops(q: Image, k: StackId)
    requires |q.h| == HDR_END && ValidId(k) && StackOk(q, k) && Stack(q, k) != []
    ensures Pops(q, Pop(q, k), k)
  {
    var top := H(q, TopSlot(k));
    SlotsDiffer(Items, Items, k);
    TopBlock(q, k);
    PutHPairEffect(q, TopSlot(k), W(q, top, 0), H(q, TopSlot(k) + 1) + 1);
    var q1 := PutHPair(q, TopSlot(k), W(q, top, 0), H(q, TopSlot(k) + 1) + 1);
    SameHeader(q1, Pop(q, k));
    hide PutHPair, W, H, Len, StackOk;
  }

  lemma PopsTouches(q: Image, q': Image, k: StackId)
    requires Pops(q, q', k) && StackOk(q, k) && PlacesOk(q)
    ensures Touches(q, q', {}, PopPlaces(q, k), {TopSlot(k), TopSlot(k) + 1})
  {
    TopBlock(q, k);
    if k == Lifo {
      TopData(q);
    }
    SameBlocks(q, q');
    hide W, H, Len, HeaderOk, StackOk, PlacesOk;
  }

  lemma PopsStack(q: Image, q': Image, k: StackId)
    requires Pops(q, q', k) && StackOk(q, k) && PlacesOk(q)
    ensures StackOk(q', k)
  {
    var c, c' := Stack(q, k), Stack(q', k);
    TopBlock(q, k);
    if k == Lifo {
      TopData(q);
    }
    SameBlocks(q, q');
    hide W, H, Len, HeaderOk, PlacesOk;
    forall i | 0 <= i < |c'| ensures c'[i] == c[i] && q'.place[c[i]] == OnStack(k, i) {
      assert q.place[c[i]] == OnStack(k, i);
    }
  }

  lemma PopsQueued(q: Image, q': Image, k: StackId, m: int)
    requires PlacesOk(q) && Pops(q, q', k) && StackOk(q, k)
    ensures Queued(q', m) <==> Queued(q, m) && !(k == Lifo && m == H(q, STACK_HEAD))
  {
    TopBlock(q, k);
    if k == Lifo {
      TopData(q);
    }
    assert Get(q', Items) == Get(q, Items);
    assert m in q.place ==> PlaceOk(q, m);
    hide W, H, Len, HeaderOk, PlacesOk, StackOk, DataOk;
  }

  lemma PopsPlace(q: Image, q': Image, k: StackId, c: int)
    requires PlacesOk(q) && Pops(q, q', k) && StackOk(q, k) && PlaceOk(q, c)
    ensures PlaceOk(q', c)
  {
    TopBlock(q, k);
    if k == Lifo {
      TopData(q);
    }
    if q.place[c].Attached? {
      PopsQueued(q, q', k, q.place[c].node);
    }
    SameBlocks(q, q');
    hide W, H, Len, HeaderOk, Queued, PlacesOk, StackOk;
  }

  lemma PopsData(q: Image, q': Image, k: StackId, m: int)
    requires PlacesOk(q) && Pops(q, q', k) && StackOk(q, k) && Queued(q', m)
    ensures DataOk(q', m)
  {
    TopBlock(q, k);
    if k == Lifo {
      TopData(q);
    }
    PopsQueued(q, q', k, m);
    assert DataOk(q, m);
    PopsTouches(q, q', k);
    hide W, H, Len, HeaderOk, StackOk, PlacesOk, Queued;
    DataKept(q, q', m, {}, PopPlaces(q, k), {TopSlot(k), TopSlot(k) + 1});
  }

  lemma PopsPlaces(q: Image, q': Image, k: StackId)
    requires PlacesOk(q) && Pops(q, q', k) && StackOk(q, k)
    ensures PlacesOk(q')
  {
    forall c | c in q'.place ensures PlaceOk(q', c) {
      PopsTouches(q, q', k);
      hide PlaceOk, Queued, DataOk, StackOk, HeaderOk, Pops;
      assert PlaceOk(q, c);
      PopsPlace(q, q', k, c);
    }
    forall m | Queued(q', m) ensures DataOk(q', m) {
      hide *;
      PopsData(q, q', k, m);
    }
  }

  lemma PopsOthers(q: Image, q': Image, k: StackId)
    requires ListsOk(q) && StacksOk(q) && PlacesOk(q) && ValidId(k) && Pops(q, q', k) && StackOk(q, k) && StackOk(q', k)
    ensures ListsOk(q') && StacksOk(q')
  {
    hide W, H, Len, Touches, ListOk, StackOk, HeaderOk, StacksOk, ListsOk, PlacesOk;
    TopBlock(q, k);
    if k == Lifo {
      TopData(q);
    }
    PopsTouches(q, q', k);
    OtherStacksKept(q, q', {}, PopPlaces(q, k), k);
  }

  lemma PopOk(q: Image, k: StackId)
    requires Ok(q) && ValidId(k) && Stack(q, k) != []
    ensures Ok(Pop(q, k)) && Pops(q, Pop(q, k), k)
  {
    var q' := Pop(q, k);
    assert StackOk(q, k) && |q.h| == HDR_END;
    hide Pop, Pops, StackOk, ListsOk, StacksOk, PlacesOk, Tiled, Touches;
    PopPops(q, k);
    PopsStack(q, q', k);
    PopsPlaces(q, q', k);
    PopsTouches(q, q', k);
    TopSlots(k);
    TiledKept(q, q', {}, PopPlaces(q, k), {TopSlot(k), TopSlot(k) + 1});
    PopsOthers(q, q', k);
  }
}
