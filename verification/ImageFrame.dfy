/**
 * What a step on an Image leaves alone.
 */
module ImageFrame {
  import opened Layout
  import opened Image

  /**
   * The step changes the links (the first two words) of the blocks in `xs` only,
   * the places of the blocks in `ps` only, and the header words in `ys` only.
   */
  ghost predicate Touches(q: Image, q': Image, xs: set<int>, ps: set<int>, ys: set<int>) {
    && q'.blk.Keys == q.blk.Keys && q'.place.Keys == q.place.Keys && |q'.h| == |q.h|
    && (forall b :: Len(q', b) == Len(q, b))
    && (forall b, j :: j >= 2 ==> W(q', b, j) == W(q, b, j))
    && (forall b :: b !in xs ==> W(q', b, 0) == W(q, b, 0) && W(q', b, 1) == W(q, b, 1))
    && (forall b :: b in q.place && b !in ps ==> q'.place[b] == q.place[b])
    && (forall i :: i !in ys ==> H(q', i) == H(q, i))
  }

  lemma TiledKept(q: Image, q': Image, xs: set<int>, ps: set<int>, ys: set<int>)
    requires Tiled(q) && Touches(q, q', xs, ps, ys) && DATA_ALLOC !in ys
    ensures Tiled(q')
  {
    forall b | b in q'.blk ensures Abuts(q', b) {
      assert Abuts(q, b);
    }
  }

  lemma ListKept(q: Image, q': Image, l: ListId, xs: set<int>, ps: set<int>, ys: set<int>)
    requires ListOk(q, l) && Touches(q, q', xs, ps, ys) && Get(q', l) == Get(q, l)
    requires HeadSlot(l) !in ys && TailSlot(l) !in ys && TailSlot(l) + 1 !in ys
    requires forall b :: (b in xs || b in ps) && b in q.place ==> !(q.place[b].OnList? && q.place[b].l == l)
    ensures ListOk(q', l)
  {
    var c := Get(q, l);
    forall i | c.front <= i < |c.log|
      ensures c.log[i] !in xs && c.log[i] in q'.place && q'.place[c.log[i]] == OnList(l, i)
    {
      assert q.place[c.log[i]] == OnList(l, i);
    }
  }

  lemma StackKept(q: Image, q': Image, k: StackId, xs: set<int>, ps: set<int>, ys: set<int>)
    requires StackOk(q, k) && Touches(q, q', xs, ps, ys) && Stack(q', k) == Stack(q, k)
    requires TopSlot(k) !in ys
    requires forall b :: (b in xs || b in ps) && b in q.place ==> !(q.place[b].OnStack? && q.place[b].k == k)
    ensures StackOk(q', k)
  {
    var c := Stack(q, k);
    forall i | 0 <= i < |c|
      ensures c[i] !in xs && c[i] in q'.place && q'.place[c[i]] == OnStack(k, i)
    {
      assert q.place[c[i]] == OnStack(k, i);
    }
  }

  lemma DataKept(q: Image, q': Image, n: int, xs: set<int>, ps: set<int>, ys: set<int>)
    requires DataOk(q, n) && Touches(q, q', xs, ps, ys)
    requires W(q, n, VALUE_OFFSET) !in xs && W(q, n, VALUE_OFFSET) !in ps
    ensures DataOk(q', n)
  {
  }

  lemma HeaderKept(q: Image, q': Image, d: int, xs: set<int>, ps: set<int>, ys: set<int>)
    requires HeaderOk(q, d) && Touches(q, q', xs, ps, ys) && d !in xs
    ensures HeaderOk(q', d)
  {
  }

  /** Header words that belong to no list and no stack. */
  predicate Plain(x: int) {
    x == SIZE || x == EXPAND_SIZE || x == DATA_ALLOC || x == ID_CNTR || Setting(x)
  }

  /** The slots of the header pairs are all different. */
  lemma SlotsDiffer(l: ListId, m: ListId, k: StackId)
    requires ValidId(k)
    ensures l != m ==> HeadSlot(l) != HeadSlot(m) && HeadSlot(l) + 1 != HeadSlot(m)
    ensures l != m ==> TailSlot(l) != TailSlot(m) && TailSlot(l) + 1 != TailSlot(m)
    ensures HeadSlot(l) != TailSlot(m) && HeadSlot(l) + 1 != TailSlot(m) && HeadSlot(l) != TailSlot(m) + 1
    ensures TopSlot(k) != HeadSlot(l) && TopSlot(k) != HeadSlot(l) + 1 && TopSlot(k) + 1 != HeadSlot(l)
    ensures TopSlot(k) != TailSlot(l) && TopSlot(k) != TailSlot(l) + 1 && TopSlot(k) + 1 != TailSlot(l)
    ensures 0 <= HeadSlot(l) < HDR_END - 1 && 0 <= TailSlot(l) < HDR_END - 1 && 0 <= TopSlot(k) < HDR_END - 1
    ensures forall x {:trigger Plain(x)} :: Plain(x) ==>
              x != HeadSlot(l) && x != HeadSlot(l) + 1 && x != TailSlot(l) && x != TailSlot(l) + 1 &&
                  x != TopSlot(k) && x != TopSlot(k) + 1
  {
  }

  lemma TopsDiffer(k: StackId, m: StackId)
    requires ValidId(k) && ValidId(m) && k != m
    ensures TopSlot(k) != TopSlot(m) && TopSlot(k) != TopSlot(m) + 1 && TopSlot(k) + 1 != TopSlot(m)
  {
  }

  lemma PutPairEffect(q: Image, b: int, lo: int, hi: int)
    requires Len(q, b) >= 2
    ensures var q' := PutPair(q, b, lo, hi);
            && q' == q.(blk := q'.blk) && q'.blk.Keys == q.blk.Keys
            && (forall c :: Len(q', c) == Len(q, c))
            && (forall c, j :: W(q', c, j) == if c == b && j == 0 then lo else if c == b && j == 1 then hi
               else W(q, c, j))
            && (forall c :: c != b ==> W(q', c, 0) == W(q, c, 0) && W(q', c, 1) == W(q, c, 1))
  {
  }

  lemma PutHPairEffect(q: Image, i: int, lo: int, hi: int)
    requires 0 <= i < |q.h| - 1
    ensures var q' := PutHPair(q, i, lo, hi);
            && q' == q.(h := q'.h) && |q'.h| == |q.h|
            && (forall x :: H(q', x) == if x == i then lo else if x == i + 1 then hi else H(q, x))
  {
  }

  lemma PutHEffect(q: Image, i: int, v: int)
    requires 0 <= i < |q.h|
    ensures var q' := PutH(q, i, v);
            && q' == q.(h := q'.h) && |q'.h| == |q.h|
            && (forall x :: H(q', x) == if x == i then v else H(q, x))
  {
  }
}
