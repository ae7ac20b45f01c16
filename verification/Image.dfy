/**
 * The shared object at rest, block by block: what the header words, the nodes
 * and the data blocks must look like, and which queue they spell out.
 *
 * An Image is the array cut along its blocks.  `h` are the header words, `blk`
 * the words of every block carved so far, by the slot it starts at.  The other
 * fields are history: where every block is, and the order of every chain.
 */
module Image {
  import opened Layout
  import opened SizeClass

  /** The nodes of a list ever appended, oldest first, and how many of them have left. */
  datatype Chain = Chain(log: seq<int>, front: nat)

  /** Each block is in exactly one place. */
  datatype Place =
    | OnList(l: ListId, i: nat)
    | OnStack(k: StackId, i: nat)
    | Attached(node: int)            // the data of a queued node
    | Held                           // in the hands of the running operation

  datatype Image = Image(
    h: seq<int>,
    blk: map<int, seq<int>>,
    place: map<int, Place>,
    items: Chain,
    events: Chain,
    free: Chain,
    stacks: map<StackId, seq<int>>)

  // ------------------------------------------------------------ reading and writing

  function H(q: Image, i: int): int {
    if 0 <= i < |q.h| then q.h[i] else 0
  }

  function W(q: Image, b: int, j: int): int {
    if b in q.blk && 0 <= j < |q.blk[b]| then q.blk[b][j] else 0
  }

  function Len(q: Image, b: int): nat {
    if b in q.blk then |q.blk[b]| else 0
  }

  function PutH(q: Image, i: int, v: int): Image {
    if 0 <= i < |q.h| then q.(h := q.h[i := v]) else q
  }

  function PutW(q: Image, b: int, j: int, v: int): Image {
    if b in q.blk && 0 <= j < |q.blk[b]| then q.(blk := q.blk[b := q.blk[b][j := v]]) else q
  }

  /** Two adjacent words, as a DWCAS or two stores write them. */
  function PutPair(q: Image, b: int, lo: int, hi: int): Image {
    PutW(PutW(q, b, 0, lo), b, 1, hi)
  }

  function PutHPair(q: Image, i: int, lo: int, hi: int): Image {
    PutH(PutH(q, i, lo), i + 1, hi)
  }

  function Get(q: Image, l: ListId): Chain {
    match l
    case Items => q.items
    case Events => q.events
    case Free => q.free
  }

  function Set(q: Image, l: ListId, c: Chain): Image {
    match l
    case Items => q.(items := c)
    case Events => q.(events := c)
    case Free => q.(free := c)
  }

  function Stack(q: Image, k: StackId): seq<int> {
    if k in q.stacks then q.stacks[k] else []
  }

  function Move(q: Image, b: int, at: Place): Image {
    q.(place := q.place[b := at])
  }

  // ------------------------------------------------------------ tiling

  predicate ValidId(k: StackId) {
    k.Bucket? ==> 0 <= k.i < MEM_SLOTS
  }

  /** The block ends where another one starts, or where the free space starts. */
  predicate Abuts(q: Image, b: int) {
    b + Len(q, b) == H(q, DATA_ALLOC) || (b + Len(q, b)) in q.blk
  }

  /** Every block starts on a multiple of four slots, ends before the next one starts, and leaves no gap. */
  ghost predicate Tiled(q: Image) {
    var end := H(q, DATA_ALLOC);
    && |q.h| == HDR_END
    && HDR_END <= end && end % NODE_SIZE == 0
    && (HDR_END in q.blk || end == HDR_END)
    && (forall b :: b in q.blk ==>
          && HDR_END <= b && b % NODE_SIZE == 0
          && NODE_SIZE <= Len(q, b) && Len(q, b) % NODE_SIZE == 0
          && b + Len(q, b) <= end)
    && (forall b {:trigger Abuts(q, b)} :: b in q.blk ==> Abuts(q, b))
    && (forall b, c :: b in q.blk && c in q.blk && b < c ==> b + Len(q, b) <= c)
    && q.place.Keys == q.blk.Keys
  }

  // ------------------------------------------------------------ chains

  ghost predicate ListOk(q: Image, l: ListId) {
    var c := Get(q, l);
    && c.front < |c.log|
    && H(q, HeadSlot(l)) == c.log[c.front]
    && H(q, TailSlot(l)) == c.log[|c.log| - 1]
    && W(q, c.log[|c.log| - 1], 0) == c.log[|c.log| - 1]
    && W(q, c.log[|c.log| - 1], 1) == H(q, TailSlot(l) + 1)
    && (forall i, j :: c.front <= i && j == i + 1 && j < |c.log| ==> W(q, c.log[i], 0) == c.log[j])
    && (forall i :: c.front <= i < |c.log| ==>
          Len(q, c.log[i]) == NODE_SIZE && c.log[i] in q.place && q.place[c.log[i]] == OnList(l, i))
  }

  /** The size of the blocks on a stack; no block is of a size that would go to a higher bucket. */
  function BlockSize(k: StackId): int {
    if k == Lifo then NODE_SIZE else if 0 <= k.i < CLASSES then Capacity(k.i) else 0
  }

  ghost predicate StackOk(q: Image, k: StackId) {
    var c := Stack(q, k);
    && H(q, TopSlot(k)) == (if c == [] then 0 else c[|c| - 1])
    && (c != [] ==> W(q, c[0], 0) == 0)
    && (forall i, j :: 0 <= i && j == i + 1 && j < |c| ==> W(q, c[j], 0) == c[i])
    && (forall i :: 0 <= i < |c| ==>
          Len(q, c[i]) == BlockSize(k) && c[i] in q.place && q.place[c[i]] == OnStack(k, i))
  }

  ghost predicate ListsOk(q: Image) {
    ListOk(q, Items) && ListOk(q, Events) && ListOk(q, Free)
  }

  ghost predicate StacksOk(q: Image) {
    forall k :: ValidId(k) ==> StackOk(q, k)
  }

  // ------------------------------------------------------------ data

  /** The node holds a queued item: it is behind the dummy of the item list, or on the LIFO stack. */
  predicate Queued(q: Image, n: int) {
    n in q.place &&
    ((q.place[n].OnList? && q.place[n].l == Items && q.place[n].i > q.items.front) || (q.place[n].OnStack? &&
        q.place[n].k == Lifo))
  }

  /** A data block in use: its header is its capacity, and its capacity one of the size classes. */
  ghost predicate HeaderOk(q: Image, d: int) {
    && d in q.blk && W(q, d, 0) == Len(q, d)
    && Len(q, d) >= 8
    && exists i :: 0 <= i < CLASSES && Len(q, d) == Capacity(i)
  }

  /** Every queued node has a data block, and no two have the same. */
  ghost predicate DataOk(q: Image, n: int) {
    var d := W(q, n, VALUE_OFFSET);
    d in q.place && q.place[d] == Attached(n) && HeaderOk(q, d)
  }

  ghost predicate PlaceOk(q: Image, b: int) {
    b in q.place &&
    match q.place[b]
    case OnList(l, i) => Get(q, l).front <= i < |Get(q, l).log| && Get(q, l).log[i] == b
    case OnStack(k, i) => ValidId(k) && i < |Stack(q, k)| && Stack(q, k)[i] == b
    case Attached(n) => Queued(q, n) && W(q, n, VALUE_OFFSET) == b
    case Held => true
  }

  ghost predicate PlacesOk(q: Image) {
    && (forall b :: b in q.place ==> PlaceOk(q, b))
    && (forall n :: Queued(q, n) ==> DataOk(q, n))
  }

  /** The invariant of the heap. */
  ghost predicate Ok(q: Image) {
    Tiled(q) && ListsOk(q) && StacksOk(q) && PlacesOk(q)
  }

  // ------------------------------------------------------------ the queue it spells out

  /** What a reader of a data block gets: its words behind the header word. */
  function DataItem(q: Image, d: int): seq<int> {
    if d in q.blk && q.blk[d] != [] then q.blk[d][1..] else []
  }

  /** The item of a queued node. */
  function Item(q: Image, n: int): seq<int> {
    DataItem(q, W(q, n, VALUE_OFFSET))
  }

  function ItemsOf(q: Image, ns: seq<int>): seq<seq<int>> {
    seq(|ns|, i requires 0 <= i < |ns| => Item(q, ns[i]))
  }

  function EventsOf(q: Image, ns: seq<int>): seq<int> {
    seq(|ns|, i requires 0 <= i < |ns| => W(q, ns[i], EVENT_OFFSET))
  }

  /** The nodes behind the dummy. */
  function Behind(c: Chain): seq<int> {
    if c.front < |c.log| then c.log[c.front + 1..] else []
  }

  /** The FIFO, front first. */
  function Fifo(q: Image): seq<seq<int>> {
    ItemsOf(q, Behind(q.items))
  }

  /** The LIFO stack, bottom first. */
  function LifoItems(q: Image): seq<seq<int>> {
    ItemsOf(q, Stack(q, Lifo))
  }

  /** The pending events, oldest first. */
  function Pending(q: Image): seq<int> {
    EventsOf(q, Behind(q.events))
  }

  /** Every slot between the header and DATA_ALLOC lies in exactly one block. */
  lemma EverySlotInOneBlock(q: Image, x: int)
    requires Tiled(q) && HDR_END <= x < H(q, DATA_ALLOC)
    ensures exists b :: b in q.blk && b <= x < b + Len(q, b) && b in q.place &&
                        forall c :: c in q.blk && c <= x < c + Len(q, c) ==> c == b
  {
    var b := BlockAt(q, HDR_END, x);
    forall c | c in q.blk && c <= x < c + Len(q, c) ensures c == b {
      hide Len, Abuts;
    }
    hide *;
  }

  lemma {:induction false} BlockAt(q: Image, from: int, x: int) returns (b: int)
    requires Tiled(q) && from in q.blk && from <= x < H(q, DATA_ALLOC)
    ensures b in q.blk && b <= x < b + Len(q, b)
    decreases x - from
  {
    b := from;
    if x >= from + Len(q, from) {
      assert Abuts(q, from);
      b := BlockAt(q, from + Len(q, from), x);
    }
  }

  /** The four slots of a node, and every pair a DWCAS is used on, lie within one page and one 16-byte unit. */
  lemma NodesAreAligned(q: Image, b: int)
    requires Tiled(q) && b in q.blk
    ensures b * 8 % 16 == 0
    ensures b / PAGE_SLOTS == (b + NODE_SIZE - 1) / PAGE_SLOTS
  {
    assert b == NODE_SIZE * (b / NODE_SIZE);
    var r := b % PAGE_SLOTS;
    assert b == PAGE_SLOTS * (b / PAGE_SLOTS) + r;
    assert r % NODE_SIZE == 0;
  }

  /** A node whose first slot is within a mapping of whole pages is mapped as a whole. */
  lemma FirstSlotMapsTheNode(q: Image, b: int, mapped: nat)
    requires Tiled(q) && b in q.blk && mapped % PAGE_SLOTS == 0
    ensures b < mapped <==> b + NODE_SIZE <= mapped
  {
    assert b % NODE_SIZE == 0;
    hide Tiled;
    WholeNodes(b, mapped);
  }

  lemma WholeNodes(b: int, mapped: int)
    requires b % NODE_SIZE == 0 && mapped % PAGE_SLOTS == 0
    ensures b < mapped <==> b + NODE_SIZE <= mapped
  {
    var k, n := b / NODE_SIZE, mapped / PAGE_SLOTS;
    assert b == 4 * k && mapped == 4 * (128 * n);
  }

  /** Every pair in the header that a DWCAS is used on is 16-byte aligned, too. */
  lemma HeaderPairsAreAligned(l: ListId, k: StackId)
    ensures HeadSlot(l) * 8 % 16 == 0 && TailSlot(l) * 8 % 16 == 0 && TopSlot(k) * 8 % 16 == 0
    ensures HDR_END == 164
  {
  }
}
