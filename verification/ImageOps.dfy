/**
 * The operations of the library on an Image, one function for each function of
 * the library that writes to the object, with the words in the order in which
 * the library writes them.
 */
module ImageOps {
  import opened Layout
  import opened Image

  /** add_end.  The data of an item goes with its node. */
  function AddEnd(q: Image, l: ListId, n: int): Image {
    var gen, last := H(q, ID_CNTR), H(q, TailSlot(l));
    var q1 := PutPair(PutH(q, ID_CNTR, gen + 1), n, n, gen);
    var q2 := PutHPair(PutPair(q1, last, n, gen), TailSlot(l), n, gen);
    var q3 := Set(q2, l, Get(q, l).(log := Get(q, l).log + [n]));
    var q4 := Move(q3, n, OnList(l, |Get(q, l).log|));
    if l == Items then Move(q4, W(q, n, VALUE_OFFSET), Attached(n)) else q4
  }

  /** remove_front.  What becomes the new dummy loses its data to the caller. */
  function RemoveFront(q: Image, l: ListId): Image {
    var ref := H(q, HeadSlot(l));
    var next := W(q, ref, 0);
    var q1 := PutPair(PutHPair(q, HeadSlot(l), next, H(q, HeadSlot(l) + 1) + 1), ref, 0, 0);
    var q2 := Move(Set(q1, l, Get(q, l).(front := Get(q, l).front + 1)), ref, Held);
    if l == Items then Move(q2, W(q, next, VALUE_OFFSET), Held) else q2
  }

  /** The list has nothing behind its dummy. */
  predicate Empty(q: Image, l: ListId) {
    H(q, HeadSlot(l)) == H(q, TailSlot(l))
  }

  /** lifo_add and free_data_slots: the block goes on top of a stack. */
  function Push(q: Image, k: StackId, b: int): Image {
    var top, cnt := H(q, TopSlot(k)), H(q, TopSlot(k) + 1);
    var q1 := PutHPair(PutPair(q, b, top, cnt), TopSlot(k), b, cnt + 1);
    var q2 := Move(q1.(stacks := q.stacks[k := Stack(q, k) + [b]]), b, OnStack(k, |Stack(q, k)|));
    if k == Lifo then Move(q2, W(q, b, VALUE_OFFSET), Attached(b)) else q2
  }

  /** The DWCAS with which lookup_freed_data and remove_top take the topmost block. */
  function Pop(q: Image, k: StackId): Image {
    var top := H(q, TopSlot(k));
    var s := Stack(q, k);
    var q1 := PutHPair(q, TopSlot(k), W(q, top, 0), H(q, TopSlot(k) + 1) + 1);
    var q2 := Move(q1.(stacks := q.stacks[k := if s == [] then [] else s[..|s| - 1]]), top, Held);
    if k == Lifo then Move(q2, W(q, top, VALUE_OFFSET), Held) else q2
  }
}
