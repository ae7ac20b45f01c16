/**
 * How an item is stored in a data block and read back, byte by byte: a single
 * value, or a vector of typed fields of any length.
 */
module Codec {
  import opened Layout
  import opened SizeClass

  type Byte = x: int | 0 <= x < 256

  /** sizeof(long) and sizeof(sq_vec_s). */
  const LONG := 8
  const VEC_SIZE := 24

  const INT_MAX := 0x7fff_ffff
  const LONG_MAX := 0x7fff_ffff_ffff_ffff
  const SH_VECTOR_T := 0

  // ------------------------------------------------------------ words

  /** The n low bytes of a number, lowest first. */
  function Bytes(v: nat, n: nat): (s: seq<Byte>)
    ensures |s| == n
  {
    if n == 0 then [] else [v % 256] + Bytes(v / 256, n - 1)
  }

  function Number(s: seq<Byte>): nat {
    if s == [] then 0 else s[0] + 256 * Number(s[1..])
  }

  function Power(n: nat): nat {
    if n == 0 then 1 else 256 * Power(n - 1)
  }

  lemma {:induction false} NumberOfBytes(v: nat, n: nat)
    requires v < Power(n)
    ensures Number(Bytes(v, n)) == v
  {
    if n > 0 {
      NumberOfBytes(v / 256, n - 1);
      assert Bytes(v, n)[1..] == Bytes(v / 256, n - 1);
    }
  }

  /** A long survives being stored as eight bytes. */
  lemma LongRoundTrip(v: nat)
    requires v <= LONG_MAX
    ensures Number(Bytes(v, LONG)) == v
  {
    assert Power(4) == 0x1_0000_0000;
    assert Power(8) == 0x1_0000_0000_0000_0000;
    NumberOfBytes(v, LONG);
  }

  // ------------------------------------------------------------ bytes as longs

  /** The long that up to eight bytes make, the bytes above them zero; the highest bit is the sign. */
  function ToLong(s: seq<Byte>): int
    requires |s| <= LONG
  {
    if Number(s) <= LONG_MAX then Number(s) else Number(s) - 0x1_0000_0000_0000_0000
  }

  /** The eight bytes of a long. */
  function OfLong(w: int): seq<Byte> {
    Bytes(w % 0x1_0000_0000_0000_0000, LONG)
  }

  /** The longs that bytes fill; the rest of the last one is zero. */
  function Pack(s: seq<Byte>): seq<int> {
    if s == [] then [] else if |s| <= LONG then [ToLong(s)] else [ToLong(s[..LONG])] + Pack(s[LONG..])
  }

  function Unpack(ws: seq<int>): seq<Byte> {
    if ws == [] then [] else OfLong(ws[0]) + Unpack(ws[1..])
  }

  lemma {:induction false} PowerMonotone(m: nat, n: nat)
    requires m <= n
    ensures 1 <= Power(m) <= Power(n)
  {
    if m < n {
      PowerMonotone(m, n - 1);
    } else if m > 0 {
      PowerMonotone(m - 1, n - 1);
    }
  }

  lemma LowByte(low: Byte, high: nat)
    ensures (low + 256 * high) % 256 == low && (low + 256 * high) / 256 == high
  {
  }

  /** Zeros above do not change the number. */
  lemma {:induction false} LeadingZeros(s: seq<Byte>, n: nat)
    requires |s| <= n
    ensures Number(s) < Power(n) && Bytes(Number(s), n)[..|s|] == s
  {
    if s != [] {
      LeadingZeros(s[1..], n - 1);
      var low, high := s[0], Number(s[1..]);
      LowByte(low, high);
      var rest := Bytes(high, n - 1);
      assert Bytes(Number(s), n) == [low] + rest;
      hide Bytes, Number;
      assert ([low] + rest)[..|s|] == [low] + rest[..|s| - 1] == s;
    } else {
      PowerMonotone(0, n);
    }
  }

  lemma LongKeepsBytes(s: seq<Byte>)
    requires |s| <= LONG
    ensures OfLong(ToLong(s))[..|s|] == s
  {
    LeadingZeros(s, LONG);
    assert Power(4) == 0x1_0000_0000;
    assert Power(8) == 0x1_0000_0000_0000_0000;
    hide Number, Bytes, Power;
    assert ToLong(s) % 0x1_0000_0000_0000_0000 == Number(s);
  }

  /** Bytes stored as longs read back as the same bytes, in as few longs as hold them. */
  lemma {:induction false} BytesRoundTrip(s: seq<Byte>)
    ensures |s| <= LONG * |Pack(s)| < |s| + LONG
    ensures |Unpack(Pack(s))| == LONG * |Pack(s)| && Unpack(Pack(s))[..|s|] == s
  {
    hide ToLong, OfLong;
    if |s| > LONG {
      BytesRoundTrip(s[LONG..]);
      LongKeepsBytes(s[..LONG]);
      WordBytes(ToLong(s[..LONG]));
      var w, rest := OfLong(ToLong(s[..LONG])), Pack(s[LONG..]);
      assert Pack(s)[1..] == rest && Unpack(Pack(s)) == w + Unpack(rest);
      assert s == s[..LONG] + s[LONG..] && w == s[..LONG];
      assert (w + Unpack(rest))[..|s|] == w + Unpack(rest)[..|s| - LONG];
    } else if s != [] {
      LongKeepsBytes(s);
      WordBytes(ToLong(s));
      assert Unpack(Pack(s)) == OfLong(ToLong(s));
    }
  }

  lemma {:induction false} UnpackTwo(a: seq<int>, b: seq<int>)
    ensures Unpack(a + b) == Unpack(a) + Unpack(b)
  {
    hide OfLong, Unpack;
    if a == [] {
      assert a + b == b && Unpack(a) == [] by {
        UnpackNone();
      }
    } else {
      UnpackFirst(a);
      UnpackFirst(a + b);
      UnpackTwo(a[1..], b);
      assert (a + b)[1..] == a[1..] + b;
    }
  }

  lemma UnpackNone()
    ensures Unpack([]) == []
  {
  }

  lemma UnpackFirst(ws: seq<int>)
    requires ws != []
    ensures Unpack(ws) == OfLong(ws[0]) + Unpack(ws[1..])
  {
    hide OfLong;
  }

  lemma WordBytes(w: int)
    ensures |OfLong(w)| == LONG
  {
  }

  function LongAt(m: seq<Byte>, at: nat): nat
    requires at + LONG <= |m|
  {
    Number(m[at..at + LONG])
  }

  // ------------------------------------------------------------ fields

  /** An entry of a vector: its type and its bytes, and whether its base is a pointer at all. */
  datatype Field = Field(kind: int, data: seq<Byte>, based: bool)

  /** The ranges of the types of an entry in C. */
  predicate InRange(f: Field) {
    f.kind <= INT_MAX && |f.data| <= LONG_MAX
  }

  /** What copy_vector accepts. */
  predicate FieldOk(f: Field) {
    f.kind > 0 && |f.data| > 0 && f.based
  }

  lemma FieldsOk(fs: seq<Field>)
    ensures (forall f :: f in fs ==> FieldOk(f)) <==> forall f :: f in fs ==> f.kind > 0 && |f.data| > 0 && f.based
  {
  }

  /** The bytes taken by the data of a field: whole longs. */
  function Padded(len: nat): (padded: nat)
    ensures padded % 8 == 0 && len <= padded < len + 8
  {
    if len % LONG == 0 then len else len / LONG * LONG + LONG
  }

  function FieldSize(f: Field): nat {
    2 * LONG + Padded(|f.data|)
  }

  function Extent(fs: seq<Field>): nat {
    if fs == [] then 0 else Extent(fs[..|fs| - 1]) + FieldSize(fs[|fs| - 1])
  }

  /** How many fields do not fill their last long. */
  function Ragged(fs: seq<Field>): nat {
    if fs == [] then 0 else Ragged(fs[..|fs| - 1]) + if |fs[|fs| - 1].data| % LONG == 0 then 0 else 1
  }

  /** The length that copy_vector records is that of the fields exactly when each of them fills its last long. */
  lemma {:induction false} RecordedLengthIsExactIff(fs: seq<Field>)
    ensures Extent(fs) + LONG * Ragged(fs) == Extent(fs) <==> forall f :: f in fs ==> |f.data| % LONG == 0
  {
    if fs != [] {
      var gs, f := fs[..|fs| - 1], fs[|fs| - 1];
      assert fs == gs + [f];
      RecordedLengthIsExactIff(gs);
    }
  }

  /** The field is stored at `at`. */
  ghost predicate FieldAt(m: seq<Byte>, at: nat, f: Field) {
    && at + FieldSize(f) <= |m|
    && LongAt(m, at) == f.kind && LongAt(m, at + LONG) == |f.data|
    && m[at + 2 * LONG..at + 2 * LONG + |f.data|] == f.data
  }

  /** The fields are stored one after the other from `at` on. */
  ghost predicate Laid(m: seq<Byte>, at: nat, fs: seq<Field>) {
    forall i :: 0 <= i < |fs| ==> FieldAt(m, at + Extent(fs[..i]), fs[i])
  }

  lemma {:induction false} ExtentMonotone(fs: seq<Field>, i: nat, j: nat)
    requires i <= j <= |fs|
    ensures Extent(fs[..i]) <= Extent(fs[..j])
    ensures i < j ==> Extent(fs[..i]) + FieldSize(fs[i]) <= Extent(fs[..j])
  {
    if i < j {
      ExtentMonotone(fs, i, j - 1);
      assert fs[..j][..j - 1] == fs[..j - 1];
    }
  }

  lemma ExtentNext(fs: seq<Field>, i: nat)
    requires i < |fs|
    ensures Extent(fs[..i + 1]) == Extent(fs[..i]) + FieldSize(fs[i])
    ensures Ragged(fs[..i + 1]) == Ragged(fs[..i]) + if |fs[i].data| % LONG == 0 then 0 else 1
  {
    assert fs[..i + 1][..i] == fs[..i];
  }

  // ------------------------------------------------------------ sizes

  /** calc_data_slots. */
  method CalcDataSlots(length: nat) returns (space: nat)
    ensures LONG * (space - DATA_HDR) == Padded(length)
  {
    space := DATA_HDR;
    space := space + length / LONG;
    if length % LONG != 0 {
      space := space + 1;
    }
  }

  /**
   * calc_vector_slots: the longs of the header and of the fields, and one more
   * for each field that does not fill its last long.
   */
  method CalcVectorSlots(fs: seq<Field>) returns (space: nat)
    ensures LONG * (space - DATA_HDR) == Extent(fs) + LONG * Ragged(fs)
  {
    space := DATA_HDR;
    for i := 0 to |fs|
      invariant LONG * (space - DATA_HDR) == Extent(fs[..i]) + LONG * Ragged(fs[..i])
    {
      ExtentNext(fs, i);
      space := space + 2;
      space := space + |fs[i].data| / LONG;
      if |fs[i].data| % LONG != 0 {
        space := space + 2;
      }
    }
    assert fs[..|fs|] == fs;
  }

  // ------------------------------------------------------------ storing

  /** The bytes from `lo` to `hi` are the only ones that differ. */
  ghost predicate SameBut(m: seq<Byte>, m': seq<Byte>, lo: int, hi: int) {
    |m'| == |m| && forall i :: 0 <= i < |m| && !(lo <= i < hi) ==> m'[i] == m[i]
  }

  /** A store of a long. */
  method StoreLong(block: array<Byte>, slot: nat, v: nat)
    requires LONG * slot + LONG <= block.Length && v <= LONG_MAX
    modifies block
    ensures LongAt(block[..], LONG * slot) == v
    ensures SameBut(old(block[..]), block[..], LONG * slot, LONG * slot + LONG)
  {
    var b := Bytes(v, LONG);
    var at := LONG * slot;
    forall i | 0 <= i < LONG {
      block[at + i] := b[i];
    }
    assert block[..][at..at + LONG] == b;
    LongRoundTrip(v);
  }

  /** memcpy of the bytes of a field. */
  method StoreBytes(block: array<Byte>, slot: nat, data: seq<Byte>)
    requires LONG * slot + |data| <= block.Length
    modifies block
    ensures block[..][LONG * slot..LONG * slot + |data|] == data
    ensures SameBut(old(block[..]), block[..], LONG * slot, LONG * slot + |data|)
  {
    var at := LONG * slot;
    forall i | 0 <= i < |data| {
      block[at + i] := data[i];
    }
  }

  lemma LongKept(m: seq<Byte>, m': seq<Byte>, lo: int, hi: int, at: nat)
    requires SameBut(m, m', lo, hi) && at + LONG <= |m| && (at + LONG <= lo || hi <= at)
    ensures LongAt(m', at) == LongAt(m, at)
  {
    assert m'[at..at + LONG] == m[at..at + LONG];
  }

  lemma FieldKept(m: seq<Byte>, m': seq<Byte>, lo: int, hi: int, at: nat, f: Field)
    requires SameBut(m, m', lo, hi) && FieldAt(m, at, f) && at + FieldSize(f) <= lo
    ensures FieldAt(m', at, f)
  {
    LongKept(m, m', lo, hi, at);
    LongKept(m, m', lo, hi, at + LONG);
    var from := at + 2 * LONG;
    assert m'[from..from + |f.data|] == m[from..from + |f.data|];
  }

  lemma LaidKept(m: seq<Byte>, m': seq<Byte>, lo: int, hi: int, at: nat, fs: seq<Field>)
    requires SameBut(m, m', lo, hi) && Laid(m, at, fs) && at + Extent(fs) <= lo
    ensures Laid(m', at, fs)
  {
    hide SameBut, FieldAt, Extent, FieldSize;
    assert fs[..|fs|] == fs;
    forall i | 0 <= i < |fs| ensures FieldAt(m', at + Extent(fs[..i]), fs[i]) {
      ExtentMonotone(fs, i, |fs|);
      FieldKept(m, m', lo, hi, at + Extent(fs[..i]), fs[i]);
    }
  }

  lemma LaidNext(m: seq<Byte>, at: nat, fs: seq<Field>, i: nat)
    requires i < |fs| && Laid(m, at, fs[..i]) && FieldAt(m, at + Extent(fs[..i]), fs[i])
    ensures Laid(m, at, fs[..i + 1])
  {
    hide FieldAt, Extent;
    var gs, hs := fs[..i + 1], fs[..i];
    forall j | 0 <= j < |gs| ensures FieldAt(m, at + Extent(gs[..j]), gs[j]) {
      assert gs[..j] == fs[..j];
      if j < i {
        assert hs[..j] == fs[..j] && hs[j] == fs[j];
      }
    }
  }

  /** The bytes of a data block that hold the header and the fields. */
  function Space(fs: seq<Field>): nat {
    LONG * DATA_HDR + Extent(fs)
  }

  /** The words of the header behind the first, which alloc_data_slots has set. */
  ghost predicate HeaderAt(m: seq<Byte>, kind: nat, count: nat, length: nat) {
    && LONG * DATA_HDR <= |m|
    && LongAt(m, LONG * TYPE) == kind && LongAt(m, LONG * VEC_CNT) == count && LongAt(m, LONG * DATA_LENGTH) == length
  }

  lemma HeaderKept(m: seq<Byte>, m': seq<Byte>, lo: int, hi: int, kind: nat, count: nat, length: nat)
    requires SameBut(m, m', lo, hi) && HeaderAt(m, kind, count, length) && LONG * DATA_HDR <= lo
    ensures HeaderAt(m', kind, count, length) && LongAt(m', LONG * DATA_SLOTS) == LongAt(m, LONG * DATA_SLOTS)
  {
    LongKept(m, m', lo, hi, LONG * DATA_SLOTS);
    LongKept(m, m', lo, hi, LONG * TYPE);
    LongKept(m, m', lo, hi, LONG * VEC_CNT);
    LongKept(m, m', lo, hi, LONG * DATA_LENGTH);
  }

  /** The stores of copy_value and copy_vector to the header. */
  method StoreHeader(block: array<Byte>, sec: nat, nsec: nat, id: nat, kind: nat, count: nat, length: nat)
    requires LONG * DATA_HDR <= block.Length
    requires sec <= LONG_MAX && nsec <= LONG_MAX && id <= LONG_MAX && kind <= LONG_MAX && count <= LONG_MAX
    requires length <= LONG_MAX
    modifies block
    ensures HeaderAt(block[..], kind, count, length) &&
            LongAt(block[..], LONG * DATA_SLOTS) == LongAt(old(block[..]), LONG * DATA_SLOTS)
    ensures SameBut(old(block[..]), block[..], LONG, LONG * DATA_HDR)
  {
    ghost var m0 := block[..];
    StoreLong(block, TM_SEC, sec);
    StoreLong(block, TM_NSEC, nsec);
    StoreLong(block, UID, id);
    StoreLong(block, TYPE, kind);
    ghost var m4 := block[..];
    StoreLong(block, VEC_CNT, count);
    ghost var m5 := block[..];
    StoreLong(block, DATA_LENGTH, length);
    ghost var m6 := block[..];
    LongKept(m0, m6, LONG, LONG * DATA_HDR, LONG * DATA_SLOTS);
    LongKept(m4, m5, LONG * VEC_CNT, LONG * VEC_CNT + LONG, LONG * TYPE);
    LongKept(m5, m6, LONG * DATA_LENGTH, LONG * DATA_LENGTH + LONG, LONG * TYPE);
    LongKept(m5, m6, LONG * DATA_LENGTH, LONG * DATA_LENGTH + LONG, LONG * VEC_CNT);
  }

  /** copy_value, behind the allocation: a block of the size that calc_data_slots has asked for. */
  method CopyValue(block: array<Byte>, sec: nat, nsec: nat, id: nat, f: Field)
    requires FieldOk(f) && InRange(f) && LONG * DATA_HDR + Padded(|f.data|) <= block.Length
    requires sec <= LONG_MAX && nsec <= LONG_MAX && id <= LONG_MAX
    modifies block
    ensures HeaderAt(block[..], f.kind, 1, |f.data|) &&
            LongAt(block[..], LONG * DATA_SLOTS) == LongAt(old(block[..]), LONG * DATA_SLOTS)
    ensures block[..][LONG * DATA_HDR..LONG * DATA_HDR + |f.data|] == f.data
    ensures SameBut(old(block[..]), block[..], LONG, LONG * DATA_HDR + |f.data|)
  {
    StoreHeader(block, sec, nsec, id, f.kind, 1, |f.data|);
    ghost var m := block[..];
    StoreBytes(block, DATA_HDR, f.data);
    HeaderKept(m, block[..], LONG * DATA_HDR, LONG * DATA_HDR + |f.data|, f.kind, 1, |f.data|);
  }

  /** One round of the loop of copy_vector. */
  method StoreField(block: array<Byte>, slot: nat, f: Field) returns (next: nat)
    requires FieldOk(f) && InRange(f) && LONG * slot + FieldSize(f) <= block.Length
    modifies block
    ensures FieldAt(block[..], LONG * slot, f) && LONG * next == LONG * slot + FieldSize(f)
    ensures SameBut(old(block[..]), block[..], LONG * slot, LONG * next)
  {
    next := slot;
    StoreLong(block, next, f.kind);
    ghost var m1 := block[..];
    next := next + 1;
    StoreLong(block, next, |f.data|);
    ghost var m2 := block[..];
    next := next + 1;
    StoreBytes(block, next, f.data);
    ghost var m3 := block[..];
    LongKept(m1, m2, LONG * slot + LONG, LONG * slot + 2 * LONG, LONG * slot);
    LongKept(m2, m3, LONG * next, LONG * next + |f.data|, LONG * slot);
    LongKept(m2, m3, LONG * next, LONG * next + |f.data|, LONG * slot + LONG);
    next := next + |f.data| / LONG;
    if |f.data| % LONG != 0 {
      next := next + 1;
    }
  }

  /**
   * copy_vector, behind the allocation: a block at least of the size that
   * calc_vector_slots has asked for.  An entry without a type, without bytes or
   * with a null base makes it fail.
   */
  method CopyVector(block: array<Byte>, sec: nat, nsec: nat, id: nat, fs: seq<Field>) returns (ok: bool)
    requires (forall f :: f in fs ==> InRange(f)) && |fs| <= INT_MAX
    requires Space(fs) + LONG * Ragged(fs) <= block.Length && Extent(fs) + LONG * Ragged(fs) <= LONG_MAX
    requires sec <= LONG_MAX && nsec <= LONG_MAX && id <= LONG_MAX
    modifies block
    ensures ok <==> |fs| >= 2 && forall f :: f in fs ==> f.kind > 0 && |f.data| > 0 && f.based
    ensures ok ==> HeaderAt(block[..], SH_VECTOR_T, |fs|, Extent(fs) + LONG * Ragged(fs))
    ensures ok ==> Laid(block[..], LONG * DATA_HDR, fs)
    ensures LONG <= block.Length && LongAt(block[..], LONG * DATA_SLOTS) == LongAt(old(block[..]), LONG * DATA_SLOTS)
    ensures SameBut(old(block[..]), block[..], LONG, Space(fs))
  {
    hide SameBut, FieldAt, Laid, HeaderAt, Extent, Ragged, FieldSize, LongAt;
    if |fs| < 2 {
      NothingChanged(block[..], LONG, Space(fs));
      return false;
    }
    ghost var m0 := block[..];
    ghost var length := Extent(fs) + LONG * Ragged(fs);
    var space := CalcVectorSlots(fs);
    StoreHeader(block, sec, nsec, id, SH_VECTOR_T, |fs|, LONG * (space - DATA_HDR));
    var slot := DATA_HDR;
    LaidNone(block[..], LONG * DATA_HDR, fs);
    NothingBehind(m0, block[..], LONG, LONG * DATA_HDR, fs);
    for i := 0 to |fs|
      invariant LONG * slot == Space(fs[..i])
      invariant Laid(block[..], LONG * DATA_HDR, fs[..i]) && HeaderAt(block[..], SH_VECTOR_T, |fs|, length)
      invariant SameBut(m0, block[..], LONG, Space(fs[..i]))
      invariant LongAt(block[..], LONG * DATA_SLOTS) == LongAt(m0, LONG * DATA_SLOTS)
      invariant forall j :: 0 <= j < i ==> FieldOk(fs[j])
    {
      ghost var m := block[..];
      WholeVector(fs, i);
      if fs[i].kind <= 0 || |fs[i].data| <= 0 || !fs[i].based {
        WiderChange(m0, block[..], LONG, Space(fs[..i]), Space(fs));
        return false;
      }
      slot := StoreField(block, slot, fs[i]);
      HeaderKept(m, block[..], Space(fs[..i]), Space(fs[..i + 1]), SH_VECTOR_T, |fs|, length);
      LaidKept(m, block[..], Space(fs[..i]), Space(fs[..i + 1]), LONG * DATA_HDR, fs[..i]);
      LaidNext(block[..], LONG * DATA_HDR, fs, i);
      TwoChanges(m0, m, block[..], LONG, Space(fs[..i]), Space(fs[..i + 1]));
    }
    assert fs[..|fs|] == fs;
    ok := true;
  }

  lemma NothingChanged(m: seq<Byte>, lo: int, hi: int)
    ensures SameBut(m, m, lo, hi)
  {
  }

  lemma NothingBehind(m: seq<Byte>, m': seq<Byte>, lo: int, hi: int, fs: seq<Field>)
    requires SameBut(m, m', lo, hi)
    ensures hi == LONG * DATA_HDR ==> SameBut(m, m', lo, Space(fs[..0]))
  {
  }

  lemma LaidNone(m: seq<Byte>, at: nat, fs: seq<Field>)
    ensures Laid(m, at, fs[..0]) && Extent(fs[..0]) == 0
  {
  }

  lemma WiderChange(m: seq<Byte>, m': seq<Byte>, lo: int, hi: int, wide: int)
    requires SameBut(m, m', lo, hi) && hi <= wide
    ensures SameBut(m, m', lo, wide)
  {
  }

  lemma TwoChanges(m: seq<Byte>, m1: seq<Byte>, m': seq<Byte>, lo: int, mid: int, hi: int)
    requires SameBut(m, m1, lo, mid) && SameBut(m1, m', mid, hi) && lo <= mid <= hi
    ensures SameBut(m, m', lo, hi)
  {
  }

  lemma WholeVector(fs: seq<Field>, i: nat)
    requires i < |fs|
    ensures Extent(fs[..i + 1]) == Extent(fs[..i]) + FieldSize(fs[i]) && Extent(fs[..i + 1]) <= Extent(fs)
    ensures fs[i] in fs
  {
    ExtentNext(fs, i);
    ExtentMonotone(fs, i + 1, |fs|);
    assert fs[..|fs|] == fs;
  }

  // ------------------------------------------------------------ loading

  /** An entry of the vector handed to the reader; `base` is where in the buffer its bytes start. */
  datatype Entry = Entry(kind: nat, len: nat, base: nat)

  /** The entries are the fields: same types, same lengths, same bytes, all of them before `end`. */
  ghost predicate Matches(entries: seq<Entry>, buffer: seq<Byte>, end: nat, fs: seq<Field>) {
    && |entries| == |fs| && end <= |buffer|
    && forall i :: 0 <= i < |fs| ==> EntryIs(entries[i], buffer, end, fs[i])
  }

  ghost predicate EntryIs(e: Entry, buffer: seq<Byte>, end: nat, f: Field) {
    e.kind == f.kind && e.len == |f.data| && e.base + e.len <= end <= |buffer| &&
      buffer[e.base..e.base + e.len] == f.data
  }

  /** initialize_item_vector: walks over the fields from `value` on. */
  method InitializeItemVector(buffer: array<Byte>, value: nat, count: nat, ghost end: nat, ghost fs: seq<Field>)
    returns (entries: seq<Entry>)
    requires |fs| == count && (forall f :: f in fs ==> FieldOk(f)) && Laid(buffer[..], value, fs)
    requires value + Extent(fs) <= end <= buffer.Length
    ensures Matches(entries, buffer[..], end, fs)
  {
    hide FieldAt, LongAt, Extent, FieldSize;
    entries := [];
    var current := value;
    LaidNone(buffer[..], value, fs);
    for i := 0 to count
      invariant |entries| == i && current == value + Extent(fs[..i])
      invariant forall j :: 0 <= j < i ==> EntryIs(entries[j], buffer[..], end, fs[j])
    {
      WholeVector(fs, i);
      FieldIs(buffer[..], current, fs[i]);
      var kind := LongAt(buffer[..], current);
      var len := LongAt(buffer[..], current + LONG);
      current := current + LONG;
      current := current + LONG;
      var e := Entry(kind, len, current);
      PaddedIs(len);
      if len <= LONG {
        current := current + LONG;
      } else {
        current := current + len / LONG * LONG;
        if len % LONG != 0 {
          current := current + LONG;
        }
      }
      entries := entries + [e];
    }
  }

  lemma FieldIs(m: seq<Byte>, at: nat, f: Field)
    requires FieldAt(m, at, f) && FieldOk(f)
    ensures at + FieldSize(f) <= |m| && LongAt(m, at) == f.kind && LongAt(m, at + LONG) == |f.data|
    ensures at + 2 * LONG + |f.data| <= at + FieldSize(f) && m[at + 2 * LONG..at + 2 * LONG + |f.data|] == f.data
    ensures FieldSize(f) == 2 * LONG + Padded(|f.data|)
  {
  }

  /** The branch on short data in initialize_item_vector agrees with the general rule. */
  lemma PaddedIs(len: nat)
    ensures 0 < len <= LONG ==> Padded(len) == LONG
    ensures len <= Padded(len) < len + LONG && Padded(len) % LONG == 0
  {
  }

  /** What the reader is given: where its bytes are, and the entries. */
  datatype Reading =
    | NoMemory
    | Item(buffer: array<Byte>, size: nat, kind: nat, length: nat, value: nat, entries: seq<Entry>)

  /** resize_buffer: the caller's buffer, if it is large enough, else a new one, if malloc grants it. */
  method ResizeBuffer(buffer: array?<Byte>, total: nat, granted: bool) returns (r: array?<Byte>)
    ensures r == null <==> !granted && (buffer == null || buffer.Length < total)
    ensures r != null ==> r.Length >= total
    ensures if buffer != null && buffer.Length >= total then r == buffer else r == null || fresh(r)
  {
    r := buffer;
    if r != null && r.Length < total {
      r := null;
    }
    if r == null && granted {
      r := new Byte[total];
    }
  }

  /**
   * copy_to_buffer: the words of the block behind the first, then the table of
   * entries; nothing, if a larger buffer is needed and malloc refuses it.  `fs`
   * is what the block was filled with.
   */
  method CopyToBuffer(block: array<Byte>, buffer: array?<Byte>, granted: bool, ghost fs: seq<Field>)
    returns (item: Reading)
    requires LONG * DATA_HDR <= block.Length == LONG * LongAt(block[..], LONG * DATA_SLOTS)
    requires Stored(block[..], fs) && (buffer != block)
    modifies buffer
    ensures item.NoMemory? <==> !granted && (buffer == null || buffer.Length < block.Length - 8 + 24 * |fs|)
    ensures item.Item? ==>
              && (item.buffer == buffer || fresh(item.buffer))
              && item.size == block.Length - LONG && item.size + VEC_SIZE * |fs| <= item.buffer.Length
              && item.buffer[..item.size] == old(block[LONG..])
              && item.kind == LongAt(old(block[..]), LONG * TYPE)
              && item.length == LongAt(old(block[..]), LONG * DATA_LENGTH)
              && Matches(item.entries, item.buffer[..], item.size, fs)
  {
    hide FieldAt, LongAt, Extent, FieldSize, Laid, Matches, HeaderAt;
    ghost var m := block[..];
    StoredHeader(m, fs);
    var size := LONG * LongAt(block[..], LONG * DATA_SLOTS) - LONG;
    var count := LongAt(block[..], LONG * VEC_CNT);
    var r := ResizeBuffer(buffer, size + VEC_SIZE * count, granted);
    if r == null {
      return NoMemory;
    }
    forall i | 0 <= i < size {
      r[i] := block[LONG + i];
    }
    assert block[..] == m && size == |m| - LONG;
    assert r[..][..size] == m[LONG..];
    assert r[..size] == r[..][..size] && block[LONG..] == m[LONG..];
    var kind, length := LongAt(block[..], LONG * TYPE), LongAt(block[..], LONG * DATA_LENGTH);
    var value := LONG * (DATA_HDR - 1);
    var entries;
    if count == 1 {
      entries := [Entry(kind, length, value)];
      OneEntry(m, r[..], fs);
    } else {
      LaidShifted(m, r[..], fs);
      entries := InitializeItemVector(r, value, count, size, fs);
    }
    item := Item(r, size, kind, length, value, entries);
  }

  /** A block holds a single value, or a vector of at least two. */
  ghost predicate Stored(m: seq<Byte>, fs: seq<Field>) {
    && LONG * DATA_HDR <= |m| && (forall f :: f in fs ==> FieldOk(f))
    && (if |fs| == 1 then
          && FieldOk(fs[0]) && HeaderAt(m, fs[0].kind, 1, |fs[0].data|)
          && LONG * DATA_HDR + |fs[0].data| <= |m|
          && m[LONG * DATA_HDR..LONG * DATA_HDR + |fs[0].data|] == fs[0].data
        else
          && |fs| >= 2 && HeaderAt(m, SH_VECTOR_T, |fs|, Extent(fs) + LONG * Ragged(fs))
          && Laid(m, LONG * DATA_HDR, fs) && Space(fs) <= |m|)
  }

  lemma StoredHeader(m: seq<Byte>, fs: seq<Field>)
    requires Stored(m, fs)
    ensures LongAt(m, LONG * VEC_CNT) == |fs| && |fs| >= 1
    ensures |fs| == 1 ==> LongAt(m, LONG * TYPE) == fs[0].kind && LongAt(m, LONG * DATA_LENGTH) == |fs[0].data|
  {
    hide LongAt, Laid, Extent, Ragged;
  }

  lemma OneEntry(m: seq<Byte>, r: seq<Byte>, fs: seq<Field>)
    requires Stored(m, fs) && |fs| == 1 && |m| - LONG <= |r| && r[..|m| - LONG] == m[LONG..]
    ensures Matches([Entry(fs[0].kind, |fs[0].data|, LONG * (DATA_HDR - 1))], r, |m| - LONG, fs)
  {
    hide LongAt, HeaderAt;
    var n := |fs[0].data|;
    var from := LONG * (DATA_HDR - 1);
    Shifted(m, r, LONG * DATA_HDR, LONG * DATA_HDR + n);
  }

  /** A stretch of the block, found one long earlier in the buffer. */
  lemma Shifted(m: seq<Byte>, r: seq<Byte>, lo: nat, hi: nat)
    requires LONG <= |m| && |m| - LONG <= |r| && r[..|m| - LONG] == m[LONG..] && LONG <= lo <= hi <= |m|
    ensures r[lo - LONG..hi - LONG] == m[lo..hi]
  {
    forall i | lo <= i < hi ensures r[i - LONG] == m[i] {
      assert r[..|m| - LONG][i - LONG] == m[LONG..][i - LONG];
    }
  }

  lemma FieldShifted(m: seq<Byte>, r: seq<Byte>, at: nat, f: Field)
    requires LONG <= |m| && |m| - LONG <= |r| && r[..|m| - LONG] == m[LONG..]
    requires at >= LONG && FieldAt(m, at, f)
    ensures FieldAt(r, at - LONG, f)
  {
    Shifted(m, r, at, at + LONG);
    Shifted(m, r, at + LONG, at + 2 * LONG);
    Shifted(m, r, at + 2 * LONG, at + 2 * LONG + |f.data|);
  }

  lemma LaidShifted(m: seq<Byte>, r: seq<Byte>, fs: seq<Field>)
    requires Stored(m, fs) && |fs| >= 2 && |m| - LONG <= |r| && r[..|m| - LONG] == m[LONG..]
    ensures Laid(r, LONG * (DATA_HDR - 1), fs) && LONG * (DATA_HDR - 1) + Extent(fs) <= |m| - LONG
  {
    hide FieldAt, LongAt, HeaderAt, Extent, Ragged;
    forall i | 0 <= i < |fs| ensures FieldAt(r, LONG * (DATA_HDR - 1) + Extent(fs[..i]), fs[i]) {
      FieldShifted(m, r, LONG * DATA_HDR + Extent(fs[..i]), fs[i]);
    }
  }

  // ------------------------------------------------------------ round trips

  /** The fields that the entries of an item stand for. */
  function Fields(entries: seq<Entry>, buffer: seq<Byte>): seq<Field>
    requires forall e :: e in entries ==> e.base + e.len <= |buffer|
  {
    seq(|entries|, i requires 0 <= i < |entries| =>
          Field(entries[i].kind, buffer[entries[i].base..entries[i].base + entries[i].len], true))
  }

  lemma MatchingFields(entries: seq<Entry>, buffer: seq<Byte>, end: nat, fs: seq<Field>)
    requires Matches(entries, buffer, end, fs) && forall f :: f in fs ==> FieldOk(f)
    ensures (forall e :: e in entries ==> e.base + e.len <= |buffer|) && Fields(entries, buffer) == fs
  {
    forall e | e in entries ensures e.base + e.len <= |buffer| {
      var i :| 0 <= i < |entries| && entries[i] == e;
      assert EntryIs(entries[i], buffer, end, fs[i]);
    }
    forall i | 0 <= i < |fs| ensures Fields(entries, buffer)[i] == fs[i] {
      assert EntryIs(entries[i], buffer, end, fs[i]) && FieldOk(fs[i]);
    }
  }

  /** A zeroed data block of the given capacity in longs, its first word set by the allocator. */
  method NewBlock(capacity: nat) returns (block: array<Byte>)
    requires DATA_HDR <= capacity <= LONG_MAX
    ensures fresh(block) && block.Length == LONG * capacity && LongAt(block[..], LONG * DATA_SLOTS) == capacity
  {
    block := new Byte[LONG * capacity](i => 0);
    StoreLong(block, DATA_SLOTS, capacity);
  }

  /**
   * Any vector that copy_vector accepts comes back from copy_to_buffer with the
   * same types, lengths and bytes, whatever the block is larger than needed.
   */
  method VectorRoundTrip(fs: seq<Field>, spare: nat, sec: nat, nsec: nat, id: nat) returns (ok: bool, back: seq<Field>)
    requires (forall f :: f in fs ==> InRange(f)) && |fs| <= INT_MAX
    requires Space(fs) + LONG * Ragged(fs) + LONG * spare <= LONG_MAX
    requires sec <= LONG_MAX && nsec <= LONG_MAX && id <= LONG_MAX
    ensures ok <==> |fs| >= 2 && forall f :: f in fs ==> f.kind > 0 && |f.data| > 0 && f.based
    ensures ok ==> back == fs
  {
    hide SameBut, FieldAt, Laid, HeaderAt, Extent, Ragged, FieldSize, LongAt, Matches, Fields;
    back := [];
    var space := CalcVectorSlots(fs);
    var block := NewBlock(space + spare);
    ok := CopyVector(block, sec, nsec, id, fs);
    if ok {
      var item := CopyToBuffer(block, null, true, fs);
      MatchingFields(item.entries, item.buffer[..], item.size, fs);
      back := Fields(item.entries, item.buffer[..]);
    }
  }

  /** The same for a single value. */
  method ValueRoundTrip(f: Field, spare: nat, sec: nat, nsec: nat, id: nat) returns (back: seq<Field>)
    requires FieldOk(f) && InRange(f) && |f.data| + LONG * (DATA_HDR + 1) + LONG * spare <= LONG_MAX
    requires sec <= LONG_MAX && nsec <= LONG_MAX && id <= LONG_MAX
    ensures back == [f]
  {
    hide SameBut, HeaderAt, LongAt, Matches, Fields;
    PaddedIs(|f.data|);
    var space := CalcDataSlots(|f.data|);
    var block := NewBlock(space + spare);
    CopyValue(block, sec, nsec, id, f);
    var item := CopyToBuffer(block, null, true, [f]);
    MatchingFields(item.entries, item.buffer[..], item.size, [f]);
    back := Fields(item.entries, item.buffer[..]);
  }

  // ------------------------------------------------------------ vectors as longs

  /** The fields of a vector take two longs each at least. */
  lemma SomeExtent(fs: seq<Field>)
    requires fs != []
    ensures Extent(fs) >= 2 * LONG
  {
  }

  lemma {:induction false} UnpackSize(ws: seq<int>)
    ensures |Unpack(ws)| == LONG * |ws|
  {
    hide OfLong;
    if ws != [] {
      WordBytes(ws[0]);
      UnpackSize(ws[1..]);
    }
  }

  lemma FieldMoved(m: seq<Byte>, at: nat, r: seq<Byte>, to: nat, f: Field)
    requires FieldAt(m, at, f) && to + FieldSize(f) <= |r| && r[to..to + FieldSize(f)] == m[at..at + FieldSize(f)]
    ensures FieldAt(r, to, f)
  {
    Part(m, at, r, to, FieldSize(f), 0, LONG);
    Part(m, at, r, to, FieldSize(f), LONG, 2 * LONG);
    Part(m, at, r, to, FieldSize(f), 2 * LONG, 2 * LONG + |f.data|);
  }

  lemma Part(m: seq<Byte>, at: nat, r: seq<Byte>, to: nat, n: nat, lo: nat, hi: nat)
    requires at + n <= |m| && to + n <= |r| && r[to..to + n] == m[at..at + n] && lo <= hi <= n
    ensures r[to + lo..to + hi] == m[at + lo..at + hi]
  {
    var a, b := m[at + lo..at + hi], r[to + lo..to + hi];
    forall j | 0 <= j < hi - lo ensures a[j] == b[j] {
      assert r[to..to + n][lo + j] == m[at..at + n][lo + j];
    }
  }

  /** Fields found at one place of a sequence of bytes are fields wherever these bytes are found. */
  lemma LaidMoved(m: seq<Byte>, at: nat, r: seq<Byte>, to: nat, n: nat, fs: seq<Field>)
    requires Laid(m, at, fs) && Extent(fs) <= n && at + n <= |m| && to + n <= |r| && r[to..to + n] == m[at..at + n]
    ensures Laid(r, to, fs)
  {
    hide FieldAt, Extent, FieldSize;
    forall i | 0 <= i < |fs| ensures FieldAt(r, to + Extent(fs[..i]), fs[i]) {
      MovedAt(m, at, r, to, n, fs, i);
    }
  }

  lemma MovedAt(m: seq<Byte>, at: nat, r: seq<Byte>, to: nat, n: nat, fs: seq<Field>, i: nat)
    requires Laid(m, at, fs) && Extent(fs) <= n && at + n <= |m| && to + n <= |r| && r[to..to + n] == m[at..at + n]
    requires i < |fs|
    ensures FieldAt(r, to + Extent(fs[..i]), fs[i])
  {
    hide FieldAt, Extent, FieldSize;
    assert FieldAt(m, at + Extent(fs[..i]), fs[i]);
    ExtentMonotone(fs, i, |fs|);
    assert fs[..|fs|] == fs;
    PartMoved(m, at, r, to, n, Extent(fs[..i]), fs[i]);
  }

  lemma PartMoved(m: seq<Byte>, at: nat, r: seq<Byte>, to: nat, n: nat, e: nat, f: Field)
    requires at + n <= |m| && to + n <= |r| && r[to..to + n] == m[at..at + n] && e + FieldSize(f) <= n
    requires FieldAt(m, at + e, f)
    ensures FieldAt(r, to + e, f)
  {
    hide FieldAt, FieldSize;
    Part(m, at, r, to, n, e, e + FieldSize(f));
    FieldMoved(m, at + e, r, to + e, f);
  }

  /** What is laid out at a place determines the fields. */
  lemma {:induction false} LaidOnce(m: seq<Byte>, at: nat, fs: seq<Field>, gs: seq<Field>, k: nat)
    requires Laid(m, at, fs) && Laid(m, at, gs) && k <= |fs| && k <= |gs|
    requires (forall f :: f in fs ==> FieldOk(f)) && (forall g :: g in gs ==> FieldOk(g))
    ensures fs[..k] == gs[..k]
  {
    hide FieldAt, Extent, FieldSize;
    if k > 0 {
      LaidOnce(m, at, fs, gs, k - 1);
      assert FieldAt(m, at + Extent(fs[..k - 1]), fs[k - 1]) && FieldAt(m, at + Extent(gs[..k - 1]), gs[k - 1]);
      OneField(m, at + Extent(fs[..k - 1]), fs[k - 1], gs[k - 1]);
      assert fs[..k] == fs[..k - 1] + [fs[k - 1]] && gs[..k] == gs[..k - 1] + [gs[k - 1]];
    }
  }

  lemma OneField(m: seq<Byte>, at: nat, f: Field, g: Field)
    requires FieldAt(m, at, f) && FieldAt(m, at, g) && FieldOk(f) && FieldOk(g)
    ensures f == g
  {
    hide LongAt;
  }

  /** Fields in a sequence of bytes end within it. */
  lemma LaidWithin(m: seq<Byte>, at: nat, fs: seq<Field>)
    requires Laid(m, at, fs) && fs != []
    ensures at + Extent(fs) <= |m|
  {
    hide FieldAt, Extent, FieldSize;
    var k := |fs| - 1;
    var e := Extent(fs[..k]);
    assert FieldAt(m, at + e, fs[k]);
    hide Laid;
    FieldEnd(m, at + e, fs[k]);
    ExtentNext(fs, k);
    assert fs[..k + 1] == fs;
  }

  lemma FieldEnd(m: seq<Byte>, at: nat, f: Field)
    requires FieldAt(m, at, f)
    ensures at + FieldSize(f) <= |m|
  {
  }

  /** The words of a buffer are those of the header, then the fields one after the other. */
  ghost predicate Spelled(ws: seq<int>, fs: seq<Field>) {
    Laid(Unpack(ws), LONG * (DATA_HDR - 1), fs)
  }

  /** The data of a block as longs: behind any six words of a header they spell the same fields. */
  lemma PackedSpelled(m: seq<Byte>, hdr: seq<int>, more: seq<int>, fs: seq<Field>)
    requires LONG * DATA_HDR <= |m| && |m| % LONG == 0 && |hdr| == DATA_HDR - 1
    requires Laid(m, LONG * DATA_HDR, fs) && Space(fs) <= |m|
    ensures LONG * |Pack(m[LONG * DATA_HDR..])| == |m| - LONG * DATA_HDR
    ensures Spelled(hdr + Pack(m[LONG * DATA_HDR..]) + more, fs)
  {
    hide Pack, Unpack, Laid, Extent;
    var data := m[LONG * DATA_HDR..];
    var ws := Pack(data);
    BytesRoundTrip(data);
    UnpackSize(ws);
    assert Unpack(ws) == data;
    UnpackTwo(hdr, ws);
    UnpackTwo(hdr + ws, more);
    UnpackSize(hdr);
    var r, n := Unpack(hdr + ws + more), |data|;
    assert r == Unpack(hdr) + data + Unpack(more);
    assert r[LONG * (DATA_HDR - 1)..LONG * (DATA_HDR - 1) + n] == data;
    assert m[LONG * DATA_HDR..LONG * DATA_HDR + n] == data;
    LaidMoved(m, LONG * DATA_HDR, r, LONG * (DATA_HDR - 1), n, fs);
  }

  /**
   * The words that copy_vector stores behind the header, and the length it
   * records, for a block of exactly the space asked for.
   */
  method VectorWords(fs: seq<Field>) returns (ok: bool, words: seq<int>, length: nat)
    requires (forall f :: f in fs ==> InRange(f)) && |fs| <= INT_MAX
    requires Space(fs) + LONG * Ragged(fs) <= LONG_MAX
    ensures ok <==> |fs| >= 2 && forall f :: f in fs ==> f.kind > 0 && |f.data| > 0 && f.based
    ensures length == Extent(fs) + LONG * Ragged(fs) == LONG * |words|
    ensures ok ==> forall hdr: seq<int>, more: seq<int> :: |hdr| == DATA_HDR - 1 ==> Spelled(hdr + words + more, fs)
  {
    hide SameBut, FieldAt, Laid, HeaderAt, Extent, Ragged, FieldSize, LongAt, Spelled, Pack;
    var space := CalcVectorSlots(fs);
    var block := NewBlock(space);
    ok := CopyVector(block, 0, 0, 0, fs);
    length := LONG * (space - DATA_HDR);
    words := Pack(block[LONG * DATA_HDR..]);
    ghost var m := block[..];
    assert m[LONG * DATA_HDR..] == block[LONG * DATA_HDR..];
    BytesRoundTrip(m[LONG * DATA_HDR..]);
    if ok {
      forall hdr: seq<int>, more: seq<int> | |hdr| == DATA_HDR - 1 ensures Spelled(hdr + words + more, fs) {
        PackedSpelled(m, hdr, more, fs);
      }
    }
  }

  /** initialize_item_vector on the words of an item. */
  method ReadVector(ws: seq<int>, count: nat, ghost fs: seq<Field>) returns (back: seq<Field>)
    requires |fs| == count >= 2 && (forall f :: f in fs ==> FieldOk(f)) && Spelled(ws, fs)
    ensures back == fs
  {
    hide Laid, Matches, Fields, Extent, Unpack;
    var bytes := Unpack(ws);
    var buffer := new Byte[|bytes|](i requires 0 <= i < |bytes| => bytes[i]);
    assert buffer[..] == bytes;
    LaidWithin(bytes, LONG * (DATA_HDR - 1), fs);
    var entries := InitializeItemVector(buffer, LONG * (DATA_HDR - 1), count, buffer.Length, fs);
    MatchingFields(entries, buffer[..], buffer.Length, fs);
    back := Fields(entries, buffer[..]);
  }

  // ------------------------------------------------------------ the recorded buffer size

  /** What update_buffer_size is told by an add: the longs asked for, and the table of entries. */
  function Recorded(space: nat, count: nat): nat {
    LONG * space + VEC_SIZE * count
  }

  /** What copy_to_buffer asks for: the longs of the block behind the first, and the table. */
  function Wanted(capacity: nat, count: nat): int {
    LONG * capacity - LONG + VEC_SIZE * count
  }

  /**
   * A buffer of the recorded size is large enough for the item exactly if its
   * block has at most one long more than was asked for; for a new block exactly
   * if that or the next number is a power of two.
   */
  lemma RecordedSufficesIff(space: nat, capacity: nat, count: nat)
    requires 0 < space <= 0x4000_0000
    ensures Recorded(space, count) >= Wanted(capacity, count) <==> capacity <= space + 1
    ensures capacity == RoundUp(space) ==>
              (Recorded(space, count) >= Wanted(capacity, count) <==> IsPow2(space) || IsPow2(space + 1))
  {
    hide RoundUp, Pow2;
    RoundUpIsLeastPower(space);
    if IsPow2(space) {
      var n :| 0 <= n && space == Pow2(n);
    } else if IsPow2(space + 1) {
      var n :| 0 <= n && space + 1 == Pow2(n);
    } else {
      assert RoundUp(space) != space && RoundUp(space) != space + 1;
    }
  }
}
