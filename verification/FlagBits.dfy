/**
 * Single bits of the flag word, as arithmetic on the word.
 */
module FlagBits {

  /** The flag word has the bit of `mask`, a power of two. */
  predicate HasFlag(flags: int, mask: int) {
    mask > 0 && flags / mask % 2 == 1
  }

  function WithFlag(flags: int, mask: int): int {
    if HasFlag(flags, mask) then flags else flags + mask
  }

  function WithoutFlag(flags: int, mask: int): int {
    if HasFlag(flags, mask) then flags - mask else flags
  }

  predicate IsMask(m: int) {
    m == 1 || m == 2 || m == 4 || m == 8 || m == 16 || m == 32 || m == 64 || m == 128 || m == 256
  }

  lemma ProductBound(s: int, d: int)
    requires s > 0
    ensures d >= 1 ==> s * d >= s
    ensures d <= -1 ==> s * d <= -s
    ensures d >= 0 ==> s * d >= 0
  {
  }

  lemma DivUnique(x: int, s: int, c: int, r: int)
    requires s > 0 && x == s * c + r && 0 <= r < s
    ensures x / s == c && x % s == r
  {
    var d := x / s - c;
    assert s * d == r - x % s;
    ProductBound(s, d);
  }

  /** Adding a multiple of a higher bit does not change whether a bit is set. */
  lemma HigherBit(f: int, m: int, k: int)
    requires m > 0
    ensures (f + 2 * k * m) / m % 2 == f / m % 2
  {
    DivUnique(f + 2 * k * m, m, f / m + 2 * k, f % m);
  }

  /** Nor does the last place below change a higher part. */
  lemma LowerBit(f: int, m: int, k: int)
    requires m > 0 && k > 0 && f / m % 2 == 0
    ensures (f + m) / (2 * m * k) == f / (2 * m * k)
  {
    var r, a, n := f % m, f / m / 2, 2 * m;
    assert f == n * a + r;
    var d, e := a / k, a % k;
    var b := n * k;
    assert n * a == b * d + n * e by {
      assert a == k * d + e;
    }
    ProductBound(n, k - 1 - e);
    assert n * e <= b - n;
    ProductBound(n, e);
    DivUnique(f, b, d, n * e + r);
    DivUnique(f + m, b, d, n * e + r + m);
    assert b == 2 * m * k;
  }

  lemma Multiple(small: int, big: int) returns (k: int)
    requires IsMask(big) && IsMask(small) && small < big
    ensures k > 0 && big == 2 * k * small && big == 2 * small * k
  {
    k := big / (2 * small);
  }

  /** Adding the bit of n where it is off does not change any other bit. */
  lemma OtherBit(f: int, m: int, n: int)
    requires IsMask(m) && IsMask(n) && m != n && !HasFlag(f, n)
    ensures HasFlag(f + n, m) <==> HasFlag(f, m)
  {
    if m < n {
      var k := Multiple(m, n);
      HigherBit(f, m, k);
    } else {
      var k := Multiple(n, m);
      LowerBit(f, n, k);
    }
  }

  lemma OwnBit(f: int, n: int)
    requires n > 0
    ensures HasFlag(f + n, n) <==> !HasFlag(f, n)
    ensures HasFlag(f - n, n) <==> !HasFlag(f, n)
  {
    DivUnique(f + n, n, f / n + 1, f % n);
    DivUnique(f - n, n, f / n - 1, f % n);
  }

  /** Turning one flag on or off leaves the others alone. */
  lemma FlagsApart(f: int, m: int, n: int)
    requires IsMask(m) && IsMask(n)
    ensures HasFlag(WithFlag(f, n), m) <==> m == n || HasFlag(f, m)
    ensures HasFlag(WithoutFlag(f, n), m) <==> m != n && HasFlag(f, m)
  {
    assert n > 0;
    hide HasFlag;
    OwnBit(f, n);
    if m != n {
      if HasFlag(f, n) {
        OtherBit(f - n, m, n);
      } else {
        OtherBit(f, m, n);
      }
    }
  }

  // ------------------------------------------------------------ several flags at once

  /** The flags of all six events; they are next to each other. */
  const EVENT_FLAGS := 504

  /** What set_flag and clear_flag are called with: one flag, or those of all events. */
  predicate IsFlags(n: int) {
    IsMask(n) || n == EVENT_FLAGS
  }

  /** The flag `m` is one of `n`. */
  predicate Among(m: int, n: int) {
    m == n || (n == EVENT_FLAGS && m >= 8)
  }

  /** `flags & n`. */
  function Common(flags: int, n: int): int {
    if n == EVENT_FLAGS then flags / 8 % 64 * 8 else if HasFlag(flags, n) then n else 0
  }

  /** set_flag: all of them if none is set, else nothing. */
  function SetFlags(flags: int, n: int): int {
    if Common(flags, n) == 0 then flags + n else flags
  }

  /** clear_flag: those of them that are set. */
  function ClearFlags(flags: int, n: int): int {
    flags - Common(flags, n)
  }

  lemma Reassociate(d: int, k: int, h: int, p: int)
    requires p == k * d
    ensures d * (k * h) == p * h
  {
  }

  lemma Distribute(d: int, a: int, e: int)
    ensures 8 * d * (2 * a + e) == 16 * (d * a) + 8 * (d * e)
  {
  }

  lemma Division(c: int, d: int)
    requires d > 0
    ensures c == d * (c / d) + c % d && 0 <= c % d < d
  {
  }

  /** The places above the events are even multiples, those below do not reach a flag. */
  lemma PartOf(f: int, c: int, h: int, d: int, k: int, e: int, g: int)
    requires d > 0 && k * d == 32 && 0 <= g < d && c == d * e + g && f == 512 * h + 8 * c + f % 8
    ensures f / (8 * d) % 2 == e % 2
  {
    var n, a := 8 * d, k * h;
    Reassociate(d, k, h, 32);
    Distribute(d, a, e);
    var q := 2 * a + e;
    assert f == n * q + (8 * g + f % 8);
    DivUnique(f, n, q, 8 * g + f % 8);
  }

  lemma BitOfPart(f: int, c: int, d: int, k: int)
    requires d > 0 && k * d == 32 && c == f / 8 % 64
    ensures f / (8 * d) % 2 == c / d % 2
  {
    Division(c, d);
    var e, g := c / d, c % d;
    assert f == 512 * (f / 512) + 8 * c + f % 8;
    PartOf(f, c, f / 512, d, k, e, g);
  }

  lemma EventParts(f: int, m: int)
    requires IsMask(m) && m >= 8
    ensures HasFlag(f, m) <==> f / 8 % 64 / (m / 8) % 2 == 1
  {
    var d := m / 8;
    BitOfPart(f, f / 8 % 64, d,
              if d == 1 then 32 else if d == 2 then 16 else if d == 4 then 8 else if d == 8 then 4
                else if d == 16 then 2 else 1);
  }

  lemma SomeEvent(f: int)
    ensures Common(f, EVENT_FLAGS) != 0 <==> exists m :: IsMask(m) && m >= 8 && HasFlag(f, m)
  {
    var c := f / 8 % 64;
    if c != 0 {
      var m := if c / 32 % 2 == 1 then 256 else if c / 16 % 2 == 1 then 128 else if c / 8 % 2 == 1 then 64
               else if c / 4 % 2 == 1 then 32 else if c / 2 % 2 == 1 then 16 else 8;
      EventParts(f, m);
      assert IsMask(m) && HasFlag(f, m);
    } else {
      forall m | IsMask(m) && m >= 8 ensures !HasFlag(f, m) {
        EventParts(f, m);
      }
    }
  }

  /** The three flags below those of the events. */
  lemma LowFlag(f: int, c: int, m: int)
    requires m == 1 || m == 2 || m == 4
    ensures HasFlag(f + 8 * c, m) <==> HasFlag(f, m)
  {
    if m == 1 {
      HigherBit(f, 1, 4 * c);
    } else if m == 2 {
      HigherBit(f, 2, 2 * c);
    } else {
      HigherBit(f, 4, c);
    }
  }

  lemma SetEvents(f: int, m: int)
    requires IsMask(m) && Common(f, EVENT_FLAGS) == 0
    ensures HasFlag(f + EVENT_FLAGS, m) <==> m >= 8 || HasFlag(f, m)
  {
    hide HasFlag;
    if m >= 8 {
      assert (f + 504) / 8 % 64 == 63;
      EventParts(f + EVENT_FLAGS, m);
    } else {
      LowFlag(f, 63, m);
    }
  }

  lemma ClearEvents(f: int, m: int)
    requires IsMask(m)
    ensures HasFlag(f - Common(f, EVENT_FLAGS), m) <==> m < 8 && HasFlag(f, m)
  {
    hide HasFlag;
    var c := f / 8 % 64;
    if m >= 8 {
      assert (f - 8 * c) / 8 % 64 == 0;
      EventParts(f - 8 * c, m);
    } else {
      LowFlag(f, -c, m);
    }
  }

  /**
   * set_flag and clear_flag on one flag or on those of all events: no other flag
   * changes; set_flag sets all of them, unless one of them is set already.
   */
  lemma FlagsOf(f: int, m: int, n: int)
    requires IsMask(m) && IsFlags(n)
    ensures HasFlag(SetFlags(f, n), m) <==> HasFlag(f, m) || (Among(m, n) && Common(f, n) == 0)
    ensures HasFlag(ClearFlags(f, n), m) <==> HasFlag(f, m) && !Among(m, n)
    ensures Common(f, n) != 0 <==> exists k :: IsMask(k) && Among(k, n) && HasFlag(f, k)
  {
    if n == EVENT_FLAGS {
      hide HasFlag;
      SomeEvent(f);
      ClearEvents(f, m);
      if Common(f, n) == 0 {
        SetEvents(f, m);
      }
    } else {
      FlagsApart(f, m, n);
      if HasFlag(f, n) {
        assert Among(n, n);
      }
    }
  }
}
