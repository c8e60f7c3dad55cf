/**
 The arithmetic of split ordering: bit reversal of a hash word, the bucket an
 index mask selects, and why that bucket precedes every key that hashes to it.
 Everything is stated for an arbitrary word width; `BitReverse64` ties the byte
 table of the implementation to the general definition.
 */
module SplitOrder {

  function Pow2(n: nat): (p: nat)
    ensures p > 0
  {
    if n == 0 then 1 else 2 * Pow2(n - 1)
  }

  lemma {:induction false} Pow2Add(a: nat, b: nat)
    ensures Pow2(a + b) == Pow2(a) * Pow2(b)
  {
    if a > 0 {
      Pow2Add(a - 1, b);
      assert Pow2(a + b) == 2 * Pow2(a - 1 + b);
    }
  }

  lemma {:induction false} Pow2Monotone(a: nat, b: nat)
    requires a <= b
    ensures Pow2(a) <= Pow2(b)
    decreases b
  {
    if a < b {
      Pow2Monotone(a, b - 1);
    }
  }

  lemma Pow2Strict(a: nat, b: nat)
    requires a < b
    ensures Pow2(a) < Pow2(b)
  {
    Pow2Monotone(a, b - 1);
  }

  // ---------- words, bit by bit ----------

  /** `x & (2^o - 1)`: the low `o` bits of `x`. */
  function Low(o: nat, x: nat): (r: nat)
    ensures r < Pow2(o)
  {
    if o == 0 then 0 else x % 2 + 2 * Low(o - 1, x / 2)
  }

  /** `x >> o` */
  function High(o: nat, x: nat): (r: nat)
  {
    if o == 0 then x else High(o - 1, x / 2)
  }

  /** `x` with its `w` low bits in reverse order. */
  function Rev(w: nat, x: nat): (r: nat)
    ensures r < Pow2(w)
  {
    if w == 0 then 0 else (if x % 2 == 1 then Pow2(w - 1) else 0) + Rev(w - 1, x / 2)
  }

  lemma Doubled(p: nat, h: nat)
    ensures (2 * p) * h == 2 * (p * h)
  {
  }

  lemma {:induction false} LowHigh(o: nat, x: nat)
    ensures x == Low(o, x) + Pow2(o) * High(o, x)
  {
    if o > 0 {
      LowHigh(o - 1, x / 2);
      Doubled(Pow2(o - 1), High(o - 1, x / 2));
    }
  }

  lemma {:induction false} LowOfSmall(o: nat, x: nat)
    requires x < Pow2(o)
    ensures Low(o, x) == x && High(o, x) == 0
  {
    if o > 0 { LowOfSmall(o - 1, x / 2); }
  }

  lemma {:induction false} RevZero(w: nat)
    ensures Rev(w, 0) == 0
  {
    if w > 0 { RevZero(w - 1); }
  }

  lemma MulMonotone(a: int, b: int, c: nat)
    requires a <= b
    ensures a * c <= b * c
  {
  }

  lemma Distribute(a: nat, b: nat, c: nat)
    ensures (a + b) * c == a * c + b * c
  {
  }

  /** The low `o` bits of a word become the high bits of its reversal. */
  lemma {:induction false} RevSplit(w: nat, o: nat, x: nat)
    requires o <= w
    ensures Rev(w, x) == Rev(o, Low(o, x)) * Pow2(w - o) + Rev(w - o, High(o, x))
    decreases o
  {
    if o > 0 {
      var p, m, y := Pow2(o - 1), Pow2(w - o), x / 2;
      var lo := Rev(o - 1, Low(o - 1, y));
      RevSplit(w - 1, o - 1, y);
      Pow2Add(o - 1, w - o);
      assert Low(o, x) / 2 == Low(o - 1, y) && Low(o, x) % 2 == x % 2;
      assert Rev(o, Low(o, x)) == (if x % 2 == 1 then p else 0) + lo;
      Distribute(p, lo, m);
    }
  }

  /** The most significant of `w` bits becomes the least significant one. */
  lemma {:induction false} RevTop(w: nat, bit: nat, y: nat)
    requires w > 0 && bit < 2 && y < Pow2(w - 1)
    ensures Rev(w, bit * Pow2(w - 1) + y) == bit + 2 * Rev(w - 1, y)
  {
    if w == 1 {
      assert Rev(1, bit) == bit + Rev(0, bit / 2);
    } else {
      var x := bit * Pow2(w - 1) + y;
      RevTop(w - 1, bit, y / 2);
      assert x / 2 == bit * Pow2(w - 2) + y / 2 && x % 2 == y % 2;
    }
  }

  /** Reversing a word twice gives the word back. */
  lemma {:induction false} RevInvolution(w: nat, x: nat)
    requires x < Pow2(w)
    ensures Rev(w, Rev(w, x)) == x
  {
    if w > 0 {
      RevInvolution(w - 1, x / 2);
      RevTop(w, x % 2, Rev(w - 1, x / 2));
      assert Rev(w, x) == (x % 2) * Pow2(w - 1) + Rev(w - 1, x / 2);
    }
  }

  /** Distinct words have distinct reversals, so bucket nodes never tie. */
  lemma RevInjective(w: nat, x: nat, y: nat)
    requires x < Pow2(w) && y < Pow2(w) && Rev(w, x) == Rev(w, y)
    ensures x == y
  {
    RevInvolution(w, x);
    RevInvolution(w, y);
  }

  /** The reversal of a bucket index of a table of `2^o` buckets. */
  lemma RevOfIndex(w: nat, o: nat, j: nat)
    requires o <= w && j < Pow2(o)
    ensures Rev(w, j) == Rev(o, j) * Pow2(w - o)
  {
    RevSplit(w, o, j);
    LowOfSmall(o, j);
    RevZero(w - o);
  }

  // ---------- the bucket of a hash ----------

  /** `lookup_bucket`: the index a hash selects in a table of `2^o` buckets. */
  function BucketIndex(o: nat, hash: nat): (j: nat)
    ensures j < Pow2(o)
  {
    Low(o, hash)
  }

  /** Order of two multiples of `m`, with a remainder on one side. */
  lemma MultipleOrder(a: nat, b: nat, m: nat, r: nat)
    requires a < b && r < m
    ensures a * m + r < b * m
  {
    MulMonotone(a + 1, b, m);
    assert (a + 1) * m == a * m + m;
  }

  /** Another bucket of the table sorts before the selected bucket or after the hash. */
  lemma BucketGap(w: nat, o: nat, hash: nat, j: nat)
    requires o <= w && j < Pow2(o) && j != BucketIndex(o, hash)
    ensures Rev(w, j) < Rev(w, BucketIndex(o, hash)) || Rev(w, hash) < Rev(w, j)
  {
    var b := BucketIndex(o, hash);
    RevSplit(w, o, hash);
    RevOfIndex(w, o, b);
    RevOfIndex(w, o, j);
    if Rev(o, j) < Rev(o, b) {
      MultipleOrder(Rev(o, j), Rev(o, b), Pow2(w - o), 0);
    } else if Rev(o, b) < Rev(o, j) {
      MultipleOrder(Rev(o, b), Rev(o, j), Pow2(w - o), Rev(w - o, High(o, hash)));
    } else {
      RevInjective(o, j, b);
    }
  }

  /**
   The bucket that `lookup_bucket` selects sorts no later than the hash, and no
   other bucket of the table lies between the two.
   */
  lemma BucketPrecedes(w: nat, o: nat, hash: nat)
    requires o <= w
    ensures Rev(w, BucketIndex(o, hash)) <= Rev(w, hash)
    ensures forall j :: 0 <= j < Pow2(o) && j != BucketIndex(o, hash) ==>
              Rev(w, j) < Rev(w, BucketIndex(o, hash)) || Rev(w, hash) < Rev(w, j)
  {
    RevSplit(w, o, hash);
    RevOfIndex(w, o, BucketIndex(o, hash));
    forall j | 0 <= j < Pow2(o) && j != BucketIndex(o, hash)
      ensures Rev(w, j) < Rev(w, BucketIndex(o, hash)) || Rev(w, hash) < Rev(w, j)
    {
      BucketGap(w, o, hash, j);
    }
  }

  lemma {:induction false} LowOfUpperHalf(o: nat, j: nat)
    requires Pow2(o) <= j < Pow2(o + 1)
    ensures Low(o, j) == j - Pow2(o)
  {
    if o > 0 { LowOfUpperHalf(o - 1, j / 2); }
  }

  /** A bucket of the upper half of a table sorts strictly after its parent, the bucket `2^o` below it. */
  lemma ParentPrecedes(w: nat, o: nat, j: nat)
    requires o < w && Pow2(o) <= j < Pow2(o + 1)
    ensures BucketIndex(o, j) == j - Pow2(o)
    ensures Rev(w, j - Pow2(o)) < Rev(w, j)
  {
    LowOfUpperHalf(o, j);
    BucketPrecedes(w, o, j);
    Pow2Monotone(o + 1, w);
    if Rev(w, j - Pow2(o)) == Rev(w, j) {
      RevInjective(w, j - Pow2(o), j);
    }
  }

  // ---------- the byte table ----------

  /** The order `0, 2, 1, 3` in which each macro level of the table lists its four parts. */
  function Swap2(a: nat): (r: nat)
    requires a < 4
  {
    if a == 1 then 2 else if a == 2 then 1 else a
  }

  // Entry `i` of the list that the macro of the same name lays out from base `n`.
  function R2(n: nat, i: nat): (e: nat)
    requires i < 4
  {
    n + Swap2(i) * 64
  }

  function R4(n: nat, i: nat): (e: nat)
    requires i < 16
  {
    R2(n + Swap2(i / 4) * 16, i % 4)
  }

  function R6(n: nat, i: nat): (e: nat)
    requires i < 64
  {
    R4(n + Swap2(i / 16) * 4, i % 16)
  }

  /** `BitReverseTable256[i]` */
  function BitReverseTable(i: nat): (e: nat)
    requires i < 256
  {
    R6(Swap2(i / 64), i % 64)
  }

  lemma RevTwoMore(w: nat, x: nat)
    requires w >= 2
    ensures Rev(w, x) == Swap2(x % 4) * Pow2(w - 2) + Rev(w - 2, x / 4)
  {
    assert Rev(w, x) == (if x % 2 == 1 then 2 * Pow2(w - 2) else 0) + Rev(w - 1, x / 2);
    assert Rev(w - 1, x / 2) == (if x / 2 % 2 == 1 then Pow2(w - 2) else 0) + Rev(w - 2, x / 2 / 2);
  }

  lemma RevByte(v: nat)
    requires v < 256
    ensures Rev(8, v) == Swap2(v % 4) * 64 + Swap2(v / 4 % 4) * 16 + Swap2(v / 16 % 4) * 4 + Swap2(v / 64 % 4)
  {
    var x, y, z := v / 4, v / 16, v / 64;
    assert x / 4 == y && y / 4 == z;
    Pow2Small();
    RevTwoMore(8, v); RevTwoMore(6, x); RevTwoMore(4, y); RevTwoMore(2, z);
  }

  lemma Digits(v: nat)
    requires v < 256
    ensures v % 64 / 16 == v / 16 % 4 && v % 64 % 16 / 4 == v / 4 % 4
    ensures v % 64 % 16 % 4 == v % 4 && v / 64 % 4 == v / 64
  {
    DigitsOf(v / 64, v / 16 % 4, v / 4 % 4, v % 4);
    assert v / 4 == 4 * (v / 16) + v / 4 % 4;
  }

  lemma DigitsOf(a: nat, b: nat, c: nat, d: nat)
    requires a < 4 && b < 4 && c < 4 && d < 4
    ensures var v := 64 * a + 16 * b + 4 * c + d;
            v % 64 == 16 * b + 4 * c + d && v % 64 / 16 == b && v % 64 % 16 == 4 * c + d
            && v % 64 % 16 / 4 == c && v % 64 % 16 % 4 == d
  {
    var q := 4 * c + d;
    var r := 16 * b + q;
    assert (64 * a + r) % 64 == r;
    assert r / 16 == b;
    assert r % 16 == q;
    assert q / 4 == c;
    assert q % 4 == d;
  }

  /** Each table entry is the reversal of its index. */
  lemma TableReverses(v: nat)
    requires v < 256
    ensures BitReverseTable(v) == Rev(8, v)
  {
    Digits(v);
    RevByte(v);
  }

  lemma Pow2Small()
    ensures Pow2(0) == 1 && Pow2(2) == 4 && Pow2(4) == 16 && Pow2(6) == 64 && Pow2(8) == 256
  {
    assert Pow2(2) == 4;
    assert Pow2(4) == 16;
    assert Pow2(6) == 64;
  }

  /** `bit_reverse_u8` applied to the low byte of a word. */
  function BitReverse8(v: nat): (r: nat)
  {
    BitReverseTable(v % 256)
  }

  /** `v << k` */
  function Shifted(v: nat, k: nat): nat { v * Pow2(k) }

  /**
   `n` table look-ups from the least significant byte up, as `bit_reverse_u32`
   and `bit_reverse_u64` do for 4 and 8 bytes.
   */
  function BitReverseBytes(n: nat, v: nat): (r: nat)
  {
    if n == 0 then 0 else Shifted(BitReverse8(v), 8 * (n - 1)) + BitReverseBytes(n - 1, v / 256)
  }

  lemma LowByte(v: nat)
    ensures Low(8, v) == v % 256 && High(8, v) == v / 256
  {
    LowHigh(8, v);
    Pow2Small();
    var lo, hi := Low(8, v), High(8, v);
    assert v == lo + 256 * hi && lo < 256;
  }

  /**
   The byte-wise reversal through the table is the bit reversal of the whole
   word, for a word of any number of bytes.
   */
  lemma {:induction false} BytesReverse(n: nat, v: nat)
    ensures BitReverseBytes(n, v) == Rev(8 * n, v)
  {
    if n > 0 {
      LowByte(v);
      RevSplit(8 * n, 8, v);
      TableReverses(v % 256);
      BytesReverse(n - 1, v / 256);
    }
  }

  /** `bit_reverse_u64` is its own inverse and agrees with the definition of split order. */
  lemma BitReverse64(v: nat)
    requires v < Pow2(64)
    ensures BitReverseBytes(8, v) == Rev(64, v)
    ensures BitReverseBytes(8, BitReverseBytes(8, v)) == v
  {
    BytesReverse(8, v);
    BytesReverse(8, Rev(64, v));
    RevInvolution(64, v);
  }
}
