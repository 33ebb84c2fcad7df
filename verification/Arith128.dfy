/** 128-bit arithmetic on pairs of 64-bit words, low word first. */
module Arith128 {

  const B := 0x1_0000_0000_0000_0000
  const HALF := 0x1_0000_0000

  predicate Word(x: int) { 0 <= x < B }

  /** The value of two words. */
  function Value(lo: int, hi: int): int { hi * B + lo }

  predicate Pair(a: array<int>)
    reads a
  {
    a.Length == 2 && Word(a[0]) && Word(a[1])
  }

  function Of(a: array<int>): int
    reads a
    requires a.Length == 2
  {
    Value(a[0], a[1])
  }

  function Pow2(n: nat): (r: int)
    ensures r > 0
  {
    if n == 0 then 1 else 2 * Pow2(n - 1)
  }

  // ---------------------------------------------------------------- numbers

  lemma {:induction false} PowSplit(m: nat, n: nat)
    ensures Pow2(m + n) == Pow2(m) * Pow2(n) && Pow2(m) > 0
    decreases m
  {
    if m > 0 {
      PowSplit(m - 1, n);
    }
  }

  lemma Pow64()
    ensures Pow2(64) == B && Pow2(32) == HALF
  {
    assert Pow2(8) == 256;
    PowSplit(8, 8);
    PowSplit(16, 16);
    PowSplit(32, 32);
  }

  lemma DivMod(x: int, d: int, q: int, r: int)
    requires d > 0 && x == q * d + r && 0 <= r < d
    ensures x / d == q && x % d == r
  {
    var q', r' := x / d, x % d;
    assert x == q' * d + r' && 0 <= r' < d;
    assert (q - q') * d == r' - r;
    Between(q - q', d);
  }

  lemma Between(k: int, d: int)
    requires d > 0 && -d < k * d < d
    ensures k == 0
  {
  }

  lemma Under(x: int, y: int, d: int)
    requires 0 <= x < y && d >= 0
    ensures x * d + d <= y * d
  {
    assert y * d == x * d + d + (y - x - 1) * d;
    assert (y - x - 1) * d >= 0;
  }

  /** A value below the square of B is its two words. */
  lemma Words(v: int, lo: int, hi: int, k: int)
    requires Word(lo) && Word(hi) && v == k * (B * B) + Value(lo, hi)
    ensures v % (B * B) == Value(lo, hi)
  {
    Under(hi, B, B);
    DivMod(v, B * B, k, Value(lo, hi));
  }

  // ---------------------------------------------------------------- addition

  /** The sum, modulo 2^128; the result may overwrite an operand. */
  method Add128(a: array<int>, b: array<int>, sum: array<int>)
    requires Pair(a) && Pair(b) && sum.Length == 2
    modifies sum
    ensures Pair(sum) && Of(sum) == old(Of(a) + Of(b)) % (B * B)
  {
    var r0 := (a[0] + b[0]) % B;
    var carry := if r0 < a[0] || r0 < b[0] then 1 else 0;
    var r1 := (a[1] + b[1] + carry) % B;
    AddOk(a[0], a[1], b[0], b[1]);
    sum[0], sum[1] := r0, r1;
  }

  lemma Wraps(x: int)
    requires 0 <= x < 2 * B
    ensures x % B == if x < B then x else x - B
  {
    DivMod(x, B, if x < B then 0 else 1, if x < B then x else x - B);
  }

  lemma AddOk(a0: int, a1: int, b0: int, b1: int)
    requires Word(a0) && Word(a1) && Word(b0) && Word(b1)
    ensures var r0 := (a0 + b0) % B; var carry := if r0 < a0 || r0 < b0 then 1 else 0; var r1 := (a1 + b1 + carry) % B;
            Word(r0) && Word(r1) && Value(r0, r1) == (Value(a0, a1) + Value(b0, b1)) % (B * B)
  {
    var r0 := (a0 + b0) % B;
    Wraps(a0 + b0);
    var carry := if r0 < a0 || r0 < b0 then 1 else 0;
    assert a0 + b0 == carry * B + r0;
    var s := a1 + b1 + carry;
    Wraps(s);
    var r1, k := s % B, if s < B then 0 else 1;
    assert s == k * B + r1;
    assert Value(a0, a1) + Value(b0, b1) == (a1 + b1) * B + a0 + b0 == s * B + r0 == k * (B * B) + Value(r0, r1);
    Words(Value(a0, a1) + Value(b0, b1), r0, r1, k);
  }

  // ---------------------------------------------------------------- left shift

  /** What a left shift by less than 64 does: the bits shifted out of the low word are or-ed into the high word, whose
      low bits are then zero. */
  method ShiftLeft(a: array<int>, b: nat)
    requires Pair(a) && 0 <= b < 128
    modifies a
    ensures Pair(a) && Of(a) == old(Of(a)) * Pow2(b) % (B * B)
  {
    if b == 0 {
      Words(Of(a), a[0], a[1], 0);
      return;
    }
    if b >= 64 {
      ShiftFar(a[0], a[1], b);
      a[1] := a[0] * Pow2(b - 64) % B;
      a[0] := 0;
    } else {
      ShiftNear(a[0], a[1], b);
      var hi := a[1] * Pow2(b) % B;
      var mask := a[0] / Pow2(64 - b);
      assert hi % Pow2(b) == 0 && 0 <= mask < Pow2(b);
      a[1] := hi + mask;
      a[0] := a[0] * Pow2(b) % B;
    }
  }

  lemma ShiftFar(a0: int, a1: int, b: nat)
    requires Word(a0) && Word(a1) && 64 <= b < 128
    ensures var hi := a0 * Pow2(b - 64) % B; Word(hi) && Value(0, hi) == Value(a0, a1) * Pow2(b) % (B * B)
  {
    var p := Pow2(b - 64);
    Pow64();
    PowSplit(64, b - 64);
    var k, hi := a0 * p / B, a0 * p % B;
    assert a0 * p == k * B + hi;
    assert Value(a0, a1) * Pow2(b) == (a1 * B + a0) * (B * p) by {
      assert Pow2(b) == B * p;
    }
    Expand(a0, a1, p, k, hi);
    Words(Value(a0, a1) * Pow2(b), 0, hi, a1 * p + k);
  }

  lemma Expand(a0: int, a1: int, p: int, k: int, hi: int)
    requires a0 * p == k * B + hi
    ensures (a1 * B + a0) * (B * p) == (a1 * p + k) * (B * B) + Value(0, hi)
  {
    assert (a1 * B + a0) * (B * p) == (a1 * p) * (B * B) + (a0 * p) * B;
    assert (a0 * p) * B == k * (B * B) + hi * B;
  }

  /** A word times p, where p * c is B: what overflows is the quotient by c, what stays is a multiple of p. */
  lemma Scaled(x: int, p: int, c: int)
    requires Word(x) && p > 0 && c > 0 && p * c == B
    ensures 0 <= x / c < p && 0 <= x % c && x % c * p + p <= B
    ensures x * p / B == x / c && x * p % B == x % c * p && x * p % B % p == 0
  {
    var q, r := x / c, x % c;
    assert x == q * c + r && 0 <= r < c;
    Monotone(p, q, c);
    Monotone(q, -1, c);
    Under(r, c, p);
    assert x * p == q * B + r * p by {
      assert (q * c) * p == q * (c * p);
      assert x * p == (q * c) * p + r * p;
    }
    DivMod(x * p, B, q, r * p);
    DivMod(r * p, p, r, 0);
  }

  lemma Monotone(x: int, y: int, c: int)
    requires c > 0
    ensures x <= y ==> x * c <= y * c
  {
  }

  lemma ShiftNear(a0: int, a1: int, b: nat)
    requires Word(a0) && Word(a1) && 0 < b < 64
    ensures var hi := a1 * Pow2(b) % B; var mask := a0 / Pow2(64 - b); var lo := a0 * Pow2(b) % B;
            && hi % Pow2(b) == 0 && 0 <= mask < Pow2(b) && Word(lo) && Word(hi + mask)
            && Value(lo, hi + mask) == Value(a0, a1) * Pow2(b) % (B * B)
  {
    hide Pow2;
    var p, c := Pow2(b), Pow2(64 - b);
    Pow64();
    PowSplit(b, 64 - b);
    Scaled(a0, p, c);
    Scaled(a1, p, c);
    var k, hi, mask, lo := a1 * p / B, a1 * p % B, a0 / c, a0 * p % B;
    assert a1 * p == k * B + hi && a0 * p == mask * B + lo;
    Regroup(a0, a1, p, k, hi, mask, lo);
    Words(Value(a0, a1) * p, lo, hi + mask, k);
  }

  lemma Regroup(a0: int, a1: int, p: int, k: int, hi: int, mask: int, lo: int)
    requires a1 * p == k * B + hi && a0 * p == mask * B + lo
    ensures Value(a0, a1) * p == k * (B * B) + Value(lo, hi + mask)
  {
    assert Value(a0, a1) * p == (a1 * p) * B + a0 * p;
  }

  // ---------------------------------------------------------------- multiplication

  /** The full product of two 64-bit values. */
  method Multiply128(f: int, g: int, product: array<int>)
    requires Word(f) && Word(g) && product.Length == 2
    modifies product
    ensures Pair(product) && Of(product) == f * g
  {
    var hi1, hi2 := f / HALF, g / HALF;
    var lo1, lo2 := f % HALF, g % HALF;
    Products(hi1, lo1, hi2, lo2);
    product[0], product[1] := lo1 * lo2, hi1 * hi2;
    var tmp := new int[2];
    Pow64();
    tmp[0], tmp[1] := hi1 * lo2, 0;
    ShiftLeft(tmp, 32);
    Small(hi1 * lo2 * HALF);
    Add128(product, tmp, product);
    ghost var sofar := Value(lo1 * lo2, hi1 * hi2) + hi1 * lo2 * HALF;
    Recombine(f, g, hi1, lo1, hi2, lo2);
    Small(sofar);
    tmp[0], tmp[1] := hi2 * lo1, 0;
    ShiftLeft(tmp, 32);
    Small(hi2 * lo1 * HALF);
    Add128(product, tmp, product);
    Small(f * g);
  }

  lemma Small(v: int)
    requires 0 <= v < B * B
    ensures v % (B * B) == v
  {
    DivMod(v, B * B, 0, v);
  }

  lemma HalfProduct(x: int, y: int)
    requires 0 <= x < HALF && 0 <= y < HALF
    ensures 0 <= x * y < B
  {
    if y > 0 {
      Under(x, HALF, y);
      Under(y, HALF, HALF);
    }
  }

  lemma Products(hi1: int, lo1: int, hi2: int, lo2: int)
    requires 0 <= hi1 < HALF && 0 <= lo1 < HALF && 0 <= hi2 < HALF && 0 <= lo2 < HALF
    ensures Word(lo1 * lo2) && Word(hi1 * hi2) && Word(hi1 * lo2) && Word(hi2 * lo1)
  {
    HalfProduct(lo1, lo2);
    HalfProduct(hi1, hi2);
    HalfProduct(hi1, lo2);
    HalfProduct(hi2, lo1);
  }

  /** The four partial products add up, and nothing overflows on the way. */
  lemma Recombine(f: int, g: int, hi1: int, lo1: int, hi2: int, lo2: int)
    requires Word(f) && Word(g) && f == hi1 * HALF + lo1 && g == hi2 * HALF + lo2
    requires 0 <= hi1 && 0 <= hi2 && 0 <= lo1 && 0 <= lo2
    ensures Value(lo1 * lo2, hi1 * hi2) + hi1 * lo2 * HALF + hi2 * lo1 * HALF == f * g
    ensures 0 <= f * g < B * B && 0 <= Value(lo1 * lo2, hi1 * hi2) + hi1 * lo2 * HALF < B * B
    ensures 0 <= hi1 * lo2 * HALF < B * B && 0 <= hi2 * lo1 * HALF < B * B
  {
    assert f * g == (hi1 * HALF) * (hi2 * HALF) + (hi1 * HALF) * lo2 + lo1 * (hi2 * HALF) + lo1 * lo2;
    assert (hi1 * HALF) * (hi2 * HALF) == hi1 * hi2 * B;
    assert hi1 * hi2 >= 0 && hi1 * lo2 >= 0 && hi2 * lo1 >= 0 && lo1 * lo2 >= 0;
    if g > 0 {
      Under(f, B, g);
      Under(g, B, B);
    }
  }

  // ---------------------------------------------------------------- right shift

  /** Whether a right shift by b keeps every bit that should move from the high word to the low word. */
  predicate KeepsBits(hi: int, b: nat)
    requires b < 64
  {
    b <= 32 || hi % Pow2(b) < Pow2(64 - b)
  }

  /** The two words after a right shift by less than 64, as written. */
  function RightShifted(lo: int, hi: int, b: nat): (int, int)
    requires 0 < b < 64
  {
    (lo / Pow2(b) + hi % Pow2(64 - b) * Pow2(64 - b) % B, hi / Pow2(b))
  }

  /** A right shift as written: of the high word only the low 64 - b bits are moved down. */
  method ShiftRight(a: array<int>, b: nat)
    requires Pair(a) && 0 < b < 128
    modifies a
    ensures Pair(a)
    ensures b >= 64 ==> Of(a) == old(Of(a)) / Pow2(b)
    ensures b < 64 ==> (a[0], a[1]) == old(RightShifted(a[0], a[1], b))
    ensures b < 64 ==> (Of(a) == old(Of(a)) / Pow2(b) <==> old(KeepsBits(a[1], b)))
  {
    if b >= 64 {
      RightFar(a[0], a[1], b);
      a[0] := a[1] / Pow2(b - 64);
      a[1] := 0;
    } else {
      RightNear(a[0], a[1], b);
      var lo := a[0] / Pow2(b);
      var mask := Pow2(64 - b);
      var moved := a[1] % mask * Pow2(64 - b) % B;
      a[0] := lo + moved;
      a[1] := a[1] / Pow2(b);
    }
  }

  /** 2^95 shifted right by 33 should be 2^62, and comes out as 0. */
  lemma ShiftLoses()
    ensures RightShifted(0, 0x8000_0000, 33) == (0, 0) && Value(0, 0x8000_0000) / Pow2(33) == 0x4000_0000_0000_0000
  {
    PowSplit(32, 1);
    PowSplit(31, 1);
    Pow64();
    assert Pow2(31) == 0x8000_0000 && Pow2(33) == 0x2_0000_0000;
  }

  lemma RightFar(a0: int, a1: int, b: nat)
    requires Word(a0) && Word(a1) && 64 <= b < 128
    ensures var lo := a1 / Pow2(b - 64); Word(lo) && Value(lo, 0) == Value(a0, a1) / Pow2(b)
  {
    hide Pow2;
    var p := Pow2(b - 64);
    Pow64();
    PowSplit(64, b - 64);
    PowSplit(b - 64, 128 - b);
    var q, r := a1 / p, a1 % p;
    assert a1 == q * p + r && 0 <= r < p;
    Under(r, p, B);
    assert Value(a0, a1) == q * (B * p) + (r * B + a0) by {
      assert a1 * B == q * p * B + r * B;
    }
    DivMod(Value(a0, a1), B * p, q, r * B + a0);
    Scaled(a1, Pow2(128 - b), p);
  }

  lemma MovedShort(h: int, p: int, c: int, d: int)
    requires Word(h) && p > 0 && d > 0 && c == p * d && c > 0 && p * c == B
    ensures h % c * c % B == h % p * c
  {
    ModMod(h, p, d);
    Scaled(h % c, c, p);
  }

  lemma MovedLong(h: int, p: int, c: int, d: int)
    requires Word(h) && p > 0 && d > 0 && c > 0 && p == c * d && p * c == B
    ensures h % c * c % B == h % c * c && (h % c == h % p <==> h % p < c)
  {
    ModMod(h, c, d);
    Monotone(1, d, c);
    Under(h % c, c, c);
    Monotone(c, p, c);
    DivMod(h % c * c, B, 0, h % c * c);
    if h % p < c {
      DivMod(h % p, c, 0, h % p);
    }
  }

  /** The bits of the high word that should move down, and those that do. */
  lemma Moved(h: int, p: int, c: int, b: nat)
    requires Word(h) && 0 < b < 64 && p == Pow2(b) && c == Pow2(64 - b)
    ensures p * c == B && (h % c * c % B == h % p * c <==> KeepsBits(h, b))
  {
    hide Pow2;
    Pow64();
    PowSplit(b, 64 - b);
    if b <= 32 {
      PowSplit(b, 64 - 2 * b);
      MovedShort(h, p, c, Pow2(64 - 2 * b));
    } else {
      PowSplit(64 - b, 2 * b - 64);
      MovedLong(h, p, c, Pow2(2 * b - 64));
      Cancel(h % c, h % p, c);
    }
  }

  /** What moves down leaves room for the bits of the low word. */
  lemma MovedFits(h: int, p: int, c: int)
    requires Word(h) && p > 0 && c > 0 && p * c == B
    ensures 0 <= h % c * c % B && h % c * c % B + c <= B
  {
    Scaled(h % c, c, p);
  }

  lemma Cancel(x: int, y: int, c: int)
    requires c > 0
    ensures x * c == y * c <==> x == y
  {
    assert x * c - y * c == (x - y) * c;
    if x * c == y * c {
      Between(x - y, c);
    }
  }

  /** Remainders by a multiple. */
  lemma ModMod(h: int, p: int, d: int)
    requires p > 0 && d > 0 && h >= 0
    ensures p * d > 0 && h % (p * d) % p == h % p
  {
    assert p * d > 0;
    var q, r := h / (p * d), h % (p * d);
    var q', r' := r / p, r % p;
    assert h == q * (p * d) + r && r == q' * p + r';
    assert h == (q * d + q') * p + r' by {
      assert q * (p * d) == q * d * p;
    }
    DivMod(h, p, q * d + q', r');
  }

  lemma Rejoin(a0: int, a1: int, p: int, c: int)
    requires Word(a0) && Word(a1) && p > 0 && c > 0 && p * c == B
    ensures Value(a0, a1) / p == Value(a0 / p + a1 % p * c, a1 / p)
  {
    var q, r, hi, s := a0 / p, a0 % p, a1 / p, a1 % p;
    assert a0 == q * p + r && a1 == hi * p + s;
    assert hi * p * B == hi * B * p && s * B == s * c * p;
    assert a1 * B == hi * p * B + s * B;
    assert Value(q + s * c, hi) * p == hi * B * p + q * p + s * c * p;
    DivMod(Value(a0, a1), p, Value(q + s * c, hi), r);
  }

  lemma RightNear(a0: int, a1: int, b: nat)
    requires Word(a0) && Word(a1) && 0 < b < 64
    ensures var lo := a0 / Pow2(b); var mask := Pow2(64 - b); var moved := a1 % mask * Pow2(64 - b) % B;
        var hi := a1 / Pow2(b);
            && Word(lo + moved) && Word(hi)
            && (Value(lo + moved, hi) == Value(a0, a1) / Pow2(b) <==> KeepsBits(a1, b))
  {
    hide Pow2, KeepsBits;
    var p, c := Pow2(b), Pow2(64 - b);
    Moved(a1, p, c, b);
    MovedFits(a1, p, c);
    Scaled(a0, c, p);
    Scaled(a1, c, p);
    Rejoin(a0, a1, p, c);
  }

  // ---------------------------------------------------------------- standard deviation

  /** A 64-bit word as a signed number. */
  function Signed(x: int): int { if x >= B / 2 then x - B else x }

  function Sum(xs: seq<int>): int {
    if xs == [] then 0 else Sum(xs[..|xs| - 1]) + xs[|xs| - 1]
  }

  function SumSquares(xs: seq<int>): int {
    if xs == [] then 0 else SumSquares(xs[..|xs| - 1]) + Signed(xs[|xs| - 1]) * Signed(xs[|xs| - 1])
  }

  lemma AddMod(x: int, y: int, m: int)
    requires m > 0
    ensures (x % m + y) % m == (x + y) % m
  {
    var q := x / m;
    assert x == q * m + x % m;
    var z := x % m + y;
    var q', r' := z / m, z % m;
    assert z == q' * m + r';
    assert x + y == (q + q') * m + r' by {
      assert (q + q') * m == q * m + q' * m;
    }
    DivMod(x + y, m, q + q', r');
  }

  /** The four words of a standard deviation: how many values, their sum, and the sum of their squares. */
  predicate Summary(data: array<int>, xs: seq<int>)
    reads data
  {
    && data.Length == 4 && Word(data[2]) && Word(data[3])
    && data[0] == |xs| % B && data[1] == Sum(xs) % B && Value(data[2], data[3]) == SumSquares(xs) % (B * B)
  }

  lemma SquareOf(x: int)
    requires Word(x)
    ensures var m := if Signed(x) < 0 then -Signed(x) else Signed(x); Word(m) && m * m == Signed(x) * Signed(x)
  {
  }

  /** One more value; `xs` are those before it. */
  method Stddev(data: array<int>, x: int, ghost xs: seq<int>)
    requires Summary(data, xs) && Word(x)
    modifies data
    ensures Summary(data, xs + [x])
  {
    var acc, tmp := new int[2], new int[2];
    acc[0], acc[1] := data[2], data[3];
    var m := if Signed(x) < 0 then -Signed(x) else Signed(x);
    SquareOf(x);
    Multiply128(m, m, tmp);
    Add128(acc, tmp, acc);
    assert (xs + [x])[..|xs|] == xs;
    AddMod(|xs|, 1, B);
    AddMod(Sum(xs), x, B);
    AddMod(SumSquares(xs), m * m, B * B);
    data[0], data[1] := (data[0] + 1) % B, (data[1] + x) % B;
    data[2], data[3] := acc[0], acc[1];
  }

  /** Any sequence of values. */
  method StddevAll(data: array<int>, xs: seq<int>)
    requires data.Length == 4 && data[0] == data[1] == data[2] == data[3] == 0 && forall i :: 0 <= i < |xs| ==>
        Word(xs[i])
    modifies data
    ensures Summary(data, xs)
  {
    Small(0);
    var i := 0;
    assert xs[..0] == [];
    while i < |xs|
      invariant 0 <= i <= |xs| && Summary(data, xs[..i])
    {
      Stddev(data, xs[i], xs[..i]);
      assert xs[..i + 1] == xs[..i] + [xs[i]];
      i := i + 1;
    }
    assert xs[..|xs|] == xs;
  }
}
