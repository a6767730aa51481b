/** Integer helpers shared by the concat planner and the matmul reshaper:
    ceiling division and round-up (utils::div_up / utils::rnd_up), the
    greatest common divisor (math::gcd), products and sums of dimension
    lists, powers of two for mask shifts, C++'s truncating division and the
    wrap-around of the casts to 32-bit and 64-bit kernel arguments. */
module Arith {

  const IntMax: int := 0x7fff_ffff

  function Min(a: int, b: int): (r: int)
    ensures r <= a && r <= b && (r == a || r == b)
  {
    if a < b then a else b
  }

  function Max(a: int, b: int): (r: int)
    ensures r >= a && r >= b && (r == a || r == b)
  {
    if a < b then b else a
  }

  /** utils::div_up: the least multiple count of `b` covering `a`. */
  function DivUp(a: nat, b: nat): (r: nat)
    requires b > 0
    ensures r * b >= a && r * b < a + b
  {
    DivMulBounds(a + b - 1, b);
    (a + b - 1) / b
  }

  /** utils::rnd_up: `a` rounded up to a multiple of `b`. */
  function RndUp(a: nat, b: nat): (r: nat)
    requires b > 0
    ensures r % b == 0 && a <= r < a + b
  {
    MulDivCancel(DivUp(a, b), b);
    DivUp(a, b) * b
  }

  lemma DivMulBounds(a: nat, b: nat)
    requires b > 0
    ensures (a / b) * b <= a < (a / b) * b + b
  {
  }

  /** Dividing an exact multiple gives back the factor, with no remainder. */
  lemma MulDivCancel(x: int, g: int)
    requires g > 0
    ensures (x * g) / g == x && (x * g) % g == 0
  {
    var q, r := (x * g) / g, (x * g) % g;
    assert x * g == q * g + r && 0 <= r < g;
    assert (x - q) * g == r;
    if x - q >= 1 {
      MulMonotone(x - q, g);
    } else if x - q <= -1 {
      MulMonotone(q - x, g);
    }
  }

  lemma MulMonotone(k: int, g: int)
    requires k >= 1 && g > 0
    ensures k * g >= g
  {
  }

  /** A remainder of zero means the value is the quotient times the divisor. */
  lemma ExactDivision(a: int, d: int)
    requires d > 0 && a % d == 0
    ensures a == (a / d) * d
  {
  }

  /** A sum of two multiples of `g` is a multiple of `g`. */
  lemma SumOfMultiples(x: int, y: int, g: int)
    requires g > 0
    ensures (x * g + y * g) % g == 0
  {
    assert x * g + y * g == (x + y) * g;
    MulDivCancel(x + y, g);
  }

  /** math::gcd: Euclid's algorithm on non-negative values. */
  function Gcd(a: nat, b: nat): nat
    decreases b
  {
    if b == 0 then a else Gcd(b, a % b)
  }

  lemma {:induction false} GcdDivides(a: nat, b: nat)
    requires a > 0 || b > 0
    ensures Gcd(a, b) > 0 && a % Gcd(a, b) == 0 && b % Gcd(a, b) == 0
    decreases b
  {
    if b == 0 {
      MulDivCancel(1, a);
    } else {
      var r := a % b;
      GcdDivides(b, r);
      var g := Gcd(b, r);
      ExactDivision(b, g);
      ExactDivision(r, g);
      var q := a / b;
      assert a == q * b + r;
      calc {
        a;
        q * ((b / g) * g) + (r / g) * g;
        (q * (b / g)) * g + (r / g) * g;
      }
      SumOfMultiples(q * (b / g), r / g, g);
    }
  }

  /** Product of a list of extents (the batch products of the matmul and the
      strides of nested blocks). */
  function Product(s: seq<int>): int
  {
    if s == [] then 1 else s[0] * Product(s[1..])
  }

  lemma {:induction false} ProductPositive(s: seq<int>)
    requires forall i :: 0 <= i < |s| ==> s[i] > 0
    ensures Product(s) > 0
  {
    if s != [] {
      ProductPositive(s[1..]);
    }
  }

  /** Taking one more element from the back multiplies the product by it. */
  lemma {:induction false} ProductSnoc(s: seq<int>, x: int)
    ensures Product(s + [x]) == Product(s) * x
  {
    if s == [] {
      assert [x][1..] == [];
    } else {
      assert (s + [x])[1..] == s[1..] + [x];
      ProductSnoc(s[1..], x);
    }
  }

  lemma {:induction false} ProductAppend(s: seq<int>, t: seq<int>)
    ensures Product(s + t) == Product(s) * Product(t)
  {
    if s == [] {
      assert s + t == t;
    } else {
      assert (s + t)[1..] == s[1..] + t;
      ProductAppend(s[1..], t);
    }
  }

  function Sum(s: seq<int>): int
  {
    if s == [] then 0 else Sum(s[..|s| - 1]) + s[|s| - 1]
  }

  /** `x >> n` for a non-negative `x`. */
  function Shr(x: nat, n: nat): nat
  {
    if n == 0 then x else Shr(x / 2, n - 1)
  }

  /** `(x >> i) & 1`: bit `i` of a non-negative mask. */
  predicate Bit(x: nat, i: nat)
  {
    Shr(x, i) % 2 == 1
  }

  /** Bit `i` of `x >> n` is bit `i + n` of `x`: shifting a mask right by
      n renumbers its dimensions from the n-th on. */
  lemma {:induction false} ShrBit(x: nat, n: nat, i: nat)
    ensures Bit(Shr(x, n), i) == Bit(x, i + n)
  {
    if n > 0 {
      ShrBit(x / 2, n - 1, i);
      assert Shr(x, i + n) == Shr(x / 2, i + n - 1);
    }
  }

  function Abs(x: int): nat
  {
    if x < 0 then -x else x
  }

  /** C++ integer division, which truncates toward zero (Dafny's `/` is
      Euclidean). */
  function CDiv(a: int, b: int): (q: int)
    requires b != 0
    ensures a >= 0 && b > 0 ==> q == a / b
  {
    var m := Abs(a) / Abs(b);
    if (a < 0) == (b < 0) then m else -m
  }

  /** Dividing a multiple of `d` by `d` gives the factor back, whatever
      the signs. */
  lemma CDivExact(x: int, d: int)
    requires d != 0
    ensures CDiv(x * d, d) == x
  {
    assert Abs(x * d) == Abs(x) * Abs(d) by {
      if x < 0 && d < 0 {
        assert x * d == (-x) * (-d);
      } else if x < 0 {
        assert -(x * d) == (-x) * d;
      } else if d < 0 {
        assert -(x * d) == x * (-d);
      }
    }
    MulDivCancel(Abs(x), Abs(d));
  }

  /** static_cast<int> of a 64-bit value: two's complement wrap to 32 bits. */
  function WrapI32(v: int): (r: int)
    ensures -0x8000_0000 <= r <= IntMax
    ensures (r - v) % 0x1_0000_0000 == 0
  {
    (v + 0x8000_0000) % 0x1_0000_0000 - 0x8000_0000
  }

  /** static_cast<std::uint64_t>: wrap to 64 bits. */
  function WrapU64(v: int): (r: int)
    ensures 0 <= r < 0x1_0000_0000_0000_0000
    ensures (r - v) % 0x1_0000_0000_0000_0000 == 0
  {
    v % 0x1_0000_0000_0000_0000
  }
}
