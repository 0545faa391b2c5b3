/**
 * JavaScript numbers over exact reals. A number is NaN, one of the two
 * infinities or a finite real; `undefined` used in arithmetic behaves as NaN.
 * Rounding and the sign of zero are not modelled.
 */
module JsNumber {

  datatype Number = NaN | PosInf | NegInf | Finite(r: real)

  /** -1, 0 or 1: the sign of a number that is not NaN. */
  function Sign(a: Number): int
  {
    match a
    case PosInf => 1
    case NegInf => -1
    case Finite(x) => if x > 0.0 then 1 else if x < 0.0 then -1 else 0
    case NaN => 0
  }

  function Neg(a: Number): (r: Number)
    ensures a.Finite? <==> r.Finite?
    ensures a.Finite? ==> r.r == -a.r
  {
    match a
    case NaN => NaN
    case PosInf => NegInf
    case NegInf => PosInf
    case Finite(x) => Finite(-x)
  }

  /** `a + b`. */
  function Add(a: Number, b: Number): (r: Number)
    ensures a.Finite? && b.Finite? ==> r == Finite(a.r + b.r)
    ensures a.NaN? || b.NaN? ==> r.NaN?
  {
    match (a, b)
    case (Finite(x), Finite(y)) => Finite(x + y)
    case (NaN, _) => NaN
    case (_, NaN) => NaN
    case (PosInf, NegInf) => NaN
    case (NegInf, PosInf) => NaN
    case (PosInf, _) => PosInf
    case (_, PosInf) => PosInf
    case (NegInf, _) => NegInf
    case (_, NegInf) => NegInf
  }

  /** `a - b`. */
  function Sub(a: Number, b: Number): (r: Number)
    ensures a.Finite? && b.Finite? ==> r == Finite(a.r - b.r)
    ensures a.NaN? || b.NaN? ==> r.NaN?
  {
    Add(a, Neg(b))
  }

  /** `a * b`; an infinity times zero is NaN. */
  function Mul(a: Number, b: Number): (r: Number)
    ensures a.Finite? && b.Finite? ==> r == Finite(a.r * b.r)
    ensures a.NaN? || b.NaN? ==> r.NaN?
  {
    if a.Finite? && b.Finite? then Finite(a.r * b.r)
    else if a.NaN? || b.NaN? then NaN
    else
      var s := Sign(a) * Sign(b);
      if s == 0 then NaN else if s > 0 then PosInf else NegInf
  }

  /** `a / b`; a zero divisor is taken to be +0. */
  function Div(a: Number, b: Number): (r: Number)
    ensures a.Finite? && b.Finite? && b.r != 0.0 ==> r == Finite(a.r / b.r)
    ensures a.NaN? || b.NaN? ==> r.NaN?
  {
    match (a, b)
    case (NaN, _) => NaN
    case (_, NaN) => NaN
    case (Finite(x), Finite(y)) =>
      if y != 0.0 then Finite(x / y)
      else if x == 0.0 then NaN
      else if x > 0.0 then PosInf
      else NegInf
    case (Finite(_), _) => Finite(0.0)
    case (_, Finite(y)) =>
      var s := if y == 0.0 then Sign(a) else Sign(a) * Sign(b);
      if s > 0 then PosInf else NegInf
    case _ => NaN
  }

  /** `a < b`: false whenever one side is NaN. */
  predicate Lt(a: Number, b: Number)
  {
    match (a, b)
    case (Finite(x), Finite(y)) => x < y
    case (NegInf, Finite(_)) => true
    case (NegInf, PosInf) => true
    case (Finite(_), PosInf) => true
    case _ => false
  }

  /** `a <= b`: false whenever one side is NaN. */
  predicate Le(a: Number, b: Number)
  {
    Lt(a, b) || (a == b && !a.NaN?)
  }

  predicate Gt(a: Number, b: Number) { Lt(b, a) }

  lemma LtTransitive(a: Number, b: Number, c: Number)
    requires Lt(a, b) && Lt(b, c)
    ensures Lt(a, c)
  {
  }

  /** Numbers other than NaN are totally ordered. */
  lemma NotLtIsLe(a: Number, b: Number)
    requires !a.NaN? && !b.NaN? && !Lt(a, b)
    ensures Le(b, a)
  {
  }

  predicate Ge(a: Number, b: Number) { Le(b, a) }

  /** `Math.min(a, b)`. */
  function Min(a: Number, b: Number): (r: Number)
    ensures r.NaN? <==> a.NaN? || b.NaN?
    ensures !r.NaN? ==> Le(r, a) && Le(r, b) && (r == a || r == b)
  {
    if a.NaN? || b.NaN? then NaN else if Lt(b, a) then b else a
  }

  /** JavaScript truthiness of a number: false for NaN and zero. */
  predicate Truthy(a: Number)
  {
    !a.NaN? && a != Finite(0.0)
  }

  /** `parseInt(x.toString())` of a finite number: its integer part, rounded towards zero. */
  function Trunc(x: real): (n: int)
    ensures (n as real) <= x < (n as real) + 1.0 || (n as real) - 1.0 < x <= (n as real)
    ensures 0.0 <= x ==> 0 <= n && (n as real) <= x
    ensures x <= 0.0 ==> n <= 0 && x <= (n as real)
  {
    if x >= 0.0 then x.Floor else -((-x).Floor)
  }

  /** JavaScript's `a % b` on integers: the remainder has the sign of `a`. */
  function JsRem(a: int, b: int): (m: int)
    requires b != 0
    ensures a == (if a >= 0 then a / b * b else -((-a) / b * b)) + m
    ensures 0 <= a ==> 0 <= m < (if b > 0 then b else -b)
    ensures a < 0 ==> -(if b > 0 then b else -b) < m <= 0
  {
    if a >= 0 then a % b else -((-a) % b)
  }

  /** `x` is a whole number. */
  predicate Whole(x: real)
  {
    x == x.Floor as real
  }

  /**
   * JavaScript's `a % b` on a finite number and a positive divisor: `a`
   * less the multiple of `b` that truncating `a / b` toward zero gives.
   */
  function RealRem(a: real, b: real): real
    requires b > 0.0
  {
    a - b * Trunc(a / b) as real
  }

  /** Between the multiples `t` and `t + 1` of `b`, the quotient by `b` lies between `t` and `t + 1`. */
  lemma QuotientBetween(n: real, b: real, t: real)
    requires b > 0.0 && b * t <= n < b * t + b
    ensures t <= n / b < t + 1.0
  {
    var q := n / b;
    assert q * b == n && b * t == t * b;
    if q < t {
      ProductPositive(t - q, b);
    }
    if q >= t + 1.0 {
      ProductPositive(q - t - 1.0, b);
    }
  }

  /** A product with a positive factor keeps the sign of the other. */
  lemma ProductPositive(x: real, y: real)
    requires x >= 0.0 && y > 0.0
    ensures x * y >= 0.0 && (x > 0.0 ==> x * y > 0.0)
  {
  }

  /** The real quotient of whole numbers rounds down to the integer quotient. */
  lemma FloorOfQuotient(n: nat, b: int)
    requires b > 0
    ensures (n as real / b as real).Floor == n / b
  {
    var t := n / b;
    assert n == b * t + n % b;
    assert (b * t) as real == b as real * t as real;
    QuotientBetween(n as real, b as real, t as real);
  }

  /** On integers the remainder is the integer one. */
  lemma RealRemOfInt(a: int, b: int)
    requires b > 0
    ensures RealRem(a as real, b as real) == JsRem(a, b) as real
  {
    var t := TruncOfQuotient(a, b);
    CastProduct(b, t);
  }

  /** Truncating the real quotient of integers gives JavaScript's integer quotient. */
  lemma TruncOfQuotient(a: int, b: int) returns (t: int)
    requires b > 0
    ensures t == Trunc(a as real / b as real)
    ensures JsRem(a, b) == a - b * t
  {
    if a >= 0 {
      FloorOfQuotient(a, b);
      t := a / b;
    } else {
      var n: nat := -a;
      FloorOfQuotient(n, b);
      assert -(a as real / b as real) == n as real / b as real;
      t := -(n / b);
    }
  }

  /** Converting a product of integers to a real multiplies the converted factors. */
  lemma CastProduct(b: int, t: int)
    ensures (b * t) as real == b as real * t as real
  {
  }

  /** The remainder of a number that is not whole, by a whole divisor, is not whole. */
  lemma RealRemOfFraction(a: real, b: int)
    requires b > 0 && !Whole(a)
    ensures !Whole(RealRem(a, b as real))
  {
    var m := RealRem(a, b as real);
    var t := Trunc(a / b as real);
    CastProduct(b, t);
    assert a == m + (b * t) as real;
    WholeShift(m, b * t);
  }

  /** Adding a whole number keeps a number whole or not whole. */
  lemma WholeShift(x: real, k: int)
    ensures Whole(x) <==> Whole(x + k as real)
  {
    assert (x + k as real).Floor == x.Floor + k;
  }

  /** The decimal digit for `d`. */
  function DigitChar(d: nat): char
    requires d < 10
  {
    ('0' as int + d) as char
  }

  /** The decimal form JavaScript gives a natural number. */
  function NatToString(n: nat): (s: string)
    ensures |s| >= 1
    ensures forall k :: 0 <= k < |s| ==> '0' <= s[k] <= '9'
    ensures n > 0 ==> s[0] != '0'
  {
    if n < 10 then [DigitChar(n)] else NatToString(n / 10) + [DigitChar(n % 10)]
  }

  /** The decimal form JavaScript gives an integer. */
  function IntToString(n: int): (s: string)
    ensures n < 0 <==> |s| > 0 && s[0] == '-'
  {
    if n < 0 then "-" + NatToString(-n) else NatToString(n)
  }

  /** Two different naturals have different decimal forms. */
  lemma {:induction false} NatToStringInjective(m: nat, n: nat)
    requires m != n
    ensures NatToString(m) != NatToString(n)
  {
    if m < 10 && n < 10 {
      DigitCharInjective(m, n);
      assert NatToString(m)[0] != NatToString(n)[0];
    } else if m < 10 || n < 10 {
      if m >= 10 { LongerAboveTen(m); } else { LongerAboveTen(n); }
    } else {
      var sm, sn := NatToString(m), NatToString(n);
      LastDigitSplit(m);
      LastDigitSplit(n);
      if m % 10 != n % 10 {
        DigitCharInjective(m % 10, n % 10);
        assert sm[|sm| - 1] != sn[|sn| - 1];
      } else {
        QuotientsDiffer(m, n);
        NatToStringInjective(m / 10, n / 10);
        assert sm[..|sm| - 1] == NatToString(m / 10);
        assert sn[..|sn| - 1] == NatToString(n / 10);
      }
    }
  }

  lemma LastDigitSplit(n: nat)
    requires n >= 10
    ensures NatToString(n) == NatToString(n / 10) + [DigitChar(n % 10)]
  {
  }

  lemma LongerAboveTen(n: nat)
    requires n >= 10
    ensures |NatToString(n)| >= 2
  {
    LastDigitSplit(n);
  }

  lemma DigitCharInjective(a: nat, b: nat)
    requires a < 10 && b < 10 && a != b
    ensures DigitChar(a) != DigitChar(b)
  {
  }

  lemma QuotientsDiffer(m: nat, n: nat)
    requires m != n && m % 10 == n % 10
    ensures m / 10 != n / 10
  {
    assert m == 10 * (m / 10) + m % 10;
    assert n == 10 * (n / 10) + n % 10;
  }

  lemma NegativeToString(n: int)
    requires n < 0
    ensures IntToString(n)[1..] == NatToString(-n)
  {
    var t := NatToString(-n);
    assert ("-" + t)[1..] == t;
  }

  /** Two different integers have different decimal forms. */
  lemma IntToStringInjective(m: int, n: int)
    requires m != n
    ensures IntToString(m) != IntToString(n)
  {
    if m < 0 && n < 0 {
      NatToStringInjective(-m, -n);
      SignedInjective(NatToString(-m), NatToString(-n));
    } else if m >= 0 && n >= 0 {
      NatToStringInjective(m, n);
    } else {
      LeadingSign(m);
      LeadingSign(n);
      assert IntToString(m)[0] != IntToString(n)[0];
    }
  }

  lemma SignedInjective(x: string, y: string)
    requires x != y
    ensures "-" + x != "-" + y
  {
    assert ("-" + x)[1..] == x;
    assert ("-" + y)[1..] == y;
  }

  /** Only a negative number's decimal form starts with a minus sign. */
  lemma LeadingSign(n: int)
    ensures |IntToString(n)| > 0
    ensures IntToString(n)[0] == '-' <==> n < 0
  {
    if n >= 0 {
      assert IntToString(n) == NatToString(n);
      assert '0' <= NatToString(n)[0] <= '9';
    }
  }
}
