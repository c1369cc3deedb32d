/** Integers of a fixed width as the emitted instructions see them: numbers modulo a power
    of two, read unsigned or as two's complement. */
module MachineInts {
  function Pow2(n: nat): (r: int)
    ensures r > 0 && (n > 0 ==> r >= 2)
  {
    if n == 0 then 1 else 2 * Pow2(n - 1)
  }

  lemma {:induction false} Pow2Add(a: nat, b: nat)
    ensures Pow2(a + b) == Pow2(a) * Pow2(b)
    decreases a
  {
    if a > 0 { Pow2Add(a - 1, b); }
  }

  lemma {:induction false} Pow2Mono(a: nat, b: nat)
    requires a <= b
    ensures Pow2(a) <= Pow2(b)
    decreases b
  {
    if a < b { Pow2Mono(a, b - 1); }
  }

  lemma MulAtLeast(k: int, m: int)
    requires k >= 1 && m > 0
    ensures k * m >= m
  {
  }

  lemma MulMono(a: int, b: int, m: int)
    requires a <= b && m > 0
    ensures a * m <= b * m
  {
    assert (b - a) * m >= 0;
  }

  /** Quotient and remainder are determined by the division equation. */
  lemma ModUnique(x: int, m: int, q: int, r: int)
    requires m > 0 && x == q * m + r && 0 <= r < m
    ensures x % m == r && x / m == q
  {
    var d := x / m - q;
    assert x == (x / m) * m + x % m;
    assert d * m == r - x % m;
    if d >= 1 {
      MulAtLeast(d, m);
      assert false;
    }
    if d <= -1 {
      MulAtLeast(-d, m);
      assert false;
    }
  }

  /** Wrapping of a number that is off by at most one turn. */
  lemma WrapOnce(x: int, m: int)
    requires m > 0 && -m <= x < 2 * m
    ensures x % m == if x < 0 then x + m else if x < m then x else x - m
  {
    ModUnique(x, m, if x < 0 then -1 else if x < m then 0 else 1, if x < 0 then x + m else if x < m then x else x - m);
  }

  lemma WrapSame(x: int, m: int)
    requires 0 <= x < m
    ensures x % m == x
  {
  }

  lemma ModShift(x: int, k: int, m: int)
    requires m > 0
    ensures (x + k * m) % m == x % m
  {
    ModUnique(x + k * m, m, x / m + k, x % m);
  }

  lemma ModAdd(a: int, b: int, m: int)
    requires m > 0
    ensures (a + b) % m == (a + b % m) % m
  {
    assert b == (b / m) * m + b % m;
    ModShift(a + b % m, b / m, m);
  }

  lemma SameRemainder(a: int, b: int, m: int) returns (k: int)
    requires m > 0 && a % m == b % m
    ensures a == b + k * m
  {
    k := a / m - b / m;
    assert a == (a / m) * m + a % m && b == (b / m) * m + b % m;
  }

  lemma ProductShift(a: int, b: int, p: int, q: int, m: int)
    ensures (a + p * m) * (b + q * m) == a * b + (a * q + p * b + p * (q * m)) * m
  {
    assert (a + p * m) * (b + q * m) == a * b + a * (q * m) + (p * m) * b + (p * m) * (q * m);
    assert a * (q * m) == (a * q) * m && (p * m) * b == (p * b) * m && (p * m) * (q * m) == (p * (q * m)) * m;
    assert (a * q + p * b + p * (q * m)) * m == (a * q) * m + (p * b) * m + (p * (q * m)) * m;
  }

  lemma ModMul(a: int, b: int, a': int, b': int, m: int)
    requires m > 0 && a % m == a' % m && b % m == b' % m
    ensures (a * b) % m == (a' * b') % m
  {
    var p := SameRemainder(a, a', m);
    var q := SameRemainder(b, b', m);
    ProductShift(a', b', p, q, m);
    ModShift(a' * b', a' * q + p * b' + p * (q * m), m);
  }

  /** Reducing to a divisor of the modulus first makes no difference. */
  lemma ModMod(x: int, m: int, k: int)
    requires m > 0 && k > 0
    ensures m * k > 0 && (x % (m * k)) % m == x % m
  {
    MulAtLeast(k, m);
    var n := m * k;
    assert x == (x / n) * n + x % n;
    assert (x / n) * n == (x / n * k) * m;
    ModShift(x % n, x / n * k, m);
  }

  /** The modulus of an `n`-bit integer. */
  function Modulus(n: nat): (m: int)
    requires n > 0
    ensures m == 2 * Pow2(n - 1) && m == Pow2(n) && m >= 2
  {
    Pow2(n)
  }

  predicate Fits(x: int, n: nat)
    requires n > 0
  {
    0 <= x < Modulus(n)
  }

  function Signed(x: int, n: nat): (r: int)
    requires n > 0 && Fits(x, n)
    ensures -Pow2(n - 1) <= r < Pow2(n - 1)
  {
    if x < Pow2(n - 1) then x else x - Modulus(n)
  }

  function Value(x: int, n: nat, signed: bool): (r: int)
    requires n > 0 && Fits(x, n)
  {
    if signed then Signed(x, n) else x
  }

  function Min(n: nat, signed: bool): (r: int)
    requires n > 0
  {
    if signed then -Pow2(n - 1) else 0
  }

  function Max(n: nat, signed: bool): (r: int)
    requires n > 0
  {
    if signed then Pow2(n - 1) - 1 else Modulus(n) - 1
  }

  predicate InRange(v: int, n: nat, signed: bool)
    requires n > 0
  {
    Min(n, signed) <= v <= Max(n, signed)
  }

  /** The bits of an exact value. */
  function Bits(v: int, n: nat): (r: int)
    requires n > 0
    ensures Fits(r, n)
  {
    v % Modulus(n)
  }

  /** A value in range is what its bits read back as. */
  lemma ValueOfBits(v: int, n: nat, signed: bool)
    requires n > 0 && InRange(v, n, signed)
    ensures Value(Bits(v, n), n, signed) == v
  {
    WrapOnce(v, Modulus(n));
  }

  lemma BitsOfValue(x: int, n: nat, signed: bool)
    requires n > 0 && Fits(x, n)
    ensures Bits(Value(x, n, signed), n) == x && InRange(Value(x, n, signed), n, signed)
  {
    WrapOnce(Value(x, n, signed), Modulus(n));
  }
}

/** Overflow detection, saturation and comparison. */
module IntArithmetic {
  import opened MachineInts

  datatype Op = Add | Sub | Mul

  function Exact(op: Op, l: int, r: int): (v: int)
  {
    match op case Add => l + r case Sub => l - r case Mul => l * r
  }

  // The emitted instructions.

  function Iadd(l: int, r: int, n: nat): (v: int)
    requires n > 0
    ensures Fits(v, n)
  {
    (l + r) % Modulus(n)
  }

  function Isub(l: int, r: int, n: nat): (v: int)
    requires n > 0
    ensures Fits(v, n)
  {
    (l - r) % Modulus(n)
  }

  function Imul(l: int, r: int, n: nat): (v: int)
    requires n > 0
    ensures Fits(v, n)
  {
    (l * r) % Modulus(n)
  }

  function Extend(x: int, n: nat, wide: nat, signed: bool): (v: int)
    requires 0 < n <= wide && Fits(x, n)
    ensures Fits(v, wide)
  {
    Bits(Value(x, n, signed), wide)
  }

  /** The high half of the exact product. */
  function MulHigh(l: int, r: int, n: nat, signed: bool): (v: int)
    requires n > 0 && Fits(l, n) && Fits(r, n)
    ensures Fits(v, n)
  {
    (Value(l, n, signed) * Value(r, n, signed) / Modulus(n)) % Modulus(n)
  }

  /** All bits are the sign bit. */
  function SignFill(x: int, n: nat): (v: int)
    requires n > 0 && Fits(x, n)
    ensures Fits(v, n)
  {
    if Signed(x, n) < 0 then Modulus(n) - 1 else 0
  }

  function CheckedAdd(l: int, r: int, n: nat, signed: bool): (res: (int, bool))
    requires n > 0 && Fits(l, n) && Fits(r, n)
  {
    var val := Iadd(l, r, n);
    (val, if !signed then val < l else (Signed(r, n) < 0) != (Signed(val, n) < Signed(l, n)))
  }

  function CheckedSub(l: int, r: int, n: nat, signed: bool): (res: (int, bool))
    requires n > 0 && Fits(l, n) && Fits(r, n)
  {
    var val := Isub(l, r, n);
    (val, if !signed then val > l else (Signed(r, n) < 0) != (Signed(val, n) > Signed(l, n)))
  }

  /** 8, 16 and 32 bits: multiply at twice the width and compare with the range. */
  function CheckedMulNarrow(l: int, r: int, n: nat, signed: bool): (res: (int, bool))
    requires n > 0 && Fits(l, n) && Fits(r, n)
  {
    var wide := 2 * n;
    var val := Imul(Extend(l, n, wide, signed), Extend(r, n, wide, signed), wide);
    (Bits(val, n), if !signed then val > Modulus(n) - 1
                     else Signed(val, wide) < -Pow2(n - 1) || Signed(val, wide) > Pow2(n - 1) - 1)
  }

  /** 64 bits: look at the high word of the product. */
  function CheckedMulWord(l: int, r: int, n: nat, signed: bool): (res: (int, bool))
    requires n > 0 && Fits(l, n) && Fits(r, n)
  {
    var val := Imul(l, r, n);
    (val, if !signed then MulHigh(l, r, n, false) != 0
          else MulHigh(l, r, n, true) != SignFill(val, n))
  }

  /** 128-bit multiplication is a library call. */
  function Checked(op: Op, l: int, r: int, n: nat, signed: bool): (res: (int, bool))
    requires n > 0 && Fits(l, n) && Fits(r, n) && (op.Mul? ==> n <= 64)
  {
    match op
    case Add => CheckedAdd(l, r, n, signed)
    case Sub => CheckedSub(l, r, n, signed)
    case Mul => if n < 64 then CheckedMulNarrow(l, r, n, signed) else CheckedMulWord(l, r, n, signed)
  }

  // What they mean.

  lemma SignedWrap(v: int, n: nat)
    requires n > 0 && -Modulus(n) <= v < Modulus(n)
    ensures var s := Signed(v % Modulus(n), n);
            s == if v < -Pow2(n - 1) then v + Modulus(n) else if v >= Pow2(n - 1) then v - Modulus(n) else v
  {
    WrapOnce(v, Modulus(n));
  }

  /** 1 when reading `x` as signed subtracts the modulus. */
  function Turns(x: int, n: nat, signed: bool): (k: int)
    requires n > 0 && Fits(x, n)
    ensures x == Value(x, n, signed) + k * Modulus(n)
  {
    if signed && x >= Pow2(n - 1) then 1 else 0
  }

  lemma AddIsChecked(l: int, r: int, n: nat, signed: bool)
    requires n > 0 && Fits(l, n) && Fits(r, n)
    ensures var (val, overflow) := CheckedAdd(l, r, n, signed);
            var exact := Value(l, n, signed) + Value(r, n, signed);
            val == Bits(exact, n) && (overflow <==> !InRange(exact, n, signed))
  {
    var exact := Value(l, n, signed) + Value(r, n, signed);
    ModShift(exact, Turns(l, n, signed) + Turns(r, n, signed), Modulus(n));
    if signed { SignedWrap(exact, n); } else { WrapOnce(exact, Modulus(n)); }
  }

  lemma SubIsChecked(l: int, r: int, n: nat, signed: bool)
    requires n > 0 && Fits(l, n) && Fits(r, n)
    ensures var (val, overflow) := CheckedSub(l, r, n, signed);
            var exact := Value(l, n, signed) - Value(r, n, signed);
            val == Bits(exact, n) && (overflow <==> !InRange(exact, n, signed))
  {
    var exact := Value(l, n, signed) - Value(r, n, signed);
    ModShift(exact, Turns(l, n, signed) - Turns(r, n, signed), Modulus(n));
    if signed { SignedWrap(exact, n); } else { WrapOnce(exact, Modulus(n)); }
  }

  lemma MulBits(l: int, r: int, n: nat, signed: bool)
    requires n > 0 && Fits(l, n) && Fits(r, n)
    ensures Imul(l, r, n) == Bits(Value(l, n, signed) * Value(r, n, signed), n)
  {
    ModShift(Value(l, n, signed), Turns(l, n, signed), Modulus(n));
    ModShift(Value(r, n, signed), Turns(r, n, signed), Modulus(n));
    ModMul(l, r, Value(l, n, signed), Value(r, n, signed), Modulus(n));
  }

  /** |a| <= h and |b| <= h bound the product. */
  lemma ProductBound(a: int, b: int, h: int)
    requires -h <= a <= h && -h <= b <= h
    ensures -(h * h) <= a * b <= h * h
  {
    if a >= 0 && b >= 0 {
      ProductMono(a, b, h);
    } else if a >= 0 {
      ProductMono(a, -b, h);
      assert a * (-b) == -(a * b);
    } else if b >= 0 {
      ProductMono(-a, b, h);
      assert (-a) * b == -(a * b);
    } else {
      ProductMono(-a, -b, h);
      assert (-a) * (-b) == a * b;
    }
  }

  lemma ProductMono(a: int, b: int, h: int)
    requires 0 <= a <= h && 0 <= b <= h
    ensures 0 <= a * b <= h * h
  {
    assert a * b <= a * h by { assert a * (h - b) >= 0; }
    assert a * h <= h * h by { assert (h - a) * h >= 0; }
  }

  lemma SignedProductSmall(a: int, b: int, h: int)
    requires h > 0 && -h <= a < h && -h <= b < h
    ensures -((2 * h) * h) <= a * b < (2 * h) * h
  {
    ProductBound(a, b, h);
    assert (2 * h) * h == 2 * (h * h) && h * h > 0;
  }

  lemma UnsignedProductSmall(a: int, b: int, m: int)
    requires 0 <= a < m && 0 <= b < m
    ensures 0 <= a * b < m * m
  {
    ProductMono(a, b, m - 1);
    assert (m - 1) * (m - 1) == m * m - 2 * m + 1;
  }

  /** The exact product fits twice the width. */
  lemma WideProductFits(l: int, r: int, n: nat, signed: bool)
    requires n > 0 && Fits(l, n) && Fits(r, n)
    ensures InRange(Value(l, n, signed) * Value(r, n, signed), 2 * n, signed)
  {
    Pow2Add(n, n);
    Pow2Add(n, n - 1);
    assert n + (n - 1) == 2 * n - 1 && n + n == 2 * n;
    if signed {
      SignedProductSmall(Value(l, n, signed), Value(r, n, signed), Pow2(n - 1));
    } else {
      UnsignedProductSmall(l, r, Modulus(n));
    }
  }

  lemma MulNarrowIsChecked(l: int, r: int, n: nat, signed: bool)
    requires n > 0 && Fits(l, n) && Fits(r, n)
    ensures var (val, overflow) := CheckedMulNarrow(l, r, n, signed);
            var exact := Value(l, n, signed) * Value(r, n, signed);
            val == Bits(exact, n) && (overflow <==> !InRange(exact, n, signed))
  {
    var wide, a, b := 2 * n, Value(l, n, signed), Value(r, n, signed);
    var x, y := Extend(l, n, wide, signed), Extend(r, n, wide, signed);
    BitsOfValue(l, n, signed);
    BitsOfValue(r, n, signed);
    WiderRange(a, n, wide, signed);
    WiderRange(b, n, wide, signed);
    ValueOfBits(a, wide, signed);
    ValueOfBits(b, wide, signed);
    MulBits(x, y, wide, signed);
    WideProductFits(l, r, n, signed);
    ValueOfBits(a * b, wide, signed);
    Pow2Add(n, n);
    ModMod(a * b, Modulus(n), Modulus(n));
  }

  lemma WiderRange(v: int, n: nat, wide: nat, signed: bool)
    requires 0 < n <= wide && InRange(v, n, signed)
    ensures InRange(v, wide, signed)
  {
    Pow2Mono(n - 1, wide - 1);
  }

  lemma SignedHighBound(a: int, b: int, h: int)
    requires h > 0 && -h <= a <= h && -h <= b <= h
    ensures -h <= a * b / (2 * h) <= h
  {
    ProductBound(a, b, h);
    assert h * (2 * h) == 2 * (h * h) && h * h > 0;
    QuotientBound(a * b, 2 * h, h);
  }

  lemma UnsignedHighBound(a: int, b: int, m: int)
    requires 0 <= a < m && 0 <= b < m
    ensures 0 <= a * b / m < m
  {
    ProductMono(a, b, m - 1);
    assert (m - 1) * m == (m - 1) * (m - 1) + (m - 1);
    QuotientBound(a * b, m, m - 1);
  }

  lemma MulHighSigned(l: int, r: int, n: nat)
    requires n > 0 && Fits(l, n) && Fits(r, n)
    ensures var exact := Signed(l, n) * Signed(r, n);
            MulHigh(l, r, n, true) == SignFill(Bits(exact, n), n) <==> InRange(exact, n, true)
  {
    var m, exact := Modulus(n), Value(l, n, true) * Value(r, n, true);
    SignedHighBound(Value(l, n, true), Value(r, n, true), Pow2(n - 1));
    DivMod(exact, m);
    HighWordSigned(exact, exact / m, exact % m, Pow2(n - 1));
    WrapOnce(exact / m, m);
  }

  lemma MulHighUnsigned(l: int, r: int, n: nat)
    requires n > 0 && Fits(l, n) && Fits(r, n)
    ensures MulHigh(l, r, n, false) == 0 <==> InRange(l * r, n, false)
  {
    var m, exact := Modulus(n), l * r;
    UnsignedHighBound(l, r, m);
    ProductMono(l, r, m);
    DivMod(exact, m);
    HighWordUnsigned(exact, exact / m, exact % m, m);
    WrapSame(exact / m, m);
  }

  lemma DivMod(x: int, m: int)
    requires m > 0
    ensures x == (x / m) * m + x % m && 0 <= x % m < m
  {
  }

  lemma MulWordIsChecked(l: int, r: int, n: nat, signed: bool)
    requires n > 0 && Fits(l, n) && Fits(r, n)
    ensures var (val, overflow) := CheckedMulWord(l, r, n, signed);
            var exact := Value(l, n, signed) * Value(r, n, signed);
            val == Bits(exact, n) && (overflow <==> !InRange(exact, n, signed))
  {
    MulBits(l, r, n, signed);
    if signed { MulHighSigned(l, r, n); } else { MulHighUnsigned(l, r, n); }
  }

  lemma QuotientBound(p: int, m: int, k: int)
    requires m > 0 && k >= 0 && -(k * m) <= p <= k * m
    ensures -k <= p / m <= k && (p >= 0 ==> p / m >= 0)
  {
    var q := p / m;
    assert p == q * m + p % m;
    assert (k + 1) * m == k * m + m && (-k - 1) * m == -(k * m) - m && (-1) * m == -m;
    if q > k { MulMono(k + 1, q, m); }
    if q < -k { MulMono(q, -k - 1, m); }
    if q < 0 { MulMono(q, -1, m); }
  }

  /** The high word repeats the sign of the low word exactly when the product fits. */
  lemma HighWordSigned(exact: int, hi: int, lo: int, h: int)
    requires h > 0 && exact == hi * (2 * h) + lo && 0 <= lo < 2 * h
    ensures -h <= exact < h <==> hi == if lo < h then 0 else -1
  {
    if hi >= 1 { MulAtLeast(hi, 2 * h); }
    if hi <= -2 {
      MulAtLeast(-hi - 1, 2 * h);
      assert (-hi - 1) * (2 * h) == -(hi * (2 * h)) - 2 * h;
    }
  }

  lemma HighWordUnsigned(exact: int, hi: int, lo: int, m: int)
    requires m > 0 && exact == hi * m + lo && 0 <= lo < m && hi >= 0
    ensures exact < m <==> hi == 0
  {
    if hi >= 1 { MulAtLeast(hi, m); }
  }

  /** For every width and signedness the code handles: the value is the exact result modulo the
      width, and the overflow bit says exactly whether the exact result does not fit. */
  lemma CheckedIsExact(op: Op, l: int, r: int, n: nat, signed: bool)
    requires n > 0 && Fits(l, n) && Fits(r, n) && (op.Mul? ==> n <= 64)
    ensures var (val, overflow) := Checked(op, l, r, n, signed);
            var exact := Exact(op, Value(l, n, signed), Value(r, n, signed));
            && val == Bits(exact, n)
            && (overflow <==> !InRange(exact, n, signed))
            && (!overflow ==> Value(val, n, signed) == exact)
  {
    match op {
      case Add => AddIsChecked(l, r, n, signed);
      case Sub => SubIsChecked(l, r, n, signed);
      case Mul => if n < 64 { MulNarrowIsChecked(l, r, n, signed); } else { MulWordIsChecked(l, r, n, signed); }
    }
    var exact := Exact(op, Value(l, n, signed), Value(r, n, signed));
    if InRange(exact, n, signed) { ValueOfBits(exact, n, signed); }
  }
}

/** Saturating operations, type bounds and comparisons. */
module IntBounds {
  import opened MachineInts
  import opened IntArithmetic

  /** Two 64-bit halves make a 128-bit value. */
  function Concat(lo: int, hi: int, half: nat): (r: int)
    requires half > 0
  {
    lo + hi * Modulus(half)
  }

  function High(x: int, half: nat): (r: int)
    requires half > 0
    ensures Fits(r, half)
  {
    (x / Modulus(half)) % Modulus(half)
  }

  /** Joining the halves gives the value back. */
  lemma SplitJoin(x: int, half: nat)
    requires half > 0 && Fits(x, 2 * half)
    ensures Concat(Bits(x, half), High(x, half), half) == x
    ensures x / Modulus(half) == High(x, half)
  {
    var m := Modulus(half);
    Pow2Add(half, half);
    assert half + half == 2 * half;
    DivMod(x, m);
    assert x / m < m by {
      if x / m >= m { MulMono(m, x / m, m); }
    }
    assert x / m >= 0 by {
      if x / m < 0 { MulMono(x / m, -1, m); }
    }
    WrapSame(x / m, m);
  }

  /** A constant of the given width, from two halves when it is 128 bits wide. */
  function Const(x: int, n: nat): (r: int)
    requires 0 < n <= 64 || n == 128
  {
    if n == 128 then Concat(Bits(x, 64), High(x, 64), 64) else (x % Modulus(64)) % Modulus(n)
  }

  lemma ConstIsBits(x: int, n: nat)
    requires 0 < n <= 64 || n == 128
    ensures Const(x, n) == Bits(x, n)
  {
    if n == 128 {
      var y := Bits(x, 128);
      SplitJoin(y, 64);
      HalvesOfBits(x);
    } else {
      Pow2Add(n, 64 - n);
      ModMod(x, Modulus(n), Pow2(64 - n));
    }
  }

  lemma HalvesOfShift(y: int, k: int, m: int)
    requires m > 0
    ensures (y + k * (m * m)) % m == y % m
    ensures ((y + k * (m * m)) / m) % m == (y / m) % m
  {
    assert k * (m * m) == (k * m) * m;
    ModShift(y, k * m, m);
    DivShift(y, k * m, m);
    ModShift(y / m, k, m);
  }

  lemma HalvesOfBits(x: int)
    ensures Bits(x, 64) == Bits(Bits(x, 128), 64) && High(x, 64) == High(Bits(x, 128), 64)
  {
    Pow2Add(64, 64);
    DivMod(x, Modulus(128));
    HalvesOfShift(Bits(x, 128), x / Modulus(128), Modulus(64));
  }

  lemma DivShift(x: int, k: int, m: int)
    requires m > 0
    ensures (x + k * m) / m == x / m + k
  {
    DivMod(x, m);
    ModUnique(x + k * m, m, x / m + k, x % m);
  }

  predicate Width(n: nat)
  {
    n == 8 || n == 16 || n == 32 || n == 64 || n == 128
  }

  /** The bounds of a type as constants, written out width by width. */
  function TypeMinMax(n: nat, signed: bool): (r: (int, int))
    requires Width(n)
  {
    if n == 128 then
      if signed then (Concat(0, 0x8000_0000_0000_0000, 64), Concat(0xffff_ffff_ffff_ffff, 0x7fff_ffff_ffff_ffff, 64))
      else (Concat(0, 0, 64), Concat(0xffff_ffff_ffff_ffff, 0xffff_ffff_ffff_ffff, 64))
    else if signed then
      (match n case 8 => (0x80, 0x7f) case 16 => (0x8000, 0x7fff) case 32 => (0x8000_0000, 0x7fff_ffff)
               case _ => (0x8000_0000_0000_0000, 0x7fff_ffff_ffff_ffff))
    else
      (match n case 8 => (0, 0xff) case 16 => (0, 0xffff) case 32 => (0, 0xffff_ffff)
               case _ => (0, 0xffff_ffff_ffff_ffff))
  }

  lemma PowersOfTwo()
    ensures Pow2(7) == 0x80 && Pow2(15) == 0x8000 && Pow2(31) == 0x8000_0000 && Pow2(63) == 0x8000_0000_0000_0000
    ensures Pow2(64) == 0x1_0000_0000_0000_0000 && Pow2(127) == 0x8000_0000_0000_0000 * 0x1_0000_0000_0000_0000
  {
    assert Pow2(8) == 256;
    Pow2Add(8, 7);
    Pow2Add(8, 8);
    Pow2Add(16, 15);
    Pow2Add(16, 16);
    Pow2Add(32, 31);
    Pow2Add(32, 32);
    Pow2Add(63, 64);
  }

  /** The constants are the bits of the smallest and the largest value of the type. */
  lemma BoundsAreRight(n: nat, signed: bool)
    requires Width(n)
    ensures var (min, max) := TypeMinMax(n, signed);
            min == Bits(Min(n, signed), n) && max == Bits(Max(n, signed), n)
  {
    PowersOfTwo();
    WrapOnce(Min(n, signed), Modulus(n));
    WrapOnce(Max(n, signed), Modulus(n));
  }

  /** The bound to saturate at, and when. */
  function Select(op: Op, val: int, overflow: bool, rhsNegative: bool, signed: bool, min: int, max: int): (v: int)
    requires !op.Mul?
  {
    if !overflow then val
    else if !signed then (if op.Add? then max else min)
    else if !rhsNegative == op.Add? then max else min
  }

  function Saturating(op: Op, l: int, r: int, n: nat, signed: bool): (v: int)
    requires Width(n) && Fits(l, n) && Fits(r, n) && !op.Mul?
  {
    var (min, max) := TypeMinMax(n, signed);
    var (val, overflow) := Checked(op, l, r, n, signed);
    Select(op, val, overflow, Signed(r, n) < 0, signed, min, max)
  }

  function Clamp(v: int, n: nat, signed: bool): (r: int)
    requires n > 0
  {
    if v < Min(n, signed) then Min(n, signed) else if v > Max(n, signed) then Max(n, signed) else v
  }

  /** The result leaves the range on the side the right operand pushes it to. */
  lemma OverflowSide(op: Op, l: int, r: int, n: nat, signed: bool)
    requires n > 0 && Fits(l, n) && Fits(r, n) && !op.Mul?
    ensures var exact := Exact(op, Value(l, n, signed), Value(r, n, signed));
            && (exact > Max(n, signed) ==> if signed then (Signed(r, n) >= 0) == op.Add? else op.Add?)
            && (exact < Min(n, signed) ==> if signed then (Signed(r, n) >= 0) != op.Add? else op.Sub?)
  {
  }

  lemma SaturatingBits(op: Op, l: int, r: int, n: nat, signed: bool)
    requires Width(n) && Fits(l, n) && Fits(r, n) && !op.Mul?
    ensures Saturating(op, l, r, n, signed)
            == Bits(Clamp(Exact(op, Value(l, n, signed), Value(r, n, signed)), n, signed), n)
  {
    CheckedIsExact(op, l, r, n, signed);
    BoundsAreRight(n, signed);
    OverflowSide(op, l, r, n, signed);
  }

  /** The bits of a clamped value read back as that value. */
  lemma ClampReadsBack(x: int, v: int, n: nat, signed: bool)
    requires n > 0 && x == Bits(Clamp(v, n, signed), n)
    ensures Fits(x, n) && Value(x, n, signed) == Clamp(v, n, signed)
  {
    ValueOfBits(Clamp(v, n, signed), n, signed);
  }

  /** Saturating addition and subtraction give the exact result, clamped to the type. */
  lemma SaturatingClamps(op: Op, l: int, r: int, n: nat, signed: bool)
    requires Width(n) && Fits(l, n) && Fits(r, n) && !op.Mul?
    ensures Fits(Saturating(op, l, r, n, signed), n)
    ensures Value(Saturating(op, l, r, n, signed), n, signed)
            == Clamp(Exact(op, Value(l, n, signed), Value(r, n, signed)), n, signed)
  {
    SaturatingBits(op, l, r, n, signed);
    ClampReadsBack(Saturating(op, l, r, n, signed), Exact(op, Value(l, n, signed), Value(r, n, signed)), n, signed);
  }

  // ---------------------------------------------------------------- comparisons

  datatype Cc =
    | Equal
    | NotEqual
    | Less(signed: bool)
    | LessEqual(signed: bool)
    | Greater(signed: bool)
    | GreaterEqual(signed: bool)

  predicate Compare(cc: Cc, l: int, r: int, n: nat)
    requires n > 0 && Fits(l, n) && Fits(r, n)
  {
    match cc
    case Equal => l == r
    case NotEqual => l != r
    case Less(s) => Value(l, n, s) < Value(r, n, s)
    case LessEqual(s) => Value(l, n, s) <= Value(r, n, s)
    case Greater(s) => Value(l, n, s) > Value(r, n, s)
    case GreaterEqual(s) => Value(l, n, s) >= Value(r, n, s)
  }

  /** Comparing two-word values word by word, each word under the same condition code. */
  predicate CompareHalves(cc: Cc, l: int, r: int, half: nat)
    requires half > 0
  {
    var (llo, lhi, rlo, rhi) := (Bits(l, half), High(l, half), Bits(r, half), High(r, half));
    match cc
    case Equal => Compare(cc, llo, rlo, half) && Compare(cc, lhi, rhi, half)
    case NotEqual => Compare(cc, llo, rlo, half) || Compare(cc, lhi, rhi, half)
    case _ => if lhi == rhi then Compare(cc, llo, rlo, half) else Compare(cc, lhi, rhi, half)
  }

  predicate IsSigned(cc: Cc)
  {
    !cc.Equal? && !cc.NotEqual? && cc.signed
  }

  /** The low words of two values with the same high word have different sign bits. */
  predicate LowSignsDiffer(l: int, r: int, half: nat)
    requires half > 0
  {
    && High(l, half) == High(r, half)
    && (Bits(l, half) < Pow2(half - 1)) != (Bits(r, half) < Pow2(half - 1))
  }

  lemma WordOrder(llo: int, lhi: int, rlo: int, rhi: int, m: int)
    requires m > 0 && 0 <= llo < m && 0 <= rlo < m
    ensures lhi < rhi ==> llo + lhi * m < rlo + rhi * m
  {
    if lhi < rhi { MulMono(lhi + 1, rhi, m); }
  }

  lemma HalvesArithmetic(lo: int, hi: int, m: int, h: int)
    requires m == 2 * h && 0 <= lo < m && 0 <= hi < m
    ensures lo + hi * m < m * h <==> hi < h
    ensures (hi - m) * m == hi * m - m * m
  {
    if hi < h { MulMono(hi + 1, h, m); } else { MulMono(h, hi, m); }
  }

  lemma SignedHalves(x: int, half: nat)
    requires half > 0 && Fits(x, 2 * half)
    ensures Signed(x, 2 * half) == Bits(x, half) + Signed(High(x, half), half) * Modulus(half)
  {
    Pow2Add(half, half);
    Pow2Add(half, half - 1);
    assert half + half == 2 * half && half + (half - 1) == 2 * half - 1;
    SplitJoin(x, half);
    HalvesArithmetic(Bits(x, half), High(x, half), Modulus(half), Pow2(half - 1));
  }

  /** The two-word compare is right for every condition code, except that a signed one is wrong
      exactly when the high words are equal and the sign bits of the low words differ. */
  lemma CompareHalvesExactly(cc: Cc, l: int, r: int, half: nat)
    requires half > 0 && Fits(l, 2 * half) && Fits(r, 2 * half)
    ensures CompareHalves(cc, l, r, half) == Compare(cc, l, r, 2 * half) <==>
            !(IsSigned(cc) && LowSignsDiffer(l, r, half))
  {
    var m := Modulus(half);
    SplitJoin(l, half);
    SplitJoin(r, half);
    var (llo, lhi, rlo, rhi) := (Bits(l, half), High(l, half), Bits(r, half), High(r, half));
    if IsSigned(cc) {
      SignedHalves(l, half);
      SignedHalves(r, half);
      WordOrder(llo, Signed(lhi, half), rlo, Signed(rhi, half), m);
      WordOrder(rlo, Signed(rhi, half), llo, Signed(lhi, half), m);
    } else {
      WordOrder(llo, lhi, rlo, rhi, m);
      WordOrder(rlo, rhi, llo, lhi, m);
    }
  }

  /** The smallest case where a signed comparison goes wrong: 2^63 < 1 on 128 bits. */
  lemma SignedCompareCanBeWrong()
    ensures CompareHalves(Less(true), 0x8000_0000_0000_0000, 1, 64)
    ensures Fits(0x8000_0000_0000_0000, 128) && Fits(1, 128)
    ensures !Compare(Less(true), 0x8000_0000_0000_0000, 1, 128)
  {
    PowersOfTwo();
    WrapSame(0x8000_0000_0000_0000, Modulus(64));
    WrapSame(1, Modulus(64));
    ModUnique(0x8000_0000_0000_0000, Modulus(64), 0, 0x8000_0000_0000_0000);
    ModUnique(1, Modulus(64), 0, 1);
    WrapSame(0, Modulus(64));
  }

  /** `(l > r) - (l < r)` in 8 bits. */
  function ThreeWay(l: int, r: int, n: nat, signed: bool): (v: int)
    requires n > 0 && Fits(l, n) && Fits(r, n)
    ensures Fits(v, 8)
  {
    Isub(if Compare(Greater(signed), l, r, n) then 1 else 0, if Compare(Less(signed), l, r, n) then 1 else 0, 8)
  }

  lemma ThreeWayIsSign(l: int, r: int, n: nat, signed: bool)
    requires n > 0 && Fits(l, n) && Fits(r, n)
    ensures var d := Value(l, n, signed) - Value(r, n, signed);
            Signed(ThreeWay(l, r, n, signed), 8) == if d < 0 then -1 else if d == 0 then 0 else 1
  {
    var gt := if Compare(Greater(signed), l, r, n) then 1 else 0;
    var lt := if Compare(Less(signed), l, r, n) then 1 else 0;
    assert Modulus(8) == 2 * Pow2(7) && Pow2(7) == 2 * Pow2(6);
    SignedWrap(gt - lt, 8);
  }
}

/** Enum discriminants: direct tags and niche tags. */
module Discriminants {
  import opened MachineInts
  import opened IntArithmetic
  import opened IntBounds

  /** Tagged variants `first..=last` use the tags from `nicheStart` on; the variant `untagged`
      is recognised by any other tag. */
  datatype Niche = Niche(nicheStart: int, first: nat, last: nat, untagged: nat)

  /** An integer type the compiler has: up to 64 bits, or 128. */
  predicate TypeWidth(n: nat)
  {
    0 < n <= 64 || n == 128
  }

  /** What the layout guarantees for a tag of `n` bits and a discriminant of `d` bits. */
  ghost predicate Layout(e: Niche, n: nat, d: nat)
  {
    && TypeWidth(n) && TypeWidth(d)
    && 0 <= e.nicheStart < Pow2(128) && e.first <= e.last
    && e.last - e.first < Modulus(n) && e.last < Modulus(d) && e.untagged < Modulus(d)
  }

  /** The compare with an immediate: two words when the value has 128 bits. */
  predicate CompareImm(cc: Cc, x: int, imm: int, n: nat)
    requires TypeWidth(n) && Fits(x, n)
  {
    if n == 128 then CompareHalves(cc, x, imm, 64) else Compare(cc, x, Bits(imm % Modulus(64), n), n)
  }

  /** Storing variant `v`: nothing is written for the untagged one. */
  function SetNiche(e: Niche, v: nat, tag: int, n: nat): (r: int)
    requires TypeWidth(n) && e.first <= v
  {
    if v == e.untagged then tag else Const((v - e.first + e.nicheStart) % Pow2(128), n)
  }

  function IntCast(x: int, from: nat, to: nat): (r: int)
    requires from > 0 && to > 0 && Fits(x, from)
    ensures Fits(r, to)
  {
    if to >= from then Extend(x, from, to, false) else Bits(x, to)
  }

  function GetNiche(e: Niche, tag: int, n: nat, d: nat): (r: int)
    requires TypeWidth(n) && TypeWidth(d) && e.first <= e.last && Fits(tag, n)
  {
    if e.last == e.first then
      if CompareImm(Equal, tag, e.nicheStart, n) then Const(e.first, d) else Const(e.untagged, d)
    else
      var relative := Isub(tag, Const(e.nicheStart, n), n);
      var cast := IntCast(relative, n, d);
      var tagged := if e.first == 0 then cast else Iadd(cast, Const(e.first, d), d);
      if CompareImm(LessEqual(false), relative, e.last - e.first, n) then tagged else Const(e.untagged, d)
  }

  /** The tag of the tagged variant `first + k`. */
  function NicheTag(e: Niche, k: int, n: nat): (r: int)
    requires n > 0
    ensures Fits(r, n)
  {
    (e.nicheStart + k) % Modulus(n)
  }

  lemma CompareImmExactly(cc: Cc, x: int, imm: int, n: nat)
    requires TypeWidth(n) && Fits(x, n) && !IsSigned(cc)
    ensures CompareImm(cc, x, imm, n) == Compare(cc, x, Bits(imm, n), n)
  {
    if n == 128 {
      CompareHalvesExactly(cc, x, Bits(imm, 128), 64);
      HalvesOfBits(imm);
    } else {
      Pow2Add(n, 64 - n);
      ModMod(imm, Modulus(n), Pow2(64 - n));
    }
  }

  lemma DividesBig(x: int, n: nat)
    requires TypeWidth(n)
    ensures (x % Pow2(128)) % Modulus(n) == x % Modulus(n)
  {
    Pow2Add(n, 128 - n);
    ModMod(x, Modulus(n), Pow2(128 - n));
  }

  lemma SetNicheIsTag(e: Niche, v: nat, tag: int, n: nat)
    requires TypeWidth(n) && e.first <= v && v != e.untagged
    ensures SetNiche(e, v, tag, n) == NicheTag(e, v - e.first, n)
  {
    var x := v - e.first + e.nicheStart;
    ConstIsBits(x % Pow2(128), n);
    DividesBig(x, n);
  }

  /** How far a tag lies above the start of the niche, going around. */
  function Relative(e: Niche, tag: int, n: nat): (r: int)
    requires n > 0
    ensures Fits(r, n)
  {
    (tag - e.nicheStart) % Modulus(n)
  }

  lemma RelativeOfTag(e: Niche, k: int, n: nat)
    requires n > 0 && 0 <= k < Modulus(n)
    ensures Relative(e, NicheTag(e, k, n), n) == k
  {
    var m := Modulus(n);
    ModAdd(-e.nicheStart, e.nicheStart + k, m);
    WrapSame(k, m);
  }

  lemma TagOfRelative(e: Niche, tag: int, n: nat)
    requires n > 0 && Fits(tag, n)
    ensures NicheTag(e, Relative(e, tag, n), n) == tag
  {
    var m := Modulus(n);
    ModAdd(e.nicheStart, tag - e.nicheStart, m);
    WrapSame(tag, m);
  }

  lemma IsubRelative(e: Niche, tag: int, n: nat)
    requires TypeWidth(n) && Fits(tag, n)
    ensures Isub(tag, Const(e.nicheStart, n), n) == Relative(e, tag, n)
  {
    var m := Modulus(n);
    ConstIsBits(e.nicheStart, n);
    DivMod(e.nicheStart, m);
    ModShift(tag - e.nicheStart, e.nicheStart / m, m);
  }

  lemma ConstSmall(x: int, n: nat)
    requires TypeWidth(n) && Fits(x, n)
    ensures Const(x, n) == x
  {
    ConstIsBits(x, n);
    WrapSame(x, Modulus(n));
  }

  /** The shortcut for a single tagged variant compares with its one tag. */
  lemma OneTag(e: Niche, tag: int, n: nat)
    requires TypeWidth(n) && Fits(tag, n)
    ensures CompareImm(Equal, tag, e.nicheStart, n) <==> Relative(e, tag, n) == 0
  {
    CompareImmExactly(Equal, tag, e.nicheStart, n);
    TagOfRelative(e, tag, n);
    RelativeOfTag(e, 0, n);
  }

  lemma IaddSmall(x: int, y: int, n: nat)
    requires n > 0 && Fits(x, n) && Fits(y, n) && Fits(x + y, n)
    ensures Iadd(x, y, n) == x + y
  {
    WrapSame(x + y, Modulus(n));
  }

  lemma TaggedDiscriminant(e: Niche, k: int, n: nat, d: nat)
    requires Layout(e, n, d) && Fits(k, n) && k <= e.last - e.first
    ensures IntCast(k, n, d) == k && Iadd(k, Const(e.first, d), d) == e.first + k
  {
    CastSmall(k, n, d);
    ConstSmall(e.first, d);
    IaddSmall(k, e.first, d);
  }

  /** Reading a tag: `first + k` for the tag that is `k` above the niche start, the untagged
      variant for every tag outside the niche. */
  lemma GetNicheExactly(e: Niche, tag: int, n: nat, d: nat)
    requires Layout(e, n, d) && Fits(tag, n)
    ensures var k := Relative(e, tag, n);
            GetNiche(e, tag, n, d) == if k <= e.last - e.first then e.first + k else e.untagged
  {
    var k, span := Relative(e, tag, n), e.last - e.first;
    ConstSmall(e.untagged, d);
    if span == 0 {
      ConstSmall(e.first, d);
      OneTag(e, tag, n);
    } else {
      IsubRelative(e, tag, n);
      CompareImmExactly(LessEqual(false), k, span, n);
      WrapSame(span, Modulus(n));
      if k <= span { TaggedDiscriminant(e, k, n, d); }
    }
  }

  lemma CastSmall(x: int, from: nat, to: nat)
    requires from > 0 && to > 0 && Fits(x, from) && Fits(x, to)
    ensures IntCast(x, from, to) == x
  {
    WrapSame(x, Modulus(to));
  }

  /** Decoding after encoding gives the variant back: for every width, every niche start
      (wrapping around or not), every range, and whatever was in the tag before. */
  lemma NicheRoundTrip(e: Niche, v: nat, before: int, n: nat, d: nat)
    requires Layout(e, n, d) && e.first <= v <= e.last && v != e.untagged
    ensures Fits(SetNiche(e, v, before, n), n) && GetNiche(e, SetNiche(e, v, before, n), n, d) == v
  {
    SetNicheIsTag(e, v, before, n);
    RelativeOfTag(e, v - e.first, n);
    GetNicheExactly(e, SetNiche(e, v, before, n), n, d);
  }

  /** `tag` is the tag of the tagged variant `v`. */
  ghost predicate IsTagOf(e: Niche, tag: int, v: nat, n: nat)
    requires n > 0
  {
    e.first <= v <= e.last && v != e.untagged && tag == NicheTag(e, v - e.first, n)
  }

  lemma TagAtDistance(e: Niche, tag: int, v: nat, n: nat)
    requires n > 0 && Fits(tag, n) && e.last - e.first < Modulus(n)
    ensures IsTagOf(e, tag, v, n) <==> e.first <= v <= e.last && v != e.untagged && Relative(e, tag, n) == v - e.first
  {
    TagOfRelative(e, tag, n);
    if e.first <= v <= e.last { RelativeOfTag(e, v - e.first, n); }
  }

  lemma NoTagExactly(e: Niche, tag: int, n: nat)
    requires n > 0 && Fits(tag, n) && e.last - e.first < Modulus(n)
    ensures var k := Relative(e, tag, n);
            (k <= e.last - e.first ==> e.first + k == e.untagged) <==> forall v: nat :: !IsTagOf(e, tag, v, n)
  {
    forall v: nat ensures IsTagOf(e, tag, v, n) <==>
                     e.first <= v <= e.last && v != e.untagged && Relative(e, tag, n) == v - e.first {
      TagAtDistance(e, tag, v, n);
    }
    var k := Relative(e, tag, n);
    if k <= e.last - e.first && e.first + k != e.untagged { assert IsTagOf(e, tag, e.first + k, n); }
  }

  /** A tag decodes to the untagged variant exactly when it is no tagged variant's tag. */
  lemma UntaggedExactly(e: Niche, tag: int, n: nat, d: nat)
    requires Layout(e, n, d) && Fits(tag, n)
    ensures GetNiche(e, tag, n, d) == e.untagged <==> forall v: nat :: !IsTagOf(e, tag, v, n)
  {
    GetNicheExactly(e, tag, n, d);
    NoTagExactly(e, tag, n);
  }

  // ---------------------------------------------------------------- direct tags

  /** The discriminant `value`, of a `d`-bit type, stored in a tag of `n` bits. */
  function SetDirect(value: int, n: nat, d: nat): (r: int)
    requires TypeWidth(n) && TypeWidth(d)
  {
    Const(Bits(value, d), n)
  }

  function GetDirect(tag: int, n: nat, d: nat, signed: bool): (r: int)
    requires 0 < n <= d && Fits(tag, n)
  {
    Extend(tag, n, d, signed)
  }

  lemma SetDirectIsBits(value: int, n: nat, d: nat)
    requires TypeWidth(n) && TypeWidth(d) && n <= d
    ensures SetDirect(value, n, d) == Bits(value, n)
  {
    ConstIsBits(Bits(value, d), n);
    Pow2Add(n, d - n);
    ModMod(value, Modulus(n), Pow2(d - n));
  }

  /** A direct tag gives the discriminant back exactly when the discriminant fits the tag. */
  lemma DirectRoundTrip(value: int, n: nat, d: nat, signed: bool)
    requires TypeWidth(n) && TypeWidth(d) && n <= d && InRange(value, d, signed)
    ensures Fits(SetDirect(value, n, d), n)
    ensures GetDirect(SetDirect(value, n, d), n, d, signed) == Bits(value, d) <==> InRange(value, n, signed)
  {
    var tag := SetDirect(value, n, d);
    SetDirectIsBits(value, n, d);
    BitsOfValue(tag, n, signed);
    WiderRange(Value(tag, n, signed), n, d, signed);
    ValueOfBits(Value(tag, n, signed), d, signed);
    ValueOfBits(value, d, signed);
    if InRange(value, n, signed) { ValueOfBits(value, n, signed); }
  }
}
