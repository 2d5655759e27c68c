/**
 The load average: the fixed-point exponential decay, its power in O(log n) steps,
 and how far one bulk step may be from the steps it replaces.
 */
module LoadAverage {

  const FSHIFT: nat := 11
  const FIXED_1: nat := 2048

  function Pow2(f: nat): (r: nat)
    ensures r >= 1 && (f >= 1 ==> r % 2 == 0 && r >= 2)
  {
    if f == 0 then 1 else 2 * Pow2(f - 1)
  }

  // The product of two fixed-point numbers with unit one, rounded to the nearest.
  function MulRound(a: nat, b: nat, one: nat): nat
    requires one >= 1
  {
    (a * b + one / 2) / one
  }

  // Repeated squaring: acc times x to the n.
  function PowerFrom(acc: nat, x: nat, one: nat, n: nat): nat
    requires one >= 1
    decreases n
  {
    if n == 0 then acc
    else
      var acc' := if n % 2 == 1 then MulRound(acc, x, one) else acc;
      if n / 2 == 0 then acc' else PowerFrom(acc', MulRound(x, x, one), one, n / 2)
  }

  lemma PowerStep(acc: nat, x: nat, one: nat, n: nat)
    requires one >= 1 && n > 0
    ensures var acc' := if n % 2 == 1 then MulRound(acc, x, one) else acc;
            PowerFrom(acc, x, one, n) == PowerFrom(acc', MulRound(x, x, one), one, n / 2)
  {
  }

  // fixed_power_int.
  method FixedPowerInt(x: nat, fracBits: nat, n: nat) returns (r: nat)
    requires fracBits >= 1
    ensures r == PowerFrom(Pow2(fracBits), x, Pow2(fracBits), n)
  {
    var one := Pow2(fracBits);
    r := one;
    var base, k := x, n;
    if k != 0 {
      while true
        invariant k > 0
        invariant PowerFrom(r, base, one, k) == PowerFrom(one, x, one, n)
        decreases k
      {
        PowerStep(r, base, one, k);
        if k % 2 == 1 {
          r := MulRound(r, base, one);
        }
        k := k / 2;
        if k == 0 {
          break;
        }
        base := MulRound(base, base, one);
      }
    }
  }

  // calc_load: decay towards active by the weight exp.
  function CalcLoad(load: nat, exp: nat, active: nat): nat
    requires exp <= FIXED_1
  {
    var rest: nat := FIXED_1 - exp;
    var p: nat, q: nat := load * exp, active * rest;
    (p + q + FIXED_1 / 2) / FIXED_1
  }

  // n steps of calc_load.
  function CalcLoadSteps(load: nat, exp: nat, active: nat, n: nat): nat
    requires exp <= FIXED_1
  {
    if n == 0 then load else CalcLoad(CalcLoadSteps(load, exp, active, n - 1), exp, active)
  }

  // calc_load_n: the same decay in one step.
  method CalcLoadN(load: nat, exp: nat, active: nat, n: nat) returns (r: nat)
    requires exp <= FIXED_1
    ensures PowerFrom(FIXED_1, exp, FIXED_1, n) <= FIXED_1
    ensures r == CalcLoad(load, PowerFrom(FIXED_1, exp, FIXED_1, n), active)
  {
    assert Pow2(FSHIFT) == FIXED_1 by { PowFixed(); }
    PowerBound(FIXED_1, exp, FIXED_1, n);
    var e := FixedPowerInt(exp, FSHIFT, n);
    r := CalcLoad(load, e, active);
  }

  lemma PowFixed()
    ensures Pow2(FSHIFT) == FIXED_1
  {
    assert Pow2(3) == 8;
    assert Pow2(6) == 8 * Pow2(3);
    assert Pow2(9) == 8 * Pow2(6);
    assert Pow2(11) == 4 * Pow2(9);
  }

  // ---- Bounds ----

  lemma MulRoundBound(a: nat, b: nat, one: nat)
    requires one >= 1 && a <= one && b <= one
    ensures MulRound(a, b, one) <= one
  {
    MulMono(a, one, b);
    MulMono(b, one, one);
    var p: nat, sq: nat := a * b, one * one;
    assert one * b == b * one && (one + 1) * one == sq + one;
    QuotientBelow(p + one / 2, one, one + 1);
  }

  lemma QuotientBelow(p: nat, d: nat, q: nat)
    requires d >= 1 && p < q * d
    ensures p / d < q
  {
    assert p == d * (p / d) + p % d;
    Cancel(d, p / d, q);
  }

  lemma Cancel(d: nat, x: nat, y: nat)
    requires d * x < d * y
    ensures x < y
  {
  }

  lemma {:induction false} PowerBound(acc: nat, x: nat, one: nat, n: nat)
    requires one >= 1 && acc <= one && x <= one
    ensures PowerFrom(acc, x, one, n) <= one
    decreases n
  {
    if n > 0 {
      MulRoundBound(acc, x, one);
      MulRoundBound(x, x, one);
      PowerBound(if n % 2 == 1 then MulRound(acc, x, one) else acc, MulRound(x, x, one), one, n / 2);
    }
  }

  // Main result: a step never leaves the range between the load and the active count.
  lemma CalcLoadBetween(load: nat, exp: nat, active: nat)
    requires exp <= FIXED_1
    ensures load <= active ==> load <= CalcLoad(load, exp, active) <= active
    ensures active <= load ==> active <= CalcLoad(load, exp, active) <= load
  {
    var rest := FIXED_1 - exp;
    assert load * exp + load * rest == load * FIXED_1;
    assert active * exp + active * rest == active * FIXED_1;
    if load <= active {
      MulMono(load, active, rest);
      MulMono(load, active, exp);
    } else {
      MulMono(active, load, rest);
      MulMono(active, load, exp);
    }
  }

  lemma MulMono(a: nat, b: nat, c: nat)
    requires a <= b
    ensures a * c <= b * c
  {
  }

  // ---- Error of the power ----

  function RPow(b: real, n: nat): real { if n == 0 then 1.0 else b * RPow(b, n - 1) }

  lemma {:induction false} RPowSquare(b: real, k: nat)
    ensures RPow(b * b, k) == RPow(b, 2 * k)
  {
    if k > 0 {
      RPowSquare(b, k - 1);
      var r := RPow(b, 2 * (k - 1));
      assert RPow(b, 2 * k - 1) == b * r;
      assert (b * b) * r == b * (b * r);
    }
  }

  lemma UnitMul(a: real, b: real)
    requires 0.0 <= a <= 1.0 && 0.0 <= b <= 1.0
    ensures 0.0 <= a * b <= 1.0
  {
    NonNeg(a, b);
    NonNeg(1.0 - a, b);
    assert (1.0 - a) * b == b - a * b;
  }

  lemma NonNeg(x: real, y: real)
    requires x >= 0.0 && y >= 0.0
    ensures x * y >= 0.0
  {
  }

  lemma CancelReal(x: real, y: real, f: real)
    requires f > 0.0 && x * f <= y * f
    ensures x <= y
  {
    if x > y {
      Positive(x - y, f);
      assert false;
    }
  }

  lemma Positive(x: real, y: real)
    requires x > 0.0 && y > 0.0
    ensures x * y > 0.0
  {
  }

  // x is within e of y.
  predicate Near(x: real, y: real, e: real) { -e <= x - y <= e }

  lemma ScaleDown(x: real, e: real, w: real)
    requires -e <= x <= e && 0.0 <= w <= 1.0
    ensures -e <= x * w <= e
  {
    NonNeg(e - x, w);
    NonNeg(e + x, w);
    NonNeg(1.0 - w, e);
    assert (e - x) * w == e * w - x * w && (e + x) * w == e * w + x * w && (1.0 - w) * e == e - e * w;
  }

  // Rounding to the nearest moves a quotient by at most a half.
  lemma RoundNear(p: nat, one: nat)
    requires one >= 2 && one % 2 == 0
    ensures Near(((p + one / 2) / one) as real, p as real / one as real, 0.5)
  {
    var q := (p + one / 2) / one;
    var f, h := one as real, (one / 2) as real;
    assert q * one <= p + one / 2 < q * one + one by {
      assert p + one / 2 == one * q + (p + one / 2) % one;
    }
    assert (q * one) as real == q as real * f;
    assert h == f / 2.0;
    assert q as real * f <= p as real + h < q as real * f + f;
    DivideBounds(q as real, p as real, f);
  }

  lemma DivideBounds(q: real, p: real, f: real)
    requires f > 0.0 && q * f <= p + f / 2.0 < q * f + f
    ensures Near(q, p / f, 0.5)
  {
    assert p == (p / f) * f;
    var d := q - p / f;
    assert d * f == q * f - p;
    CancelReal(d, 0.5, f);
    CancelReal(-0.5, d, f);
  }

  lemma NearTrans(a: real, b: real, c: real, e: real, e': real)
    requires Near(a, b, e) && Near(b, c, e')
    ensures Near(a, c, e + e')
  {
  }

  // The quotient of a number by a bound on it.
  lemma UnitQuotient(y: real, f: real)
    requires f > 0.0 && 0.0 <= y <= f
    ensures 0.0 <= y / f <= 1.0 && y == (y / f) * f
  {
    CancelReal(0.0, y / f, f);
    CancelReal(y / f, 1.0, f);
  }

  lemma QuotientOfProduct(x: real, y: real, f: real)
    requires f > 0.0
    ensures (x * y) / f == x * (y / f)
  {
    assert x * y == (x * (y / f)) * f;
  }

  lemma RealProduct(a: nat, b: nat)
    ensures (a * b) as real == a as real * b as real
  {
  }

  // An exact product of approximations: the errors add up.
  lemma ProductNear(x: real, y: real, f: real, u: real, v: real, ea: real, eb: real)
    requires f > 0.0 && 0.0 <= y <= f && 0.0 <= u <= 1.0
    requires Near(x, f * u, ea) && Near(y, f * v, eb)
    ensures Near((x * y) / f, f * (u * v), ea + eb)
  {
    var w := y / f;
    UnitQuotient(y, f);
    ScaleDown(x - f * u, ea, w);
    ScaleDown(y - f * v, eb, u);
    QuotientOfProduct(x, y, f);
    Bilinear(x, y, f, u, v, w);
    NearSum((x * y) / f, f * (u * v), (x - f * u) * w, (y - f * v) * u, ea, eb);
  }

  lemma NearSum(a: real, b: real, d: real, d': real, e: real, e': real)
    requires a - b == d + d' && -e <= d <= e && -e' <= d' <= e'
    ensures Near(a, b, e + e')
  {
  }

  // A rounded product of approximations: rounding adds a half.
  lemma MulRoundNear(a: nat, b: nat, one: nat, u: real, v: real, ea: real, eb: real)
    requires one >= 2 && one % 2 == 0 && b <= one && 0.0 <= u <= 1.0
    requires Near(a as real, one as real * u, ea) && Near(b as real, one as real * v, eb)
    ensures Near(MulRound(a, b, one) as real, one as real * (u * v), 0.5 + (ea + eb))
  {
    MulRoundRaw(a, b, one);
    ProductNear(a as real, b as real, one as real, u, v, ea, eb);
    NearTrans(MulRound(a, b, one) as real, (a as real * b as real) / one as real, one as real * (u * v), 0.5, ea + eb);
  }

  lemma MulRoundRaw(a: nat, b: nat, one: nat)
    requires one >= 2 && one % 2 == 0
    ensures Near(MulRound(a, b, one) as real, (a as real * b as real) / one as real, 0.5)
  {
    RoundNear(a * b, one);
    RealProduct(a, b);
  }

  lemma Bilinear(x: real, y: real, f: real, u: real, v: real, w: real)
    requires y == w * f
    ensures x * w - f * (u * v) == (x - f * u) * w + (y - f * v) * u
  {
    assert (x - f * u) * w == x * w - (f * u) * w;
    assert (y - f * v) * u == y * u - (f * v) * u;
    assert (f * u) * w == (w * f) * u;
    assert f * (u * v) == (f * v) * u;
  }

  // acc stands for u with error k/2, and x for v with error (m-1)/2.
  ghost predicate Stands(acc: nat, x: nat, one: nat, u: real, v: real, k: nat, m: nat) {
    && acc <= one && x <= one && m >= 1 && 0.0 <= u <= 1.0 && 0.0 <= v <= 1.0
    && Near(acc as real, one as real * u, k as real / 2.0)
    && Near(x as real, one as real * v, (m - 1) as real / 2.0)
  }

  lemma SquareStands(acc: nat, x: nat, one: nat, u: real, v: real, k: nat, m: nat)
    requires one >= 2 && one % 2 == 0 && Stands(acc, x, one, u, v, k, m)
    ensures Stands(acc, MulRound(x, x, one), one, u, v * v, k, 2 * m)
  {
    MulRoundBound(x, x, one);
    MulRoundNear(x, x, one, v, v, (m - 1) as real / 2.0, (m - 1) as real / 2.0);
    UnitMul(v, v);
  }

  lemma TimesStands(acc: nat, x: nat, one: nat, u: real, v: real, k: nat, m: nat)
    requires one >= 2 && one % 2 == 0 && Stands(acc, x, one, u, v, k, m)
    ensures Stands(MulRound(acc, x, one), x, one, u * v, v, k + m, m)
  {
    MulRoundBound(acc, x, one);
    MulRoundNear(acc, x, one, u, v, k as real / 2.0, (m - 1) as real / 2.0);
    UnitMul(u, v);
  }

  // Splitting a power in two: n = 2 * (n / 2) + n % 2.
  lemma RPowHalf(u: real, v: real, n: nat)
    requires n > 0
    ensures n % 2 == 1 ==> (u * v) * RPow(v * v, n / 2) == u * RPow(v, n)
    ensures n % 2 == 0 ==> u * RPow(v * v, n / 2) == u * RPow(v, n)
  {
    RPowSquare(v, n / 2);
    var r := RPow(v, 2 * (n / 2));
    if n % 2 == 1 {
      assert RPow(v, n) == v * r;
      assert (u * v) * r == u * (v * r);
    }
  }

  lemma HalfSteps(k: nat, m: nat, n: nat)
    ensures n % 2 == 1 ==> (k + m) + (2 * m) * (n / 2) == k + m * n
    ensures n % 2 == 0 ==> k + (2 * m) * (n / 2) == k + m * n
  {
    var h := n / 2;
    if n % 2 == 1 {
      assert m * n == m * (2 * h + 1) == 2 * m * h + m;
    } else {
      assert m * n == m * (2 * h) == 2 * m * h;
    }
  }

  // t is the exact scaled power acc * x^n stands for, and b the error allowed.
  ghost predicate Aim(one: nat, n: nat, u: real, v: real, k: nat, m: nat, t: real, b: real) {
    t == one as real * (u * RPow(v, n)) && b == (k + m * n) as real / 2.0
  }

  lemma OddAim(one: nat, n: nat, u: real, v: real, k: nat, m: nat, t: real, b: real)
    requires n % 2 == 1 && Aim(one, n, u, v, k, m, t, b)
    ensures Aim(one, n / 2, u * v, v * v, k + m, 2 * m, t, b)
  {
    RPowHalf(u, v, n);
    HalfSteps(k, m, n);
  }

  lemma EvenAim(one: nat, n: nat, u: real, v: real, k: nat, m: nat, t: real, b: real)
    requires n > 0 && n % 2 == 0 && Aim(one, n, u, v, k, m, t, b)
    ensures Aim(one, n / 2, u, v * v, k, 2 * m, t, b)
  {
    RPowHalf(u, v, n);
    HalfSteps(k, m, n);
  }

  lemma LastAim(acc: nat, x: nat, one: nat, u: real, v: real, k: nat, m: nat, t: real, b: real)
    requires Stands(acc, x, one, u, v, k, m) && Aim(one, 0, u, v, k, m, t, b)
    ensures Near(acc as real, t, b)
  {
    assert u * 1.0 == u;
  }

  lemma TimesSquareStands(acc: nat, x: nat, one: nat, u: real, v: real, k: nat, m: nat)
    requires one >= 2 && one % 2 == 0 && Stands(acc, x, one, u, v, k, m)
    ensures Stands(MulRound(acc, x, one), MulRound(x, x, one), one, u * v, v * v, k + m, 2 * m)
  {
    TimesStands(acc, x, one, u, v, k, m);
    SquareStands(MulRound(acc, x, one), x, one, u * v, v, k + m, m);
  }

  // The invariant of repeated squaring.
  lemma {:induction false} PowerNear(acc: nat, x: nat, one: nat, n: nat, u: real, v: real, k: nat, m: nat,
                                     t: real, b: real)
    requires one >= 2 && one % 2 == 0 && Stands(acc, x, one, u, v, k, m) && Aim(one, n, u, v, k, m, t, b)
    ensures Near(PowerFrom(acc, x, one, n) as real, t, b)
    decreases n
  {
    if n == 0 {
      LastAim(acc, x, one, u, v, k, m, t, b);
    } else if n % 2 == 1 {
      OddAim(one, n, u, v, k, m, t, b);
      TimesSquareStands(acc, x, one, u, v, k, m);
      PowerNear(MulRound(acc, x, one), MulRound(x, x, one), one, n / 2, u * v, v * v, k + m, 2 * m, t, b);
    } else {
      EvenAim(one, n, u, v, k, m, t, b);
      SquareStands(acc, x, one, u, v, k, m);
      PowerNear(acc, MulRound(x, x, one), one, n / 2, u, v * v, k, 2 * m, t, b);
    }
  }

  lemma UnitStands(x: nat, one: nat, e: real)
    requires one >= 2 && x <= one && x as real == one as real * e
    ensures Stands(one, x, one, 1.0, e, 0, 1)
  {
    CancelReal(0.0, e, one as real);
    CancelReal(e, 1.0, one as real);
  }

  lemma FirstAim(one: nat, n: nat, e: real)
    ensures Aim(one, n, 1.0, e, 0, 1, one as real * RPow(e, n), n as real / 2.0)
  {
    assert 1.0 * RPow(e, n) == RPow(e, n);
  }

  // The power in units of one, against t, the exact scaled power.
  lemma PowerError(x: nat, one: nat, n: nat, e: real, t: real)
    requires one >= 2 && one % 2 == 0 && x <= one && x as real == one as real * e && t == one as real * RPow(e, n)
    ensures PowerFrom(one, x, one, n) <= one
    ensures Near(PowerFrom(one, x, one, n) as real, t, n as real / 2.0)
  {
    UnitStands(x, one, e);
    PowerBound(one, x, one, n);
    FirstAim(one, n, e);
    PowerNear(one, x, one, n, 1.0, e, 0, 1, t, n as real / 2.0);
  }

  // x in units of one, to the n, in units of one, exactly.
  ghost function ScaledPower(x: nat, one: nat, n: nat): real
    requires one >= 1
  {
    one as real * RPow(x as real / one as real, n)
  }

  lemma ScaledBase(x: nat, one: nat)
    requires one >= 1 && x <= one
    ensures x as real == one as real * (x as real / one as real)
  {
    UnitQuotient(x as real, one as real);
  }

  // Main result: for a base of at most one the power stays in range and within n/2 units of the
  // exact scaled power.
  lemma FixedPowerError(x: nat, fracBits: nat, n: nat)
    requires fracBits >= 1 && x <= Pow2(fracBits)
    ensures PowerFrom(Pow2(fracBits), x, Pow2(fracBits), n) <= Pow2(fracBits)
    ensures Near(PowerFrom(Pow2(fracBits), x, Pow2(fracBits), n) as real, ScaledPower(x, Pow2(fracBits), n),
                 n as real / 2.0)
  {
    ScaledBase(x, Pow2(fracBits));
    PowerError(x, Pow2(fracBits), n, x as real / Pow2(fracBits) as real, ScaledPower(x, Pow2(fracBits), n));
  }

  // ---- Error of the bulk step ----

  // Where the decay by e is after n steps without rounding.
  function Exact(load: real, e: real, active: real, n: nat): real {
    active + (load - active) * RPow(e, n)
  }

  lemma ExactStep(load: real, e: real, active: real, n: nat)
    requires n > 0
    ensures Exact(load, e, active, n) == active + (Exact(load, e, active, n - 1) - active) * e
  {
    var d, r := load - active, RPow(e, n - 1);
    assert d * (e * r) == (d * r) * e;
  }

  // The weighted sum that calc_load rounds.
  lemma Weighted(load: nat, exp: nat, active: nat, e: real)
    requires exp <= FIXED_1 && exp as real == 2048.0 * e
    ensures (load * exp + active * (FIXED_1 - exp)) as real
         == (active as real + (load as real - active as real) * e) * 2048.0
  {
    var rest: nat := FIXED_1 - exp;
    RealProduct(load, exp);
    RealProduct(active, rest);
    var l, a := load as real, active as real;
    assert rest as real == 2048.0 * (1.0 - e);
    assert l * (2048.0 * e) == (l * e) * 2048.0;
    assert a * (2048.0 * (1.0 - e)) == (a - a * e) * 2048.0;
    assert (l - a) * e == l * e - a * e;
  }

  lemma CalcLoadNear(load: nat, exp: nat, active: nat, e: real)
    requires exp <= FIXED_1 && exp as real == 2048.0 * e
    ensures Near(CalcLoad(load, exp, active) as real, active as real + (load as real - active as real) * e, 0.5)
  {
    var rest: nat := FIXED_1 - exp;
    var p: nat, q: nat := load * exp, active * rest;
    Weighted(load, exp, active, e);
    RoundNear(p + q, FIXED_1);
  }

  // One rounded step from an approximation.
  lemma StepNear(was: nat, exp: nat, active: nat, e: real, exact: real, next: real, b: real)
    requires exp <= FIXED_1 && exp as real == 2048.0 * e && Near(was as real, exact, b)
    requires next == active as real + (exact - active as real) * e
    ensures Near(CalcLoad(was, exp, active) as real, next, 0.5 + b)
  {
    var w, a := was as real, active as real;
    CalcLoadNear(was, exp, active, e);
    ScaleDown(w - exact, b, e);
    assert (w - exact) * e == (w - a) * e - (exact - a) * e;
    NearTrans(CalcLoad(was, exp, active) as real, a + (w - a) * e, next, 0.5, b);
  }

  // n rounded steps stay within n/2 of t, the exact decay.
  lemma {:induction false} StepsNear(load: nat, exp: nat, active: nat, n: nat, e: real, t: real)
    requires exp <= FIXED_1 && exp as real == 2048.0 * e && t == Exact(load as real, e, active as real, n)
    ensures Near(CalcLoadSteps(load, exp, active, n) as real, t, n as real / 2.0)
  {
    if n == 0 {
      assert (load as real - active as real) * 1.0 == load as real - active as real;
    } else {
      var t' := Exact(load as real, e, active as real, n - 1);
      ExactStep(load as real, e, active as real, n);
      StepsNear(load, exp, active, n - 1, e, t');
      StepNear(CalcLoadSteps(load, exp, active, n - 1), exp, active, e, t', t, (n - 1) as real / 2.0);
    }
  }

  function AbsDiff(a: nat, b: nat): nat { if a < b then b - a else a - b }

  // One step with a weight that is off by at most h moves the result by at most h * |load - active|.
  lemma Spread(d: real, m: real, x: real, h: real, spread: real)
    requires m >= 0.0 && (d == m || d == -m) && -h <= x <= h && spread == m * h
    ensures -spread <= d * x <= spread
  {
    NonNeg(m, h - x);
    NonNeg(m, h + x);
    assert m * (h - x) == m * h - m * x && m * (h + x) == m * h + m * x;
    assert d * x == m * x || d * x == -(m * x);
  }

  // The fraction that a weight stands for.
  lemma Fraction(power: nat) returns (w: real)
    ensures power as real == 2048.0 * w
  {
    w := power as real / 2048.0;
  }

  lemma Unscale(p: real, w: real, r: real, h: real)
    requires p == 2048.0 * w && Near(p, 2048.0 * r, 2048.0 * h)
    ensures -h <= w - r <= h
  {
  }

  // Replacing the weight w by r in a result known to a half.
  lemma ChangeWeight(bulk: real, a: real, d: real, w: real, r: real, spread: real, exact: real)
    requires Near(bulk, a + d * w, 0.5) && -spread <= d * (w - r) <= spread && exact == a + d * r
    ensures Near(bulk, exact, 0.5 + spread)
  {
    assert d * (w - r) == d * w - d * r;
    NearTrans(bulk, a + d * w, exact, 0.5, spread);
  }

  lemma Distance(load: nat, active: nat)
    ensures var d, m := load as real - active as real, AbsDiff(load, active) as real; m >= 0.0 && (d == m || d == -m)
  {
  }

  // A step with the weight power, which is off by at most h, against one with the weight r.
  lemma BulkNear(load: nat, power: nat, active: nat, r: real, h: real, bulk: real, exact: real, spread: real)
    requires power <= FIXED_1 && Near(power as real, 2048.0 * r, 2048.0 * h)
    requires bulk == CalcLoad(load, power, active) as real
    requires exact == active as real + (load as real - active as real) * r
    requires spread == AbsDiff(load, active) as real * h
    ensures Near(bulk, exact, 0.5 + spread)
  {
    var w := Fraction(power);
    CalcLoadNear(load, power, active, w);
    Unscale(power as real, w, r, h);
    Distance(load, active);
    Spread(load as real - active as real, AbsDiff(load, active) as real, w - r, h, spread);
    ChangeWeight(bulk, active as real, load as real - active as real, w, r, spread, exact);
  }

  lemma WeightNear(exp: nat, n: nat, e: real, r: real, h: real, power: nat)
    requires exp <= FIXED_1 && exp as real == 2048.0 * e && 2048.0 * h == n as real / 2.0
    requires r == RPow(e, n) && power == PowerFrom(FIXED_1, exp, FIXED_1, n)
    ensures power <= FIXED_1 && Near(power as real, 2048.0 * r, 2048.0 * h)
  {
    PowerError(exp, FIXED_1, n, e, 2048.0 * r);
  }

  lemma BulkVsExact(load: nat, exp: nat, active: nat, n: nat, e: real, r: real, power: nat,
                    bulk: real, exact: real, h: real, spread: real)
    requires exp <= FIXED_1 && exp as real == 2048.0 * e && 2048.0 * h == n as real / 2.0
    requires r == RPow(e, n) && power == PowerFrom(FIXED_1, exp, FIXED_1, n) <= FIXED_1
    requires bulk == CalcLoad(load, power, active) as real
    requires exact == active as real + (load as real - active as real) * r
    requires spread == AbsDiff(load, active) as real * h
    ensures Near(bulk, exact, 0.5 + spread)
  {
    WeightNear(exp, n, e, r, h, power);
    BulkNear(load, power, active, r, h, bulk, exact, spread);
  }

  lemma BulkCombine(bulk: real, steps: real, exact: real, half: real, spread: real)
    requires Near(bulk, exact, 0.5 + spread) && Near(steps, exact, half)
    ensures Near(bulk, steps, half + 0.5 + spread)
  {
  }

  lemma StepsVsExact(load: nat, exp: nat, active: nat, n: nat, e: real, r: real, steps: real, exact: real)
    requires exp <= FIXED_1 && exp as real == 2048.0 * e && r == RPow(e, n)
    requires steps == CalcLoadSteps(load, exp, active, n) as real
    requires exact == active as real + (load as real - active as real) * r
    ensures Near(steps, exact, n as real / 2.0)
  {
    StepsNear(load, exp, active, n, e, exact);
  }

  lemma BulkVsSteps(load: nat, exp: nat, active: nat, n: nat, e: real, r: real, power: nat,
                    bulk: real, steps: real, h: real, spread: real)
    requires exp <= FIXED_1 && exp as real == 2048.0 * e && 2048.0 * h == n as real / 2.0
    requires r == RPow(e, n) && power == PowerFrom(FIXED_1, exp, FIXED_1, n) <= FIXED_1
    requires bulk == CalcLoad(load, power, active) as real && steps == CalcLoadSteps(load, exp, active, n) as real
    requires spread == AbsDiff(load, active) as real * h
    ensures Near(bulk, steps, n as real / 2.0 + 0.5 + spread)
  {
    var exact := active as real + (load as real - active as real) * r;
    BulkVsExact(load, exp, active, n, e, r, power, bulk, exact, h, spread);
    StepsVsExact(load, exp, active, n, e, r, steps, exact);
    BulkCombine(bulk, steps, exact, n as real / 2.0, spread);
  }

  lemma BulkStepNear(load: nat, exp: nat, active: nat, n: nat, power: nat, bulk: real, steps: real)
      returns (h: real, spread: real, bound: real)
    requires exp <= FIXED_1 && power == PowerFrom(FIXED_1, exp, FIXED_1, n) <= FIXED_1
    requires bulk == CalcLoad(load, power, active) as real && steps == CalcLoadSteps(load, exp, active, n) as real
    ensures 4096.0 * h == n as real && spread == AbsDiff(load, active) as real * h
    ensures bound == n as real / 2.0 + 0.5 + spread && Near(bulk, steps, bound)
  {
    var e := Fraction(exp);
    h, spread := Share(n, AbsDiff(load, active));
    BulkVsSteps(load, exp, active, n, e, RPow(e, n), power, bulk, steps, h, spread);
    bound := n as real / 2.0 + 0.5 + spread;
  }

  lemma Share(n: nat, d: nat) returns (h: real, spread: real)
    ensures 4096.0 * h == n as real && spread == d as real * h
  {
    h := n as real / 4096.0;
    spread := d as real * h;
  }

  // Main result: the bulk step, with the weight that fixed_power_int gives, differs from the n steps
  // it replaces by at most n/2 + 1/2 + |load - active| * h, where h is n / 4096.
  lemma BulkStepError(load: nat, exp: nat, active: nat, n: nat)
      returns (bulk: real, steps: real, h: real, spread: real, bound: real)
    requires exp <= FIXED_1
    ensures PowerFrom(FIXED_1, exp, FIXED_1, n) <= FIXED_1
    ensures bulk == CalcLoad(load, PowerFrom(FIXED_1, exp, FIXED_1, n), active) as real
    ensures steps == CalcLoadSteps(load, exp, active, n) as real
    ensures 4096.0 * h == n as real && spread == AbsDiff(load, active) as real * h
    ensures bound == n as real / 2.0 + 0.5 + spread && Near(bulk, steps, bound)
  {
    PowerBound(FIXED_1, exp, FIXED_1, n);
    var power := PowerFrom(FIXED_1, exp, FIXED_1, n);
    bulk, steps := CalcLoad(load, power, active) as real, CalcLoadSteps(load, exp, active, n) as real;
    h, spread, bound := BulkStepNear(load, exp, active, n, power, bulk, steps);
  }
}
