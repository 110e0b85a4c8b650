/** Finite values of Python's `decimal.Decimal` with an exponent of zero or
    less: an integer coefficient and a number of places after the point (the
    negated exponent), so that
    `Decimal("100.00")` is `Decimal(10000, 2)`. The meaning of a value is the
    exact rational it denotes, given as a `real`. */
module Decimals {

  datatype Decimal = Decimal(coef: int, places: nat)

  /** Coefficients below this bound have at most 28 digits, the precision of
      Python's default decimal context. */
  const ContextCoefficientBound: int := 10_000_000_000_000_000_000_000_000_000

  /** 10^22 + 10^14: a bound on the payout coefficient of any operands the
      money fields accept. */
  const PayoutCoefficientBound: int := 10_000_000_100_000_000_000_000

  /** 10^20 + 10^12: the same bound for operands read back from the database,
      which always have two places. */
  const StoredPayoutCoefficientBound: int := 100_000_001_000_000_000_000

  function Pow10(n: nat): (r: nat)
    ensures r >= 1
  {
    if n == 0 then 1 else 10 * Pow10(n - 1)
  }

  lemma {:induction false} Pow10Add(a: nat, b: nat)
    ensures Pow10(a + b) == Pow10(a) * Pow10(b)
  {
    if a > 0 {
      Pow10Add(a - 1, b);
      assert Pow10(a + b) == 10 * Pow10(a - 1 + b);
    }
  }

  /** The exact number a decimal denotes. */
  function Value(d: Decimal): real {
    d.coef as real / Pow10(d.places) as real
  }

  /** Appends `k` zeros to the coefficient: the same number with more places. */
  function Rescale(d: Decimal, k: nat): (r: Decimal)
    ensures r.places == d.places + k
    ensures Value(r) == Value(d)
  {
    var r := Decimal(d.coef * Pow10(k), d.places + k);
    Pow10Add(d.places, k);
    IntProductAsReal(d.coef, Pow10(k));
    IntProductAsReal(Pow10(d.places), Pow10(k));
    ScaleFraction(d.coef as real, Pow10(d.places) as real, Pow10(k) as real);
    r
  }

  lemma IntProductAsReal(x: int, y: int)
    ensures (x * y) as real == x as real * y as real
  {
  }

  lemma ScaleFraction(x: real, p: real, q: real)
    requires p > 0.0 && q > 0.0
    ensures (x * q) / (p * q) == x / p
  {
  }

  lemma ProductOfFractions(x: real, y: real, p: real, q: real)
    requires p > 0.0 && q > 0.0
    ensures (x * y) / (p * q) == (x / p) * (y / q)
  {
    var u, v := x / p, y / q;
    assert x == u * p && y == v * q;
    assert x * y == (u * v) * (p * q);
  }

  /** `a * b`: coefficients multiply and exponents add, with no rounding as
      long as the coefficient fits the context precision. */
  function Mul(a: Decimal, b: Decimal): (r: Decimal)
    ensures r.places == a.places + b.places
    ensures Value(r) == Value(a) * Value(b)
  {
    MulValue(a, b);
    Decimal(a.coef * b.coef, a.places + b.places)
  }

  lemma MulValue(a: Decimal, b: Decimal)
    ensures Value(Decimal(a.coef * b.coef, a.places + b.places)) == Value(a) * Value(b)
  {
    Pow10Add(a.places, b.places);
    FractionProduct(a.coef, b.coef, Pow10(a.places), Pow10(b.places));
  }

  lemma FractionProduct(x: int, y: int, p: nat, q: nat)
    requires p > 0 && q > 0
    ensures (x * y) as real / (p * q) as real == (x as real / p as real) * (y as real / q as real)
  {
    var xr, yr, pr, qr := x as real, y as real, p as real, q as real;
    assert (x * y) as real == xr * yr by { IntProductAsReal(x, y); }
    assert (p * q) as real == pr * qr by { IntProductAsReal(p, q); }
    ProductOfFractions(xr, yr, pr, qr);
  }

  function Max(x: nat, y: nat): nat {
    if x < y then y else x
  }

  /** `a - b`: both operands are brought to the larger number of places and
      the coefficients are subtracted. */
  function Sub(a: Decimal, b: Decimal): (r: Decimal)
    ensures r.places == Max(a.places, b.places)
    ensures Value(r) == Value(a) - Value(b)
  {
    var p := Max(a.places, b.places);
    var a', b' := Rescale(a, p - a.places), Rescale(b, p - b.places);
    DifferenceOfFractions(a'.coef, b'.coef, Pow10(p));
    Decimal(a'.coef - b'.coef, p)
  }

  lemma DifferenceOfFractions(x: int, y: int, p: nat)
    requires p > 0
    ensures (x - y) as real / p as real == x as real / p as real - y as real / p as real
  {
  }

  /** Magnitude bound of a coefficient of at most ten digits. */
  const MoneyCoefficientBound: int := 10_000_000_000

  /** A value `DecimalField(max_digits=10, decimal_places=2)` accepts: at most
      two places and at most ten digits. A value typed into a form keeps the
      places it was typed with (`Decimal("100")` has none). */
  predicate IsMoneyField(d: Decimal) {
    d.places <= 2 && -MoneyCoefficientBound < d.coef < MoneyCoefficientBound
  }

  /** A money value as read back from the database: exactly two places. */
  predicate IsStoredMoney(d: Decimal) {
    IsMoneyField(d) && d.places == 2
  }

  /** The payout of a transaction: `amount * exchange_rate - transaction_fee`. */
  function AmountToReceive(amount: Decimal, exchangeRate: Decimal, fee: Decimal): (r: Decimal)
    ensures Value(r) == Value(amount) * Value(exchangeRate) - Value(fee)
    ensures r.places == Max(amount.places + exchangeRate.places, fee.places)
  {
    Sub(Mul(amount, exchangeRate), fee)
  }

  const DefaultExchangeRate: Decimal := Decimal(10000, 2)
  const DefaultTransactionFee: Decimal := Decimal(0, 2)

  /** Under the field defaults the payout is the amount times one hundred. */
  lemma DefaultPricing(amount: Decimal)
    ensures Value(AmountToReceive(amount, DefaultExchangeRate, DefaultTransactionFee)) == Value(amount) * 100.0
  {
    assert Pow10(2) == 100;
    assert Value(DefaultExchangeRate) == 100.0;
    assert Value(DefaultTransactionFee) == 0.0;
  }

  lemma MulLe(a: int, b: int, c: int)
    requires 0 <= a && b <= c
    ensures a * b <= a * c
  {
    assert a * c - a * b == a * (c - b);
  }

  lemma NonNegativeProductBound(a: int, b: int, m: int)
    requires 0 <= a < m && 0 <= b < m
    ensures a * b < m * m
  {
    MulLe(a, b, m);
    MulLe(m, a, m - 1);
    assert m * (m - 1) == m * m - m;
  }

  lemma ProductBound(x: int, y: int, m: int)
    requires -m < x < m && -m < y < m
    ensures -(m * m) < x * y < m * m
  {
    if x >= 0 && y >= 0 {
      NonNegativeProductBound(x, y, m);
    } else if x < 0 && y < 0 {
      NonNegativeProductBound(-x, -y, m);
      assert (-x) * (-y) == x * y;
    } else if x < 0 {
      NonNegativeProductBound(-x, y, m);
      assert (-x) * y == -(x * y);
    } else {
      NonNegativeProductBound(x, -y, m);
      assert x * (-y) == -(x * y);
    }
  }

  lemma Pow10Small(k: nat)
    requires k <= 4
    ensures Pow10(k) <= 10000
  {
    assert Pow10(0) == 1 && Pow10(1) == 10 && Pow10(2) == 100;
    assert Pow10(3) == 1000 && Pow10(4) == 10000;
  }

  lemma ScaledBound(x: int, f: int, b: int, fb: int)
    requires -b < x < b && 1 <= f <= fb
    ensures -(b * fb) < x * f < b * fb
  {
    var ax := if x < 0 then -x else x;
    assert ax * f == x * f || ax * f == -(x * f);
    MulLe(ax, f, fb);
    MulLe(fb, ax, b - 1);
    assert fb * (b - 1) == b * fb - fb;
  }

  /** With operands the money fields accept, the product and the exact payout
      have coefficients of at most 28 digits, so Python's default decimal
      context rounds neither the multiplication nor the subtraction; the
      payout has at most four places. */
  lemma {:induction false} PayoutIsExact(amount: Decimal, exchangeRate: Decimal, fee: Decimal)
    requires IsMoneyField(amount) && IsMoneyField(exchangeRate) && IsMoneyField(fee)
    ensures -ContextCoefficientBound < Mul(amount, exchangeRate).coef < ContextCoefficientBound
    ensures AmountToReceive(amount, exchangeRate, fee).places <= 4
    ensures -PayoutCoefficientBound < AmountToReceive(amount, exchangeRate, fee).coef < PayoutCoefficientBound
    ensures -ContextCoefficientBound < AmountToReceive(amount, exchangeRate, fee).coef < ContextCoefficientBound
  {
    var m := MoneyCoefficientBound;
    ProductBound(amount.coef, exchangeRate.coef, m);
    var prod := Mul(amount, exchangeRate);
    var p := Max(prod.places, fee.places);
    var k1, k2 := p - prod.places, p - fee.places;
    assert k1 <= 2 && k2 <= 4;
    Pow10Small(k1);
    Pow10Small(k2);
    ScaledBound(prod.coef, Pow10(k1), m * m, 100);
    ScaledBound(fee.coef, Pow10(k2), m, 10000);
    assert AmountToReceive(amount, exchangeRate, fee).coef
      == prod.coef * Pow10(k1) - fee.coef * Pow10(k2);
  }

  /** For operands read back from the database the payout has exactly four
      places and a coefficient below 10^20 + 10^12. */
  lemma {:induction false} StoredPayoutBound(amount: Decimal, exchangeRate: Decimal, fee: Decimal)
    requires IsStoredMoney(amount) && IsStoredMoney(exchangeRate) && IsStoredMoney(fee)
    ensures AmountToReceive(amount, exchangeRate, fee).places == 4
    ensures -StoredPayoutCoefficientBound < AmountToReceive(amount, exchangeRate, fee).coef < StoredPayoutCoefficientBound
  {
    var m := MoneyCoefficientBound;
    ProductBound(amount.coef, exchangeRate.coef, m);
    var prod := Mul(amount, exchangeRate);
    assert Rescale(prod, 0).coef == prod.coef;
    assert Rescale(fee, 2).coef == fee.coef * 100;
  }
}
