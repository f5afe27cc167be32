/**
 The price check of an atomic swap, in the source's checked `i128` arithmetic. `None` stands for a
 checked operation that overflowed or divided by zero, on which the program panics.
 */
module Pricing {
  import opened Words
  import opened Division

  const BPS_DENOMINATOR: int := 10_000

  function I128(x: int): (r: Option<int>) {
    if -I128_MAX - 1 <= x <= I128_MAX then Some(x) else None
  }

  /** Rust's integer division: toward zero. */
  function TruncDiv(x: int, d: int): int
    requires d != 0
  {
    if x >= 0 then x / d else -((-x) / d)
  }

  // ---------- ceiling division ----------

  function CheckedCeilDiv(x: int, d: int): Option<int> {
    if d == 0 || I128(TruncDiv(x, d)).None? then None else
      var quotient := TruncDiv(x, d);
      var remainder := x - quotient * d;
      if remainder > 0 then I128(quotient + 1) else Some(quotient)
  }

  /** `q` is the least integer that is at least `x / d`. */
  ghost predicate IsCeiling(q: int, x: int, d: int)
    requires d != 0
  {
    if d > 0 then (q - 1) * d < x <= q * d else (q - 1) * d > x >= q * d
  }

  lemma TruncDivBounds(x: int, d: int)
    requires d != 0
    ensures var q := TruncDiv(x, d);
            && (x >= 0 && d > 0 ==> q * d <= x < q * d + d)
            && (x >= 0 && d < 0 ==> q * d <= x < q * d - d)
            && (x < 0 && d > 0 ==> q * d - d < x <= q * d)
            && (x < 0 && d < 0 ==> q * d + d < x <= q * d)
  {
    var y := if x >= 0 then x else -x;
    var k := y / d;
    assert y == k * d + y % d;
    assert (-k) * d == -(k * d);
  }

  lemma CeilingStep(q: int, d: int)
    ensures (q - 1) * d == q * d - d && (q + 1) * d == q * d + d
  {
  }

  /** `checked_ceil_div` is a ceiling exactly when the divisor is positive or divides evenly. */
  lemma CeilDivIsCeiling(x: int, d: int)
    requires CheckedCeilDiv(x, d).Some?
    ensures IsCeiling(CheckedCeilDiv(x, d).value, x, d) <==> (d > 0 || TruncDiv(x, d) * d == x)
  {
    TruncDivBounds(x, d);
    CeilingStep(TruncDiv(x, d), d);
    CeilingStep(CheckedCeilDiv(x, d).value, d);
  }

  /** A negative divisor that does not divide evenly: 7 / -2 rounds up to -3, but -2 comes back. */
  lemma CeilDivNegativeDivisor()
    ensures CheckedCeilDiv(7, -2) == Some(-2) && !IsCeiling(-2, 7, -2) && IsCeiling(-3, 7, -2)
  {
    assert 7 / -2 == -3;
  }

  // ---------- the swap price ----------

  function Pow(b: nat, e: nat): nat {
    if e == 0 then 1 else b * Pow(b, e - 1)
  }

  lemma {:induction false} PowPositive(b: nat, e: nat)
    requires b > 0
    ensures Pow(b, e) > 0
  {
    if e > 0 {
      PowPositive(b, e - 1);
      ProductPositive(b, Pow(b, e - 1));
    }
  }

  lemma {:induction false} PowAdd(b: nat, e: nat, f: nat)
    ensures Pow(b, e + f) == Pow(b, e) * Pow(b, f)
  {
    if e > 0 {
      calc {
        Pow(b, e + f);
        b * Pow(b, e - 1 + f);
        { PowAdd(b, e - 1, f); }
        b * (Pow(b, e - 1) * Pow(b, f));
        { ProductAssociates(b, Pow(b, e - 1), Pow(b, f)); }
        Pow(b, e) * Pow(b, f);
      }
    }
  }

  lemma ProductAssociates(x: int, y: int, z: int)
    ensures x * (y * z) == (x * y) * z
  {
  }

  function Pow10(decimals: nat): Option<int> {
    I128(Pow(10, decimals))
  }

  /** Ten to the 38th is the last power that fits; a swap's six decimals and an oracle's eighteen are far below. */
  lemma PowersOfTen()
    ensures Pow10(0) == Some(1) && Pow10(6) == Some(1_000_000) && Pow10(18) == Some(1_000_000_000_000_000_000)
    ensures Pow10(38).Some? && Pow10(39).None?
  {
    PowAdd(10, 6, 12);
    PowAdd(10, 18, 18);
    PowAdd(10, 36, 2);
    PowAdd(10, 36, 3);
  }

  /** Price per unit of input, scaled by `prec`. When the numerator overflows, the order of the
      divisions changes. */
  function CalcSwapPrice(inFactor: int, outFactor: int, prec: int, output: u64, input: u64): Option<int>
    requires inFactor > 0 && outFactor > 0 && prec > 0 && input > 0
  {
    var step1 := output * inFactor;
    if I128(step1).None? then None
    else if I128(step1 * prec).Some? then
      Some(TruncDiv(TruncDiv(step1 * prec, input), outFactor))
    else if I128(TruncDiv(step1, outFactor) * prec).None? then None
    else Some(TruncDiv(TruncDiv(step1, outFactor) * prec, input))
  }

  /** `price` does not exceed `n / d`: it is the floor unless `n` overflows, and then less than `slack / d` below. */
  ghost predicate PriceWithin(price: int, n: int, d: int, slack: int)
    requires d > 0
  {
    && 0 <= price && price * d <= n
    && (n <= I128_MAX ==> price == n / d && n < price * d + d)
    && (n > I128_MAX ==> n - price * d < slack)
  }

  /** Both division orders are lower bounds of the exact price `n / d`: the usual one is its floor,
      the fallback falls short by less than `prec / input + 1`. */
  lemma SwapPriceBounds(inFactor: int, outFactor: int, prec: int, output: u64, input: u64)
    requires inFactor > 0 && outFactor > 0 && prec > 0 && input > 0
    ensures input * outFactor > 0
    ensures var price := CalcSwapPrice(inFactor, outFactor, prec, output, input);
            price.Some? ==> PriceWithin(price.value, output * inFactor * prec, input * outFactor, outFactor * (prec + input))
  {
    hide CalcSwapPrice, PriceWithin;
    var s := output * inFactor;
    ScaleMonotone(0, output, inFactor);
    ScaleMonotone(0, s, prec);
    ProductPositive(input, outFactor);
    SwapPriceValue(inFactor, outFactor, prec, output, input, s);
    if s * prec <= I128_MAX {
      MainPrice(s * prec, outFactor, input, outFactor * (prec + input));
    } else {
      FallbackPrice(s, outFactor, prec, input);
    }
  }

  lemma SwapPriceValue(inFactor: int, outFactor: int, prec: int, output: u64, input: u64, s: nat)
    requires inFactor > 0 && outFactor > 0 && prec > 0 && input > 0 && s == output * inFactor && s * prec >= 0
    ensures var price := CalcSwapPrice(inFactor, outFactor, prec, output, input);
            price.Some? ==>
              price.value == if s * prec <= I128_MAX then s * prec / input / outFactor else s / outFactor * prec / input
  {
    TruncDivNonNegative(s * prec, input);
    TruncDivNonNegative(s, outFactor);
    ProductNonNegative(s / outFactor, prec);
  }

  lemma TruncDivNonNegative(x: nat, d: nat)
    requires d > 0
    ensures TruncDiv(x, d) == x / d >= 0
  {
  }

  /** Dividing twice is dividing once. */
  lemma MainPrice(n: nat, f: nat, i: nat, slack: int)
    requires f > 0 && i > 0 && n <= I128_MAX
    ensures i * f > 0 && PriceWithin(n / i / f, n, i * f, slack)
  {
    FloorTwice(n, i, f);
    FloorDiv(n, i * f);
  }

  /** Dividing by `f` before multiplying by `p`: below `s * p / (i * f)` by less than `p / i + 1`. */
  lemma FallbackPrice(s: nat, f: nat, p: nat, i: nat)
    requires f > 0 && p > 0 && i > 0 && s * p > I128_MAX
    ensures i * f > 0 && PriceWithin(s / f * p / i, s * p, i * f, f * (p + i))
  {
    var q := s / f;
    FloorDiv(s, f);
    ScaleMonotone(0, q, p);
    var m := q * p;
    var price := m / i;
    FloorDiv(m, i);
    FallbackBounds(s, f, p, i, q, m, price);
    ProductPositive(i, f);
  }

  lemma FallbackBounds(s: nat, f: nat, p: nat, i: nat, q: nat, m: nat, price: nat)
    requires q * f <= s < q * f + f && m == q * p && price * i <= m < price * i + i
    ensures price * (i * f) <= s * p < price * (i * f) + f * (p + i)
  {
    FallbackLower(s, f, p, i, q, m, price);
    FallbackUpper(s, f, p, i, q, m, price);
  }

  lemma FallbackLower(s: nat, f: nat, p: nat, i: nat, q: nat, m: nat, price: nat)
    requires q * f <= s && m == q * p && price * i <= m
    ensures price * (i * f) <= s * p
  {
    ScaleMonotone(price * i, m, f);
    ScaleMonotone(q * f, s, p);
    assert (price * i) * f == price * (i * f);
    assert m * f == (q * f) * p;
  }

  lemma FallbackUpper(s: nat, f: nat, p: nat, i: nat, q: nat, m: nat, price: nat)
    requires s < q * f + f && m == q * p && m < price * i + i
    ensures s * p < price * (i * f) + f * (p + i)
  {
    ProductGap(price * i + i, m, f);
    Distribute(price * i, i, f);
    assert (price * i) * f == price * (i * f);
    ProductGap(q * f + f, s, p);
    Distribute(q * f, f, p);
    assert (q * f) * p == m * f;
    Distribute(p, i, f);
    assert f * (p + i) == (p + i) * f && f * p == p * f;
    ProductGap(price * i + i, m, f);
  }

  lemma Distribute(a: int, b: int, k: int)
    ensures (a + b) * k == a * k + b * k
  {
  }

  // ---------- the slippage check ----------

  datatype SlippageResult = Accepted | InsufficientFunds | SlippageExceeded | Panicked

  function KeptBps(maxSlippageBps: nat): nat {
    Max(BPS_DENOMINATOR - maxSlippageBps, 0)
  }

  function MinSwapPrice(oraclePrice: int, maxSlippageBps: nat): Option<int> {
    var scaled := I128(oraclePrice * KeptBps(maxSlippageBps));
    if scaled.None? then None else CheckedCeilDiv(scaled.value, BPS_DENOMINATOR)
  }

  function CheckSwapSlippage(input: u64, inDecimals: nat, output: u64, outDecimals: nat,
                             maxSlippageBps: nat, oraclePrice: int, precision: nat): SlippageResult
  {
    if input == 0 then Accepted
    else if output == 0 then InsufficientFunds
    else if Pow10(inDecimals).None? || Pow10(outDecimals).None? || Pow10(precision).None? then Panicked
    else
      PowPositive(10, inDecimals); PowPositive(10, outDecimals); PowPositive(10, precision);
      var price := CalcSwapPrice(Pow10(inDecimals).value, Pow10(outDecimals).value, Pow10(precision).value,
                                 output, input);
      var minimum := MinSwapPrice(oraclePrice, maxSlippageBps);
      if price.None? || minimum.None? then Panicked
      else if price.value < minimum.value then SlippageExceeded
      else Accepted
  }

  /** The exact rational test: `output` buys `input` at no worse than `oraclePrice` less the slippage. */
  ghost predicate FairSwap(input: nat, inDecimals: nat, output: nat, outDecimals: nat,
                           maxSlippageBps: nat, oraclePrice: int, precision: nat)
  {
    output * Pow(10, inDecimals) * Pow(10, precision) * 10_000
    >= input * Pow(10, outDecimals) * (oraclePrice * Max(10_000 - maxSlippageBps, 0))
  }

  /** Floor below, ceiling above: whatever is accepted passes the exact test. */
  lemma AcceptedIsFair(input: u64, inDecimals: nat, output: u64, outDecimals: nat,
                       maxSlippageBps: nat, oraclePrice: int, precision: nat)
    ensures CheckSwapSlippage(input, inDecimals, output, outDecimals, maxSlippageBps, oraclePrice, precision).Accepted?
        ==> FairSwap(input, inDecimals, output, outDecimals, maxSlippageBps, oraclePrice, precision)
  {
    if !CheckSwapSlippage(input, inDecimals, output, outDecimals, maxSlippageBps, oraclePrice, precision).Accepted? {
      return;
    }
    var inF, outF, prec := Pow(10, inDecimals), Pow(10, outDecimals), Pow(10, precision);
    PowPositive(10, inDecimals); PowPositive(10, outDecimals); PowPositive(10, precision);
    ScaleMonotone(0, output, inF);
    ScaleMonotone(0, output * inF, prec);
    if input > 0 {
      var price := CalcSwapPrice(inF, outF, prec, output, input).value;
      var minimum := MinSwapPrice(oraclePrice, maxSlippageBps).value;
      var floor := oraclePrice * KeptBps(maxSlippageBps);
      SwapPriceBounds(inF, outF, prec, output, input);
      CeilDivIsCeiling(floor, BPS_DENOMINATOR);
      ProductPositive(input, outF);
      FairScaling(price, floor, input * outF, output * inF * prec);
    } else {
      ZeroFactor(input * outF, oraclePrice * KeptBps(maxSlippageBps));
    }
  }

  lemma FairScaling(price: int, floor: int, d: int, n: int)
    requires d > 0 && price * d <= n && floor <= price * BPS_DENOMINATOR
    ensures n * BPS_DENOMINATOR >= d * floor
  {
    ScaleMonotone(floor, price * BPS_DENOMINATOR, d);
    assert (price * BPS_DENOMINATOR) * d == (price * d) * BPS_DENOMINATOR;
  }

  /** What the price divides: the exact numerator, or, when that overflows, the whole output units times the
      precision. */
  ghost function Numerator(output: nat, inFactor: nat, outFactor: nat, prec: nat): int
    requires outFactor > 0
  {
    if output * inFactor * prec <= I128_MAX then output * inFactor * prec
    else output * inFactor / outFactor * outFactor * prec
  }

  /** Every product the check forms fits 128 bits, in one order of the divisions or the other. */
  ghost predicate Computable(inDecimals: nat, output: nat, outDecimals: nat, maxSlippageBps: nat,
                             oraclePrice: int, precision: nat)
  {
    var inF, outF, prec := Pow(10, inDecimals), Pow(10, outDecimals), Pow(10, precision);
    PowPositive(10, outDecimals);
    && inF <= I128_MAX && outF <= I128_MAX && prec <= I128_MAX
    && output * inF <= I128_MAX && (output * inF * prec <= I128_MAX || output * inF / outF * prec <= I128_MAX)
    && -I128_MAX - 1 <= oraclePrice * Max(10_000 - maxSlippageBps, 0) <= I128_MAX
  }

  /** On every input: the check panics exactly when both sides moved and a product overflows, and accepts
      exactly when nothing was spent, or it computes and some whole price lies between the exact minimum and
      what the numerator supports, in the division order it takes. */
  lemma AcceptedIff(input: u64, inDecimals: nat, output: u64, outDecimals: nat,
                    maxSlippageBps: nat, oraclePrice: int, precision: nat)
    ensures var result :=
              CheckSwapSlippage(input, inDecimals, output, outDecimals, maxSlippageBps, oraclePrice, precision);
            var computable := Computable(inDecimals, output, outDecimals, maxSlippageBps, oraclePrice, precision);
            && (result.Panicked? <==> input > 0 && output > 0 && !computable)
            && (result.Accepted? <==>
                  || input == 0
                  || (&& output > 0 && computable
                      && exists p :: WholePriceBetween(p, input, inDecimals, output, outDecimals, maxSlippageBps,
                                                       oraclePrice, precision)))
  {
    hide CheckSwapSlippage, Computable, WholePriceBetween;
    PanicsIff(input, inDecimals, output, outDecimals, maxSlippageBps, oraclePrice, precision);
    if input > 0 && output > 0 && Computable(inDecimals, output, outDecimals, maxSlippageBps, oraclePrice, precision) {
      AcceptedIffPriced(input, inDecimals, output, outDecimals, maxSlippageBps, oraclePrice, precision);
    }
  }

  lemma PanicsIff(input: u64, inDecimals: nat, output: u64, outDecimals: nat,
                  maxSlippageBps: nat, oraclePrice: int, precision: nat)
    ensures var result :=
              CheckSwapSlippage(input, inDecimals, output, outDecimals, maxSlippageBps, oraclePrice, precision);
            var computable := Computable(inDecimals, output, outDecimals, maxSlippageBps, oraclePrice, precision);
            && (input == 0 ==> result.Accepted?)
            && (input > 0 && output == 0 ==> result.InsufficientFunds?)
            && (result.Panicked? <==> input > 0 && output > 0 && !computable)
  {
    hide CalcSwapPrice;
    PowPositive(10, inDecimals); PowPositive(10, outDecimals); PowPositive(10, precision);
    if input > 0 {
      PriceComputes(Pow(10, inDecimals), Pow(10, outDecimals), Pow(10, precision), output, input);
      MinimumComputes(oraclePrice, maxSlippageBps);
    }
  }

  lemma PriceComputes(inFactor: nat, outFactor: nat, prec: nat, output: u64, input: u64)
    requires inFactor > 0 && outFactor > 0 && prec > 0 && input > 0
    ensures CalcSwapPrice(inFactor, outFactor, prec, output, input).Some?
       <==> && output * inFactor <= I128_MAX
            && (output * inFactor * prec <= I128_MAX || output * inFactor / outFactor * prec <= I128_MAX)
  {
    var s := output * inFactor;
    ScaleMonotone(0, output, inFactor);
    ScaleMonotone(0, s, prec);
    TruncDivNonNegative(s, outFactor);
    ScaleMonotone(0, s / outFactor, prec);
  }

  lemma MinimumComputes(oraclePrice: int, maxSlippageBps: nat)
    ensures MinSwapPrice(oraclePrice, maxSlippageBps).Some?
       <==> -I128_MAX - 1 <= oraclePrice * KeptBps(maxSlippageBps) <= I128_MAX
  {
    var scaled := oraclePrice * KeptBps(maxSlippageBps);
    TruncDivBounds(scaled, BPS_DENOMINATOR);
  }

  lemma AcceptedIffPriced(input: u64, inDecimals: nat, output: u64, outDecimals: nat,
                          maxSlippageBps: nat, oraclePrice: int, precision: nat)
    requires input > 0 && output > 0
    ensures var result :=
              CheckSwapSlippage(input, inDecimals, output, outDecimals, maxSlippageBps, oraclePrice, precision);
            !result.Panicked? ==>
              (result.Accepted? <==>
                 exists p :: WholePriceBetween(p, input, inDecimals, output, outDecimals, maxSlippageBps,
                                               oraclePrice, precision))
  {
    if CheckSwapSlippage(input, inDecimals, output, outDecimals, maxSlippageBps, oraclePrice, precision).Panicked? {
      return;
    }
    hide CalcSwapPrice, Numerator;
    var inF, outF, prec := Pow(10, inDecimals), Pow(10, outDecimals), Pow(10, precision);
    PowPositive(10, inDecimals); PowPositive(10, outDecimals); PowPositive(10, precision);
    var price := CalcSwapPrice(inF, outF, prec, output, input).value;
    var minimum := MinSwapPrice(oraclePrice, maxSlippageBps).value;
    var floor := oraclePrice * KeptBps(maxSlippageBps);
    var d := input * outF;
    PriceIsGreatest(inF, outF, prec, output, input);
    CeilDivIsCeiling(floor, BPS_DENOMINATOR);
    if price >= minimum {
      assert WholePriceBetween(price, input, inDecimals, output, outDecimals, maxSlippageBps, oraclePrice, precision);
    }
    forall p | WholePriceBetween(p, input, inDecimals, output, outDecimals, maxSlippageBps, oraclePrice, precision)
      ensures minimum <= p <= price
    {
      ProductGap(p, price, d);
    }
  }

  /** The price is the greatest whole number of times `input * outFactor` goes into the numerator. */
  lemma PriceIsGreatest(inFactor: nat, outFactor: nat, prec: nat, output: u64, input: u64)
    requires inFactor > 0 && outFactor > 0 && prec > 0 && input > 0
    ensures input * outFactor > 0
    ensures var price := CalcSwapPrice(inFactor, outFactor, prec, output, input);
            var d := input * outFactor;
            price.Some? ==> price.value * d <= Numerator(output, inFactor, outFactor, prec) < price.value * d + d
  {
    hide CalcSwapPrice;
    var s := output * inFactor;
    ScaleMonotone(0, output, inFactor);
    ScaleMonotone(0, s, prec);
    ProductPositive(input, outFactor);
    SwapPriceValue(inFactor, outFactor, prec, output, input, s);
    if s * prec <= I128_MAX {
      FloorTwice(s * prec, input, outFactor);
      FloorDiv(s * prec, input * outFactor);
    } else {
      FallbackIsGreatest(s / outFactor, outFactor, prec, input);
    }
  }

  lemma FallbackIsGreatest(q: nat, f: nat, p: nat, i: nat)
    requires f > 0 && p > 0 && i > 0
    ensures q * p >= 0
    ensures var price := q * p / i; price * (i * f) <= q * f * p < price * (i * f) + i * f
  {
    ScaleMonotone(0, q, p);
    var m := q * p;
    var price := m / i;
    FloorDiv(m, i);
    ScaleMonotone(price * i, m, f);
    ProductGap(price * i + i, m, f);
    Distribute(price * i, i, f);
    ProductAssociates(price, i, f);
    assert m * f == q * f * p;
  }

  ghost predicate WholePriceBetween(p: int, input: nat, inDecimals: nat, output: nat, outDecimals: nat,
                                    maxSlippageBps: nat, oraclePrice: int, precision: nat)
  {
    PowPositive(10, outDecimals);
    && oraclePrice * Max(10_000 - maxSlippageBps, 0) <= p * 10_000
    && p * (input * Pow(10, outDecimals))
       <= Numerator(output, Pow(10, inDecimals), Pow(10, outDecimals), Pow(10, precision))
  }

  // ---------- the oracle ----------

  /** An oracle quotes `X * 10^P`; inverted it is `10^P / X = 10^(2P) / (X * 10^P)`. */
  function GetPrice(value: int, precision: nat, invert: bool): Option<int> {
    if !invert then Some(value) else
      var scale := Pow10((precision * 2) % 0x1_0000_0000);
      if scale.None? then None else CheckedCeilDiv(scale.value, value)
  }

  /** Accepted against the inverted price. */
  predicate AcceptedInverted(input: u64, inDecimals: nat, output: u64, outDecimals: nat,
                             maxSlippageBps: nat, value: int, precision: nat)
  {
    var price := GetPrice(value, precision, true);
    && price.Some?
    && CheckSwapSlippage(input, inDecimals, output, outDecimals, maxSlippageBps, price.value, precision).Accepted?
  }

  /** The exact test against `10^precision / value`. */
  ghost predicate FairInverted(input: nat, inDecimals: nat, output: nat, outDecimals: nat,
                               maxSlippageBps: nat, value: int, precision: nat)
  {
    output * Pow(10, inDecimals) * value * 10_000
    >= input * Pow(10, outDecimals) * Pow(10, precision) * Max(10_000 - maxSlippageBps, 0)
  }

  /** Two ceilings on top of each other still never favour the borrower. */
  lemma AcceptedInvertedIsFair(input: u64, inDecimals: nat, output: u64, outDecimals: nat,
                               maxSlippageBps: nat, value: int, precision: nat)
    requires value > 0 && precision * 2 < 0x1_0000_0000
    ensures AcceptedInverted(input, inDecimals, output, outDecimals, maxSlippageBps, value, precision)
        ==> FairInverted(input, inDecimals, output, outDecimals, maxSlippageBps, value, precision)
  {
    if !AcceptedInverted(input, inDecimals, output, outDecimals, maxSlippageBps, value, precision) { return; }
    var price := GetPrice(value, precision, true).value;
    AcceptedIsFair(input, inDecimals, output, outDecimals, maxSlippageBps, price, precision);
    var prec := Pow(10, precision);
    InvertedPriceIsCeiling(value, precision);
    PowPositive(10, precision);
    PowPositive(10, outDecimals);
    ScaleMonotone(0, input, Pow(10, outDecimals));
    InvertedScaling(output * Pow(10, inDecimals), input * Pow(10, outDecimals), KeptBps(maxSlippageBps),
                    price, value, prec);
  }

  lemma InvertedPriceIsCeiling(value: int, precision: nat)
    requires value > 0 && precision * 2 < 0x1_0000_0000 && GetPrice(value, precision, true).Some?
    ensures IsCeiling(GetPrice(value, precision, true).value, Pow(10, precision) * Pow(10, precision), value)
  {
    var scale := Pow10((precision * 2) % 0x1_0000_0000).value;
    assert scale == Pow(10, precision) * Pow(10, precision) by {
      assert (precision * 2) % 0x1_0000_0000 == precision + precision;
      PowAdd(10, precision, precision);
    }
    CeilDivByPositive(scale, value);
  }

  lemma CeilDivByPositive(x: int, d: int)
    requires d > 0
    ensures CheckedCeilDiv(x, d).Some? ==> IsCeiling(CheckedCeilDiv(x, d).value, x, d)
  {
    if CheckedCeilDiv(x, d).Some? { CeilDivIsCeiling(x, d); }
  }

  lemma InvertedScaling(outScaled: int, inScaled: int, kept: int, price: int, value: int, prec: int)
    requires 0 <= inScaled && 0 <= kept && value > 0 && prec > 0
    requires prec * prec <= price * value
    requires outScaled * prec * BPS_DENOMINATOR >= inScaled * (price * kept)
    ensures outScaled * value * BPS_DENOMINATOR >= inScaled * prec * kept
  {
    var g := inScaled * kept;
    ScaleMonotone(0, inScaled, kept);
    ScaleMonotone(inScaled * (price * kept), outScaled * prec * BPS_DENOMINATOR, value);
    assert inScaled * (price * kept) * value == (price * value) * g;
    ScaleMonotone(prec * prec, price * value, g);
    var left := outScaled * value * BPS_DENOMINATOR;
    var right := inScaled * prec * kept;
    assert outScaled * prec * BPS_DENOMINATOR * value == left * prec;
    assert (prec * prec) * g == right * prec;
    ProductGap(right, left, prec);
  }
}
