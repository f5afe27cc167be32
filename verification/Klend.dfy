/**
 Kamino's share conversion, as copied into the program: `Fraction` is an unsigned fixed-point number
 with 60 fractional bits in 128, `BigFraction` the same in 256. `None` stands for a panic.
 */
module Klend {
  import opened Words
  import opened Division

  const ONE: int := 0x1000_0000_0000_0000
  const TWO_256: int := 0x1_0000_0000_0000_0000_0000_0000_0000_0000_0000_0000_0000_0000_0000_0000_0000_0000

  type fraction = n: int | 0 <= n < 0x1_0000_0000_0000_0000_0000_0000_0000_0000

  // ---------- BigFraction, by its bits ----------

  /** `U256` multiplication panics on overflow. */
  function BigMul(a: nat, b: nat): Option<nat> {
    ScaleMonotone(0, a, b);
    if a * b >= TWO_256 then None else Some(a * b / ONE)
  }

  function BigDivInt(a: nat, d: nat): nat
    requires d > 0
  {
    a / d
  }

  /** A `U256` shift drops the bits that leave the word. */
  function ShiftLeft(a: nat): nat {
    (a * ONE) % TWO_256
  }

  function BigDiv(a: nat, d: fraction): nat
    requires d > 0
  {
    ShiftLeft(a) / d
  }

  function ToFraction(a: nat): Option<fraction> {
    if a < TWO_128 then Some(a) else None
  }

  // ---------- the reserve ----------

  datatype KaminoReserve = KaminoReserve(
    availableAmount: u64, borrowedAmount: fraction, protocolFees: fraction, referrerFees: fraction,
    pendingReferrerFees: fraction, mintTotalSupply: u64)
  {
    /** Exact sum of what the reserve holds and is owed, less the fees. */
    function ExactSupply(): int {
      availableAmount * ONE + borrowedAmount - protocolFees - referrerFees - pendingReferrerFees
    }

    /** The same in `Fraction` arithmetic, which wraps around in a release build. */
    function TotalSupply(): fraction {
      ExactSupply() % TWO_128
    }

    function CollateralExchangeRate(): (r: (u64, fraction))
      ensures r.0 > 0 && r.1 > 0
    {
      if mintTotalSupply == 0 || TotalSupply() == 0 then (1, ONE) else (mintTotalSupply, TotalSupply())
    }

    /** The last step keeps the low 64 bits: `to_num` wraps around in a release build. */
    function CollateralToLiquidity(collateral: u64): Option<u64> {
      var (supply, liquidity) := CollateralExchangeRate();
      var product := BigMul(collateral * ONE, liquidity);
      if product.None? then None else
        var amount := ToFraction(BigDivInt(product.value, supply));
        if amount.None? then None else Some((amount.value / ONE) % TWO_64)
    }

    function LiquidityToCollateral(liquidityAmount: u64): Option<u64> {
      var (supply, liquidity) := CollateralExchangeRate();
      ScaleMonotone(0, supply, liquidityAmount);
      var amount := ToFraction(BigDiv(ShiftLeft(supply * liquidityAmount), liquidity));
      if amount.None? || amount.value / ONE >= TWO_64 then None else Some(amount.value / ONE)
    }

    /** Tokens that `collateral` shares are worth, rounded down once. */
    ghost function ExactLiquidity(collateral: nat): nat {
      var (supply, liquidity) := CollateralExchangeRate();
      ScaleMonotone(0, collateral, liquidity);
      Floor(collateral * liquidity, supply * ONE)
    }

    /** Shares that buy `amount` tokens, rounded down once. */
    ghost function ExactCollateral(amount: nat): nat {
      var (supply, liquidity) := CollateralExchangeRate();
      ScaleMonotone(0, amount, supply);
      Floor(amount * supply * ONE, liquidity)
    }
  }

  lemma TotalSupplyExact(r: KaminoReserve)
    ensures r.TotalSupply() == r.ExactSupply() <==> 0 <= r.ExactSupply() < TWO_128
  {
  }

  lemma ProductBelow(a: nat, b: nat, c: nat, d: nat)
    requires a < c && b < d
    ensures a * b < c * d
  {
    ScaleMonotone(a, c - 1, b);
    ScaleMonotone(b, d, c - 1);
    assert (c - 1) * d == c * d - d;
  }

  /** Shift, multiply, shift back, divide, floor: one exact floor division in the end. The 256-bit
      product cannot overflow; the conversion panics when the fixed-point result needs more than
      128 bits, and is exact exactly when the token amount fits 64. */
  lemma CollateralToLiquidityExact(r: KaminoReserve, collateral: u64)
    ensures var rate := r.CollateralExchangeRate(); var result := r.CollateralToLiquidity(collateral);
            && BigMul(collateral * ONE, rate.1).Some?
            && (result.Some? <==> collateral * rate.1 < TWO_128 * rate.0)
            && (result.Some? ==> result.value == r.ExactLiquidity(collateral) % TWO_64)
            && (result == Some(r.ExactLiquidity(collateral)) <==> r.ExactLiquidity(collateral) < TWO_64)
  {
    var (supply, liquidity) := r.CollateralExchangeRate();
    var m := collateral * liquidity;
    ScaleMonotone(0, collateral, liquidity);
    assert (collateral * ONE) * liquidity == m * ONE;
    ProductBelow(collateral * ONE, liquidity, TWO_128, TWO_128);
    assert m * ONE / ONE == m;
    FloorTwice(m, supply, ONE);
    FloorBelow(m, supply, TWO_128);
    FloorBelow(m / supply, ONE, TWO_64);
  }

  /** The other way: two 60-bit shifts and one division, with no double rounding and no bit lost to
      the 256-bit shifts. It panics exactly when the share amount does not fit 64 bits. */
  lemma LiquidityToCollateralExact(r: KaminoReserve, amount: u64)
    ensures var exact := r.ExactCollateral(amount);
            r.LiquidityToCollateral(amount) == if exact < TWO_64 then Some(exact) else None
  {
    var (supply, liquidity) := r.CollateralExchangeRate();
    var m := supply * amount;
    ScaleMonotone(0, supply, amount);
    ProductBelow(supply, amount, TWO_64, TWO_64);
    ShiftKeeps(m);
    ShiftKeeps(m * ONE);
    assert m == amount * supply;
    ShiftedQuotient(m, liquidity);
  }

  /** Dividing the twice-shifted product and dropping the fraction is dividing the once-shifted one. */
  lemma ShiftedQuotient(m: nat, liquidity: nat)
    requires liquidity > 0
    ensures var quotient := m * ONE * ONE / liquidity;
            && quotient / ONE == m * ONE / liquidity
            && (m * ONE / liquidity < TWO_64 ==> quotient < TWO_128)
  {
    FloorTwice(m * ONE * ONE, liquidity, ONE);
    CancelFactor(m * ONE, liquidity, ONE);
    FloorBelow(m * ONE * ONE / liquidity, ONE, TWO_64);
  }

  lemma ShiftKeeps(a: nat)
    requires a * ONE < TWO_256
    ensures ShiftLeft(a) == a * ONE
  {
  }

  /** On the reserve's own fields. With shares and liquidity both there, a conversion is one floor division by
      their ratio; with either missing, a share is a token. The liquidity is what is held and lent out less the
      three fees, in 60 fractional bits, and wraps around 128. */
  lemma ConversionOfFields(r: KaminoReserve, amount: u64)
    ensures var total :=
              (r.availableAmount * 0x1000_0000_0000_0000 + r.borrowedAmount
               - r.protocolFees - r.referrerFees - r.pendingReferrerFees) % TWO_128;
            var tokens, shares := r.CollateralToLiquidity(amount), r.LiquidityToCollateral(amount);
            if r.mintTotalSupply != 0 && total != 0 then
              && (tokens.Some? <==> amount * total < TWO_128 * r.mintTotalSupply)
              && (tokens.Some? ==>
                    tokens.value == amount * total / (r.mintTotalSupply * 0x1000_0000_0000_0000) % TWO_64)
              && (shares.Some? <==> amount * r.mintTotalSupply * 0x1000_0000_0000_0000 / total < TWO_64)
              && (shares.Some? ==> shares.value == amount * r.mintTotalSupply * 0x1000_0000_0000_0000 / total)
            else tokens == shares == Some(amount)
  {
    CollateralToLiquidityExact(r, amount);
    LiquidityToCollateralExact(r, amount);
    OneToOne(amount);
  }

  lemma OneToOne(amount: u64)
    ensures Floor(amount * ONE, 1 * ONE) == amount && Floor(amount * 1 * ONE, ONE) == amount
    ensures amount * ONE < TWO_128
  {
  }

  /** Converting to shares and back never gains, and loses less than one share's worth plus one token. */
  lemma RoundTrip(r: KaminoReserve, amount: nat)
    ensures var (supply, liquidity) := r.CollateralExchangeRate();
            var back := r.ExactLiquidity(r.ExactCollateral(amount));
            back <= amount && (amount - back - 1) * (supply * ONE) < liquidity
  {
    var (supply, liquidity) := r.CollateralExchangeRate();
    var unit := supply * ONE;
    ScaleMonotone(0, amount, supply);
    assert amount * supply * ONE == amount * unit;
    var shares := amount * unit / liquidity;
    FloorDiv(amount * unit, liquidity);
    ScaleMonotone(0, shares, liquidity);
    var back := shares * liquidity / unit;
    FloorDiv(shares * liquidity, unit);
    ProductGap(back, amount, unit);
    assert (amount - back - 1) * unit == amount * unit - back * unit - unit;
  }

  lemma ConversionsMonotone(r: KaminoReserve, x: nat, y: nat)
    requires x <= y
    ensures r.ExactLiquidity(x) <= r.ExactLiquidity(y)
    ensures r.ExactCollateral(x) <= r.ExactCollateral(y)
  {
    var (supply, liquidity) := r.CollateralExchangeRate();
    ScaleMonotone(0, x, liquidity);
    ScaleMonotone(x, y, liquidity);
    FloorMonotone(x * liquidity, y * liquidity, supply * ONE);
    ScaleMonotone(0, x, supply);
    ScaleMonotone(x, y, supply);
    ScaleMonotone(x * supply, y * supply, ONE);
    FloorMonotone(x * supply * ONE, y * supply * ONE, liquidity);
  }

  ghost function Sum(parts: seq<nat>): nat {
    if parts == [] then 0 else parts[0] + Sum(parts[1..])
  }

  ghost function PiecewiseLiquidity(r: KaminoReserve, parts: seq<nat>): nat {
    if parts == [] then 0 else r.ExactLiquidity(parts[0]) + PiecewiseLiquidity(r, parts[1..])
  }

  /** However the shares are split, redeeming the pieces never totals more than redeeming them at once. */
  lemma {:induction false} SplittingNeverGains(r: KaminoReserve, parts: seq<nat>)
    ensures PiecewiseLiquidity(r, parts) <= r.ExactLiquidity(Sum(parts))
  {
    if parts != [] {
      SplittingNeverGains(r, parts[1..]);
      var (supply, liquidity) := r.CollateralExchangeRate();
      var x, y := parts[0], Sum(parts[1..]);
      ScaleMonotone(0, x, liquidity);
      ScaleMonotone(0, y, liquidity);
      assert (x + y) * liquidity == x * liquidity + y * liquidity;
      FloorSplit(x * liquidity, y * liquidity, supply * ONE);
    }
  }

  /** On the machine: whatever the two conversions return for a deposit and its redemption, the
      redemption cannot exceed the deposit and cannot panic. */
  lemma RoundTripOnMachine(r: KaminoReserve, amount: u64)
    requires r.LiquidityToCollateral(amount).Some?
    ensures var back := r.CollateralToLiquidity(r.LiquidityToCollateral(amount).value);
            back.Some? && back.value <= amount
  {
    LiquidityToCollateralExact(r, amount);
    RoundTrip(r, amount);
    CollateralToLiquidityExact(r, r.ExactCollateral(amount));
  }

  // ---------- the lending position ----------

  /** The shares an obligation holds in a reserve; zero when it is closed or has no such deposit. */
  datatype Position = Position(shares: u64, reserve: KaminoReserve)

  function LendingBalance(p: Position): Option<u64> {
    if p.shares == 0 then Some(0) else p.reserve.CollateralToLiquidity(p.shares)
  }

  /** A position is worth nothing without shares, and otherwise what its shares convert to. */
  lemma LendingBalanceOfFields(p: Position)
    ensures var r := p.reserve;
            var total :=
              (r.availableAmount * 0x1000_0000_0000_0000 + r.borrowedAmount
               - r.protocolFees - r.referrerFees - r.pendingReferrerFees) % TWO_128;
            var balance := LendingBalance(p);
            && (p.shares == 0 ==> balance == Some(0))
            && (r.mintTotalSupply == 0 || total == 0 ==> balance == Some(p.shares))
            && (p.shares > 0 && r.mintTotalSupply > 0 && total > 0 && balance.Some? ==>
                  balance.value == p.shares * total / (r.mintTotalSupply * 0x1000_0000_0000_0000) % TWO_64)
  {
    ConversionOfFields(p.reserve, p.shares);
  }
}
