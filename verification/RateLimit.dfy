/**
 The leaky bucket that limits how much may leave a reserve or an integration.

 `available` refills at `slope` units a day up to `max`; the part of a unit that has accrued is
 carried in `remainder`, in 1/86400ths. A `max` of `u64::MAX` turns refilling off.
 */
module RateLimit {
  import opened Words

  const SECONDS_PER_DAY: int := 86_400

  datatype Clock = Clock(ts: timestamp, slot: u64)

  datatype Bucket = Bucket(
    slope: u64, max: u64, available: u64, remainder: u64, lastTs: timestamp, lastSlot: u64)
  {
    ghost predicate Valid() {
      available <= max && remainder < SECONDS_PER_DAY
    }

    /** Flows are only recorded on a bucket refreshed at this very clock. */
    predicate IsFresh(clock: Clock) {
      lastTs == clock.ts && lastSlot == clock.slot
    }

    /** What the bucket holds, in 1/86400ths of a unit. */
    ghost function Potential(): nat {
      SECONDS_PER_DAY * available + remainder
    }
  }

  /** The whole units and the carried remainder that have accrued between two refreshes.
      Unless the unit count is clamped, nothing is created or lost. */
  function CalculateRateLimitIncrement(now: timestamp, last: timestamp, slope: u64, remainder: u64): (r: (u64, u64))
    requires last <= now
    ensures r.1 < SECONDS_PER_DAY
    ensures SECONDS_PER_DAY * r.0 + r.1 <= slope * (now - last) + remainder
    ensures r.0 < U64_MAX ==> SECONDS_PER_DAY * r.0 + r.1 == slope * (now - last) + remainder
  {
    AccrualIsNonNegative(slope, now - last);
    var accrued := slope * (now - last) + remainder;
    (Min(accrued / SECONDS_PER_DAY, U64_MAX), accrued % SECONDS_PER_DAY)
  }

  lemma AccrualIsNonNegative(slope: u64, elapsed: nat)
    ensures 0 <= slope * elapsed
  {
  }

  /** The `u128` product and sum behind the accrual cannot overflow. */
  lemma AccrualFitsU128(now: timestamp, last: timestamp, slope: u64, remainder: u64)
    requires last <= now
    ensures 0 <= slope * (now - last) + remainder < TWO_128
  {
    AccrualIsNonNegative(slope, now - last);
    ProductBound(slope, now - last, U64_MAX, 0x7FFF_FFFF_FFFF_FFFF);
  }

  lemma ProductBound(a: nat, b: nat, c: nat, d: nat)
    requires a <= c && b <= d
    ensures a * b <= c * d
  {
    assert a * b <= c * b by { assert c * b - a * b == (c - a) * b; }
    assert c * b <= c * d by { assert c * d - c * b == c * (d - b); }
  }

  // ---------- the operations, on values ----------

  function Refreshed(b: Bucket, clock: Clock): Bucket
    requires b.lastTs <= clock.ts
  {
    if b.max != U64_MAX && b.lastTs != clock.ts then
      var (increment, remainder) := CalculateRateLimitIncrement(clock.ts, b.lastTs, b.slope, b.remainder);
      var available := Min(SaturatingAdd(b.available, increment), b.max);
      b.(available := available, remainder := if available == b.max then 0 else remainder,
         lastTs := clock.ts, lastSlot := clock.slot)
    else
      b.(lastTs := clock.ts, lastSlot := clock.slot)
  }

  function WithInflow(b: Bucket, amount: u64): Bucket {
    b.(available := Min(b.max, SaturatingAdd(b.available, amount)))
  }

  function WithOutflow(b: Bucket, amount: u64): Bucket
    requires amount <= b.available
  {
    b.(available := b.available - amount)
  }

  /** An outflow nobody asked the program for: a permanent delegate took the tokens. */
  function WithLoss(b: Bucket, amount: u64): Bucket {
    b.(available := SaturatingSub(b.available, amount))
  }

  /** New parameters; the gap between `available` and the cap stays what it was. */
  function WithLimits(b: Bucket, slope: Option<u64>, max: Option<u64>): Bucket
    requires b.available <= b.max
  {
    var b1 := if slope.Some? then b.(slope := slope.value) else b;
    if max.None? then b1 else
      var gap := b.max - b.available;
      b1.(max := max.value, available := SaturatingSub(max.value, gap),
          remainder := if gap > max.value then 0 else b1.remainder)
  }

  lemma OperationsKeepValid(b: Bucket, clock: Clock, amount: u64, slope: Option<u64>, max: Option<u64>)
    requires b.Valid()
    ensures b.lastTs <= clock.ts ==> Refreshed(b, clock).Valid()
    ensures WithInflow(b, amount).Valid()
    ensures amount <= b.available ==> WithOutflow(b, amount).Valid()
    ensures WithLoss(b, amount).Valid()
    ensures WithLimits(b, slope, max).Valid()
  {
  }

  lemma RefreshIsFresh(b: Bucket, clock: Clock)
    requires b.lastTs <= clock.ts
    ensures Refreshed(b, clock).IsFresh(clock)
  {
  }

  // ---------- refresh: closed form and path independence ----------

  /** A refresh computes the capped sum, however the `u64` clamps fire on the way. */
  lemma RefreshClosedForm(b: Bucket, clock: Clock)
    requires b.Valid() && b.max != U64_MAX && b.lastTs <= clock.ts
    ensures var accrued := b.slope * (clock.ts - b.lastTs) + b.remainder;
            var r := Refreshed(b, clock);
            && r.available == Min(b.max, b.available + accrued / SECONDS_PER_DAY)
            && (b.lastTs < clock.ts ==>
                  r.remainder == if r.available == b.max then 0 else accrued % SECONDS_PER_DAY)
  {
    AccrualIsNonNegative(b.slope, clock.ts - b.lastTs);
    if b.lastTs == clock.ts {
      assert b.slope * (clock.ts - b.lastTs) == 0;
    }
  }

  /** What a bucket has to give at the instant `now`, in exact arithmetic. */
  ghost function Level(b: Bucket, now: timestamp): (n: u64)
    requires b.Valid() && b.lastTs <= now
    ensures n <= b.max
  {
    AccrualIsNonNegative(b.slope, now - b.lastTs);
    if b.max == 0xFFFF_FFFF_FFFF_FFFF || now == b.lastTs then b.available
    else Min(b.max, b.available + (b.slope * (now - b.lastTs) + b.remainder) / 86_400)
  }

  /** The bucket brought to `clock`, in exact arithmetic: a full one carries nothing over. */
  ghost function Refilled(b: Bucket, clock: Clock): (r: Bucket)
    requires b.Valid() && b.lastTs <= clock.ts
    ensures r.Valid()
  {
    AccrualIsNonNegative(b.slope, clock.ts - b.lastTs);
    var carried :=
      if b.max == 0xFFFF_FFFF_FFFF_FFFF || clock.ts == b.lastTs then b.remainder
      else if Level(b, clock.ts) == b.max then 0
      else (b.slope * (clock.ts - b.lastTs) + b.remainder) % 86_400;
    Bucket(b.slope, b.max, Level(b, clock.ts), carried, clock.ts, clock.slot)
  }

  /** A refresh is that, field by field, unlimited buckets included. */
  lemma RefreshExact(b: Bucket, clock: Clock)
    requires b.Valid() && b.lastTs <= clock.ts
    ensures Refreshed(b, clock) == Refilled(b, clock)
  {
    if b.max != U64_MAX && b.lastTs != clock.ts {
      hide Refreshed;
      RefreshClosedForm(b, clock);
      RefreshStamps(b, clock);
    }
  }

  lemma RefreshStamps(b: Bucket, clock: Clock)
    requires b.Valid() && b.lastTs <= clock.ts
    ensures Refreshed(b, clock) == b.(available := Refreshed(b, clock).available,
                                      remainder := Refreshed(b, clock).remainder,
                                      lastTs := clock.ts, lastSlot := clock.slot)
  {
  }

  /** New parameters on the refreshed bucket: what is missing to the cap stays missing, as far as the new cap
      reaches, and only if it does not reach is the carried remainder lost. */
  ghost predicate Reparametrized(b: Bucket, b': Bucket, clock: Clock, slope: Option<u64>, max: Option<u64>)
    requires b.Valid() && b.lastTs <= clock.ts
  {
    && b'.lastTs == clock.ts && b'.lastSlot == clock.slot
    && b'.slope == (if slope.Some? then slope.value else b.slope)
    && b'.max == (if max.Some? then max.value else b.max)
    && var missing := b.max - Level(b, clock.ts);
    && b'.max - b'.available == Min(b'.max, missing)
    && b'.remainder == if missing > b'.max then 0 else Refilled(b, clock).remainder
  }

  lemma ParametersExact(b: Bucket, clock: Clock, slope: Option<u64>, max: Option<u64>)
    requires b.Valid() && b.lastTs <= clock.ts
    ensures Refreshed(b, clock).available <= Refreshed(b, clock).max
    ensures Reparametrized(b, WithLimits(Refreshed(b, clock), slope, max), clock, slope, max)
  {
    hide Refreshed;
    RefreshExact(b, clock);
  }

  /** An intermediate refresh is invisible to the next one. */
  lemma RefreshTwice(b: Bucket, c1: Clock, c2: Clock)
    requires b.Valid() && b.lastTs <= c1.ts <= c2.ts
    ensures Refreshed(Refreshed(b, c1), c2) == Refreshed(b, c2)
  {
    if b.max != U64_MAX && b.lastTs < c1.ts < c2.ts {
      var b1 := Refreshed(b, c1);
      RefreshClosedForm(b, c1);
      RefreshClosedForm(b1, c2);
      RefreshClosedForm(b, c2);
      var a1 := b.slope * (c1.ts - b.lastTs);
      var a2 := b.slope * (c2.ts - c1.ts);
      assert b.slope * (c2.ts - b.lastTs) == a1 + a2;
      AccrualIsNonNegative(b.slope, c1.ts - b.lastTs);
      AccrualIsNonNegative(b.slope, c2.ts - c1.ts);
    }
  }

  ghost predicate Ascending(from: timestamp, clocks: seq<Clock>)
    decreases |clocks|
  {
    clocks == [] || (from <= clocks[0].ts && Ascending(clocks[0].ts, clocks[1..]))
  }

  function RefreshedAll(b: Bucket, clocks: seq<Clock>): Bucket
    requires Ascending(b.lastTs, clocks)
    decreases |clocks|
  {
    if clocks == [] then b else RefreshedAll(Refreshed(b, clocks[0]), clocks[1..])
  }

  /** Any number of refreshes on the way gives exactly what one refresh at the end gives. */
  lemma {:induction false} RefreshPathIndependent(b: Bucket, clocks: seq<Clock>)
    requires b.Valid() && clocks != [] && Ascending(b.lastTs, clocks)
    ensures b.lastTs <= clocks[|clocks| - 1].ts
    ensures RefreshedAll(b, clocks) == Refreshed(b, clocks[|clocks| - 1])
    decreases |clocks|
  {
    if |clocks| > 1 {
      var b1 := Refreshed(b, clocks[0]);
      OperationsKeepValid(b, clocks[0], 0, None, None);
      RefreshPathIndependent(b1, clocks[1..]);
      RefreshTwice(b, clocks[0], clocks[|clocks| - 1]);
    }
  }

  // ---------- runs ----------

  datatype Op =
    | Refresh(clock: Clock)
    | Inflow(clock: Clock, amount: u64)
    | Outflow(clock: Clock, amount: u64)
    | Loss(clock: Clock, amount: u64)
    | SetLimits(clock: Clock, slope: Option<u64>, max: Option<u64>)

  predicate Accepts(b: Bucket, op: Op) {
    match op
    case Refresh(_) => true
    case SetLimits(_, _, _) => true
    case Inflow(clock, _) => b.IsFresh(clock)
    case Loss(clock, _) => b.IsFresh(clock)
    case Outflow(clock, amount) => b.IsFresh(clock) && amount <= b.available
  }

  /** A refused operation fails its transaction, which then changes nothing. */
  function Step(b: Bucket, op: Op): Bucket
    requires b.Valid() && b.lastTs <= op.clock.ts
    ensures Step(b, op).Valid() && b.lastTs <= Step(b, op).lastTs <= op.clock.ts
  {
    if !Accepts(b, op) then b else
      match op
      case Refresh(clock) => Refreshed(b, clock)
      case Inflow(_, amount) => WithInflow(b, amount)
      case Outflow(_, amount) => WithOutflow(b, amount)
      case Loss(_, amount) => WithLoss(b, amount)
      case SetLimits(clock, slope, max) =>
        OperationsKeepValid(b, clock, 0, None, None);
        WithLimits(Refreshed(b, clock), slope, max)
  }

  ghost predicate Timely(from: timestamp, ops: seq<Op>)
    decreases |ops|
  {
    ops == [] || (from <= ops[0].clock.ts && Timely(ops[0].clock.ts, ops[1..]))
  }

  lemma TimelyEarlier(from: timestamp, earlier: timestamp, ops: seq<Op>)
    requires Timely(from, ops) && earlier <= from
    ensures Timely(earlier, ops)
  {
  }

  function Run(b: Bucket, ops: seq<Op>): (r: Bucket)
    requires b.Valid() && Timely(b.lastTs, ops)
    ensures r.Valid()
    decreases |ops|
  {
    if ops == [] then b else
      TimelyEarlier(ops[0].clock.ts, Step(b, ops[0]).lastTs, ops[1..]);
      Run(Step(b, ops[0]), ops[1..])
  }

  /** What one operation really lets out, takes in, adds to the cap, and accrues (in 1/86400ths). */
  ghost function Spent(b: Bucket, op: Op): nat {
    if op.Outflow? && Accepts(b, op) then op.amount else 0
  }

  ghost function Received(b: Bucket, op: Op): nat {
    if op.Inflow? && Accepts(b, op) then op.amount else 0
  }

  ghost function Raised(b: Bucket, op: Op): nat {
    if op.SetLimits? && op.max.Some? then Max(op.max.value - b.max, 0) else 0
  }

  ghost function Accrued(b: Bucket, op: Op): nat
    requires b.Valid() && b.lastTs <= op.clock.ts
  {
    AccrualIsNonNegative(b.slope, Step(b, op).lastTs - b.lastTs);
    b.slope * (Step(b, op).lastTs - b.lastTs)
  }

  datatype Totals = Totals(spent: nat, received: nat, raised: nat, accrued: nat)
  {
    function Plus(t: Totals): Totals {
      Totals(spent + t.spent, received + t.received, raised + t.raised, accrued + t.accrued)
    }
  }

  const NOTHING := Totals(0, 0, 0, 0)

  ghost function StepTotals(b: Bucket, op: Op): Totals
    requires b.Valid() && b.lastTs <= op.clock.ts
  {
    Totals(Spent(b, op), Received(b, op), Raised(b, op), Accrued(b, op))
  }

  ghost function RunTotals(b: Bucket, ops: seq<Op>): Totals
    requires b.Valid() && Timely(b.lastTs, ops)
    decreases |ops|
  {
    if ops == [] then NOTHING else
      var op := ops[0];
      TimelyEarlier(op.clock.ts, Step(b, op).lastTs, ops[1..]);
      StepTotals(b, op).Plus(RunTotals(Step(b, op), ops[1..]))
  }

  lemma RefreshPotential(b: Bucket, clock: Clock)
    requires b.Valid() && b.lastTs <= clock.ts
    ensures Refreshed(b, clock).Potential() <= b.Potential() + b.slope * (clock.ts - b.lastTs)
  {
    AccrualIsNonNegative(b.slope, clock.ts - b.lastTs);
    if b.max != U64_MAX && b.lastTs != clock.ts {
      RefreshClosedForm(b, clock);
    }
  }

  lemma StepPotential(b: Bucket, op: Op)
    requires b.Valid() && b.lastTs <= op.clock.ts
    ensures SECONDS_PER_DAY * Spent(b, op) + Step(b, op).Potential()
         <= b.Potential() + SECONDS_PER_DAY * (Received(b, op) + Raised(b, op)) + Accrued(b, op)
  {
    match op
    case Refresh(clock) => RefreshPotential(b, clock);
    case SetLimits(clock, slope, max) =>
      RefreshPotential(b, clock);
      OperationsKeepValid(b, clock, 0, None, None);
    case _ =>
  }

  /** The outflow bound over any run, live parameter changes included: what got out is paid for by
      the opening level, the inflows, the cap raises and the accrual at the slope in force. */
  lemma {:induction false} RunBound(b: Bucket, ops: seq<Op>)
    requires b.Valid() && Timely(b.lastTs, ops)
    ensures var t := RunTotals(b, ops);
            && SECONDS_PER_DAY * t.spent + Run(b, ops).Potential()
               <= b.Potential() + SECONDS_PER_DAY * (t.received + t.raised) + t.accrued
    decreases |ops|
  {
    if ops != [] {
      var op := ops[0];
      StepPotential(b, op);
      TimelyEarlier(op.clock.ts, Step(b, op).lastTs, ops[1..]);
      RunBound(Step(b, op), ops[1..]);
    }
  }

  ghost predicate FixedLimits(ops: seq<Op>) {
    forall i :: 0 <= i < |ops| ==> !ops[i].SetLimits?
  }

  lemma {:induction false} FixedLimitsTotals(b: Bucket, ops: seq<Op>)
    requires b.Valid() && Timely(b.lastTs, ops) && FixedLimits(ops)
    ensures var r := Run(b, ops); var t := RunTotals(b, ops);
            && r.slope == b.slope && r.max == b.max && b.lastTs <= r.lastTs
            && t.raised == 0 && t.accrued == b.slope * (r.lastTs - b.lastTs)
    decreases |ops|
  {
    hide Step;
    if ops != [] {
      var op := ops[0];
      var b1 := Step(b, op);
      TimelyEarlier(op.clock.ts, b1.lastTs, ops[1..]);
      assert !ops[0].SetLimits?;
      StepKeepsLimits(b, op);
      FixedLimitsTotals(b1, ops[1..]);
      AccrualSplits(b.slope, b.lastTs, b1.lastTs, Run(b, ops).lastTs);
    }
  }

  lemma StepKeepsLimits(b: Bucket, op: Op)
    requires b.Valid() && b.lastTs <= op.clock.ts && !op.SetLimits?
    ensures Step(b, op).slope == b.slope && Step(b, op).max == b.max
  {
  }

  lemma AccrualSplits(slope: int, t0: int, t1: int, t2: int)
    ensures slope * (t2 - t0) == slope * (t1 - t0) + slope * (t2 - t1)
  {
  }

  /** At a fixed slope and cap the bound is linear in the time that has passed. */
  lemma OutflowBound(b: Bucket, ops: seq<Op>)
    requires b.Valid() && Timely(b.lastTs, ops) && FixedLimits(ops)
    ensures var t := RunTotals(b, ops);
            && SECONDS_PER_DAY * t.spent
               <= SECONDS_PER_DAY * (b.available + t.received) + b.remainder
                  + b.slope * (Run(b, ops).lastTs - b.lastTs)
  {
    RunBound(b, ops);
    FixedLimitsTotals(b, ops);
  }

  ghost predicate Within(ops: seq<Op>, from: timestamp, until: int) {
    forall i :: 0 <= i < |ops| ==> from <= ops[i].clock.ts <= until
  }

  lemma {:induction false} RunEndsWithin(b: Bucket, ops: seq<Op>, until: int)
    requires b.Valid() && Timely(b.lastTs, ops) && b.lastTs <= until
    requires forall i :: 0 <= i < |ops| ==> ops[i].clock.ts <= until
    ensures Run(b, ops).lastTs <= until
    decreases |ops|
  {
    if ops != [] {
      TimelyEarlier(ops[0].clock.ts, Step(b, ops[0]).lastTs, ops[1..]);
      assert ops[0].clock.ts <= until;
      RunEndsWithin(Step(b, ops[0]), ops[1..], until);
    }
  }

  /** No slope that is set along the way is steeper than `steepest`. */
  ghost predicate SlopesWithin(ops: seq<Op>, steepest: u64) {
    forall i :: 0 <= i < |ops| && ops[i].SetLimits? && ops[i].slope.Some? ==> ops[i].slope.value <= steepest
  }

  lemma {:induction false} AccruedWithin(b: Bucket, ops: seq<Op>, steepest: u64)
    requires b.Valid() && Timely(b.lastTs, ops) && b.slope <= steepest && SlopesWithin(ops, steepest)
    ensures b.lastTs <= Run(b, ops).lastTs
    ensures RunTotals(b, ops).accrued <= steepest * (Run(b, ops).lastTs - b.lastTs)
    decreases |ops|
  {
    hide Step, StepTotals;
    if ops != [] {
      var op := ops[0];
      var b1 := Step(b, op);
      TimelyEarlier(op.clock.ts, b1.lastTs, ops[1..]);
      StepSlope(b, op, steepest);
      StepAccrues(b, op, steepest);
      assert SlopesWithin(ops[1..], steepest);
      AccruedWithin(b1, ops[1..], steepest);
      AccrualSplits(steepest, b.lastTs, b1.lastTs, Run(b, ops).lastTs);
    }
  }

  lemma StepAccrues(b: Bucket, op: Op, steepest: u64)
    requires b.Valid() && b.lastTs <= op.clock.ts && b.slope <= steepest
    ensures b.lastTs <= Step(b, op).lastTs <= op.clock.ts
    ensures StepTotals(b, op).accrued <= steepest * (Step(b, op).lastTs - b.lastTs)
  {
    var elapsed := Step(b, op).lastTs - b.lastTs;
    ProductBound(b.slope, elapsed, steepest, elapsed);
  }

  lemma StepSlope(b: Bucket, op: Op, steepest: u64)
    requires b.Valid() && b.lastTs <= op.clock.ts && b.slope <= steepest
    requires op.SetLimits? && op.slope.Some? ==> op.slope.value <= steepest
    ensures Step(b, op).slope <= steepest && Step(b, op).max <= b.max + Raised(b, op)
    ensures Accepts(b, op) ==> Step(b, op).lastTs == op.clock.ts
  {
  }

  /** No 24-hour window lets out more than the cap it opens with, the raises of the cap, one day at the
      steepest slope in force, and what flowed in during it. The window may open at any instant, however
      long after the last refresh. */
  lemma {:induction false} DayWindowBound(b: Bucket, ops: seq<Op>, from: timestamp, steepest: u64)
    requires b.Valid() && Timely(b.lastTs, ops) && b.slope <= steepest && SlopesWithin(ops, steepest)
    requires b.lastTs <= from + SECONDS_PER_DAY && Within(ops, from, from + SECONDS_PER_DAY)
    ensures var t := RunTotals(b, ops); t.spent <= b.max + t.raised + steepest + t.received
    decreases |ops|
  {
    if b.lastTs >= from {
      RunBound(b, ops);
      RunEndsWithin(b, ops, from + SECONDS_PER_DAY);
      AccruedWithin(b, ops, steepest);
      ProductBound(steepest, Run(b, ops).lastTs - b.lastTs, steepest, SECONDS_PER_DAY);
    } else if ops != [] {
      var op := ops[0];
      assert from <= op.clock.ts;
      TimelyEarlier(op.clock.ts, Step(b, op).lastTs, ops[1..]);
      StepSlope(b, op, steepest);
      DayWindowBound(Step(b, op), ops[1..], from, steepest);
    }
  }

  /** At a fixed slope and cap, that is the cap, the slope and the inflow. */
  lemma SteadyDayWindowBound(b: Bucket, ops: seq<Op>, from: timestamp)
    requires b.Valid() && Timely(b.lastTs, ops) && FixedLimits(ops)
    requires b.lastTs <= from + SECONDS_PER_DAY && Within(ops, from, from + SECONDS_PER_DAY)
    ensures RunTotals(b, ops).spent <= b.max + b.slope + RunTotals(b, ops).received
  {
    DayWindowBound(b, ops, from, b.slope);
    FixedLimitsTotals(b, ops);
  }

  /** Returning `back` of `out` units in the same instant costs exactly the difference; the cap cannot bite. */
  lemma NetCost(b: Bucket, out: u64, back: u64)
    requires b.Valid() && back <= out <= b.available
    ensures WithInflow(WithOutflow(b, out), back) == b.(available := b.available - (out - back))
  {
  }

  // ---------- a bucket between two instants ----------

  /** Operations between the instants `lo` and `hi` take `b` to `b'`, and come to the totals `t`. */
  ghost predicate Evolves(b: Bucket, b': Bucket, lo: timestamp, hi: timestamp, ops: seq<Op>, t: Totals) {
    && b.Valid() && b.lastTs <= lo <= hi && Timely(lo, ops) && Timely(b.lastTs, ops)
    && (forall k :: 0 <= k < |ops| ==> lo <= ops[k].clock.ts <= hi)
    && Run(b, ops) == b' && b'.lastTs <= hi
    && RunTotals(b, ops) == t
  }

  lemma EvolvesNot(b: Bucket, at: timestamp)
    requires b.Valid() && b.lastTs <= at
    ensures Evolves(b, b, at, at, [], NOTHING)
  {
  }

  lemma EvolvesByOne(b: Bucket, op: Op)
    requires b.Valid() && b.lastTs <= op.clock.ts
    ensures Evolves(b, Step(b, op), op.clock.ts, op.clock.ts, [op], StepTotals(b, op))
  {
    assert [op][1..] == [];
  }

  lemma {:induction false} TimelyJoins(from: timestamp, first: seq<Op>, at: timestamp, second: seq<Op>)
    requires from <= at && Timely(from, first) && Timely(at, second)
    requires forall k :: 0 <= k < |first| ==> first[k].clock.ts <= at
    ensures Timely(from, first + second)
    decreases |first|
  {
    if first == [] {
      assert first + second == second;
      TimelyEarlier(at, from, second);
    } else {
      assert (first + second)[1..] == first[1..] + second;
      TimelyJoins(first[0].clock.ts, first[1..], at, second);
    }
  }

  lemma {:induction false} RunJoins(b: Bucket, first: seq<Op>, second: seq<Op>)
    requires b.Valid() && Timely(b.lastTs, first) && Timely(b.lastTs, first + second)
    requires Timely(Run(b, first).lastTs, second)
    ensures Run(b, first + second) == Run(Run(b, first), second)
    ensures RunTotals(b, first + second) == RunTotals(b, first).Plus(RunTotals(Run(b, first), second))
    decreases |first|
  {
    hide Step, StepTotals, Totals.Plus;
    if first == [] {
      assert first + second == second;
      NothingPlus(RunTotals(b, second));
    } else {
      var op := first[0];
      assert (first + second)[1..] == first[1..] + second && (first + second)[0] == op;
      TimelyEarlier(op.clock.ts, Step(b, op).lastTs, first[1..]);
      TimelyEarlier(op.clock.ts, Step(b, op).lastTs, first[1..] + second);
      RunJoins(Step(b, op), first[1..], second);
      PlusAssociative(StepTotals(b, op), RunTotals(Step(b, op), first[1..]), RunTotals(Run(b, first), second));
    }
  }

  lemma NothingPlus(t: Totals)
    ensures NOTHING.Plus(t) == t
  {
  }

  lemma PlusAssociative(t: Totals, u: Totals, v: Totals)
    ensures t.Plus(u).Plus(v) == t.Plus(u.Plus(v))
  {
  }

  lemma EvolvesOn(b: Bucket, b1: Bucket, b2: Bucket, lo: timestamp, mid: timestamp, from: timestamp, hi: timestamp,
                  first: seq<Op>, second: seq<Op>, t: Totals, u: Totals)
    requires Evolves(b, b1, lo, mid, first, t) && Evolves(b1, b2, from, hi, second, u)
    requires mid <= from
    ensures Evolves(b, b2, lo, hi, first + second, t.Plus(u))
  {
    hide Run, RunTotals, Step;
    TimelyEarlier(from, mid, second);
    TimelyJoins(lo, first, mid, second);
    TimelyEarlier(lo, b.lastTs, first + second);
    RunJoins(b, first, second);
  }
}
