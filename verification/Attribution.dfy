/** Checkout arithmetic: platform fee, coupon discount and partner commission, in cents. */
module Attribution {
  import opened Wrappers

  const BPS_UNIT := 10000

  type Bps = n: nat | n <= 10000

  /** Math.round(x / 10000): the nearest integer, halves going up. Division here is floor division. */
  function RoundBps(x: int): int { (x + 5000) / BPS_UNIT }

  datatype Terms = Terms(
    originalTotal: int,
    platformFeeBps: int,
    discountBps: Option<int>,
    discountCents: Option<int>,
    partnerCommissionBps: Option<int>)

  datatype Totals = Totals(
    desiredDiscount: int,
    discountApplied: int,
    feeBase: int,
    feeFinal: int,
    commission: int,
    finalTotal: int)

  /** A missing number and zero both count as absent. */
  function OrZero(n: Option<int>): int { if n.Some? then n.value else 0 }

  function CalculateTotals(t: Terms): Totals {
    var feeBase := RoundBps(t.originalTotal * t.platformFeeBps);
    var desired :=
      if OrZero(t.discountCents) != 0 then OrZero(t.discountCents)
      else if OrZero(t.discountBps) != 0 then RoundBps(t.originalTotal * OrZero(t.discountBps))
      else 0;
    var applied := Min(desired, feeBase);
    var feeFinal := Max(feeBase - applied, 0);
    var commission :=
      if OrZero(t.partnerCommissionBps) != 0 then RoundBps(feeFinal * OrZero(t.partnerCommissionBps)) else 0;
    Totals(desired, applied, feeBase, feeFinal, commission, Max(t.originalTotal - applied, 0))
  }

  /** What request validation guarantees. The fee rate of a listing is any integer: it is not range-checked. */
  predicate Validated(t: Terms) {
    && 0 <= t.originalTotal
    && 0 <= OrZero(t.discountBps)
    && 0 <= OrZero(t.discountCents)
    && 0 <= OrZero(t.partnerCommissionBps) <= BPS_UNIT
  }

  /** The fee a release takes out of a held balance, and what it leaves for the seller. */
  function FeeTaken(feeFinal: int, held: int): int { Min(Max(feeFinal, 0), held) }

  function SellerShare(feeFinal: int, held: int): int { Max(held - FeeTaken(feeFinal, held), 0) }

  /** The whole number nearest to x / 10000, the upper one of two. */
  predicate IsNearest(d: int, x: int) { -5000 < 10000 * d - x <= 5000 }

  lemma NearestIsUnique(d: int, e: int, x: int)
    requires IsNearest(d, x) && IsNearest(e, x)
    ensures d == e
  {
  }

  /** What the buyer is charged, and what the platform and the partner are due, by arithmetic on the terms alone. The
      discount is the coupon's cents; without cents, its percentage of the price; and never above the fee. */
  lemma TotalsByArithmetic(t: Terms, d: int)
    ensures var r := CalculateTotals(t);
            && IsNearest(r.feeBase, t.originalTotal * t.platformFeeBps)
            && (t.discountCents.Some? && t.discountCents.value != 0 ==>
                  r.discountApplied == Min(t.discountCents.value, r.feeBase))
            && ((t.discountCents.None? || t.discountCents.value == 0) && t.discountBps.Some? && t.discountBps.value != 0
                && IsNearest(d, t.originalTotal * t.discountBps.value) ==>
                  r.discountApplied == Min(d, r.feeBase))
            && ((t.discountCents.None? || t.discountCents.value == 0) && (t.discountBps.None? || t.discountBps.value == 0) ==>
                  r.discountApplied == Min(0, r.feeBase))
            && r.finalTotal == Max(t.originalTotal - r.discountApplied, 0)
            && r.feeFinal == Max(r.feeBase - r.discountApplied, 0)
            && (t.partnerCommissionBps.Some? ==> IsNearest(r.commission, r.feeFinal * t.partnerCommissionBps.value))
            && (t.partnerCommissionBps.None? ==> r.commission == 0)
  {
    if t.discountBps.Some? && IsNearest(d, t.originalTotal * t.discountBps.value) {
      NearestIsUnique(d, RoundBps(t.originalTotal * t.discountBps.value), t.originalTotal * t.discountBps.value);
    }
  }

  /** For instance: 100.00 at a fee of 20% with a coupon of 10% costs 90.00. */
  lemma TenPercentOff()
    ensures CalculateTotals(Terms(10000, 2000, Some(1000), None, None)) == Totals(1000, 1000, 2000, 1000, 0, 9000)
  {
  }

  lemma RoundMonotone(x: int, y: int)
    requires x <= y
    ensures RoundBps(x) <= RoundBps(y)
  {
  }

  lemma RoundOfWhole(n: int)
    ensures RoundBps(n * BPS_UNIT) == n
  {
  }

  lemma RoundNonNegative(a: int, bps: int)
    requires 0 <= a && 0 <= bps
    ensures 0 <= RoundBps(a * bps)
  {
    assert 0 <= a * bps;
  }

  /** A share of at most 100% is at most the whole. */
  lemma RoundShare(a: int, bps: int)
    requires 0 <= a && 0 <= bps <= BPS_UNIT
    ensures 0 <= RoundBps(a * bps) <= a
  {
    RoundNonNegative(a, bps);
    assert a * bps <= a * BPS_UNIT;
    RoundMonotone(a * bps, a * BPS_UNIT);
    RoundOfWhole(a);
  }

  lemma DesiredDiscountNonNegative(t: Terms)
    requires Validated(t)
    ensures 0 <= CalculateTotals(t).desiredDiscount
  {
    if OrZero(t.discountCents) == 0 && OrZero(t.discountBps) != 0 {
      RoundNonNegative(t.originalTotal, OrZero(t.discountBps));
    }
  }

  /** Whatever coupon is used, a full release leaves the seller the list price less the undiscounted fee. */
  lemma CouponNeverCostsSeller(t: Terms)
    requires Validated(t)
    ensures var r := CalculateTotals(t);
            SellerShare(r.feeFinal, r.finalTotal) == Max(t.originalTotal - r.feeBase, 0)
  {
    DesiredDiscountNonNegative(t);
  }

  /** So two checkouts that differ only in coupon and partner pay the seller the same. */
  lemma SellerShareIgnoresCoupon(t: Terms, u: Terms)
    requires Validated(t) && Validated(u)
    requires t.originalTotal == u.originalTotal && t.platformFeeBps == u.platformFeeBps
    ensures SellerShare(CalculateTotals(t).feeFinal, CalculateTotals(t).finalTotal)
         == SellerShare(CalculateTotals(u).feeFinal, CalculateTotals(u).finalTotal)
  {
    CouponNeverCostsSeller(t);
    CouponNeverCostsSeller(u);
  }

  /** The seller gets exactly price less base fee when, and only when, the fee rate does not exceed the price. */
  lemma SellerGetsPriceLessFeeIff(t: Terms)
    requires Validated(t)
    ensures var r := CalculateTotals(t);
            SellerShare(r.feeFinal, r.finalTotal) == t.originalTotal - r.feeBase <==> r.feeBase <= t.originalTotal
  {
    CouponNeverCostsSeller(t);
  }

  /** The discount the buyer gets is exactly the fee the platform gives up, for any fee between zero and the price. */
  lemma DiscountComesOutOfTheFee(t: Terms)
    requires Validated(t)
    requires var r := CalculateTotals(t); 0 <= r.feeBase <= t.originalTotal
    ensures var r := CalculateTotals(t);
            && t.originalTotal - r.finalTotal == r.feeBase - r.feeFinal
            && 0 <= r.feeFinal <= r.finalTotal
  {
    DesiredDiscountNonNegative(t);
  }

  /** A partner earns a share of what the platform keeps after the discount: never negative, never more. */
  lemma CommissionWithinFee(t: Terms)
    requires Validated(t)
    ensures var r := CalculateTotals(t); 0 <= r.commission <= r.feeFinal
  {
    var r := CalculateTotals(t);
    if OrZero(t.partnerCommissionBps) != 0 {
      RoundShare(r.feeFinal, OrZero(t.partnerCommissionBps));
    }
  }

  /** Fee and seller share always use up the held balance exactly. */
  lemma ReleaseSpendsHeld(feeFinal: int, held: int)
    requires 0 <= held
    ensures 0 <= FeeTaken(feeFinal, held) <= held
    ensures FeeTaken(feeFinal, held) + SellerShare(feeFinal, held) == held
  {
  }
}
