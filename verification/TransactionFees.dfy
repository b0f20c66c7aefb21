/**
  The fee of one transaction (`fees.rs`): clamp, tier discount, early discount, late surcharge, summed over the
  configured structures.
 */
module TransactionFees {
  import opened Base
  import opened BasisPoints
  import opened Revenue

  const EARLY_DISCOUNT := 1_000
  const LATE_SURCHARGE := 2_000
  const ABSOLUTE_MAX_FEE := 10_000_000_000_000
  const MAX_FEE_BPS := 1_000

  datatype FeeStructure = FeeStructure(kind: FeeType, baseBps: nat, minFee: int, maxFee: int, active: bool)

  datatype Terms = Terms(tier: VolumeTier, early: bool, late: bool)

  /** What `update_fee_structure` accepts, as far as this computation depends on it. */
  predicate ValidStructure(s: FeeStructure) {
    0 <= s.minFee <= s.maxFee <= ABSOLUTE_MAX_FEE && s.baseBps <= MAX_FEE_BPS
  }

  function TierDiscount(tier: VolumeTier): nat {
    match tier
    case Standard => 0
    case Silver => 500
    case Gold => 1_000
    case Platinum => 1_500
  }

  predicate Applies(s: FeeStructure, t: Terms) {
    s.active && (s.kind == EarlyPayment ==> t.early) && (s.kind == LatePayment ==> t.late)
  }

  function BaseFee(s: FeeStructure, amount: int): int {
    var fee := SatMul(amount, s.baseBps) / BPS_DENOMINATOR;
    if fee < s.minFee then s.minFee else if fee > s.maxFee then s.maxFee else fee
  }

  /** `fee` less a share of it, rounded against the payer. */
  function Less(fee: int, bps: nat): int { SatSub(fee, SatMul(fee, bps) / BPS_DENOMINATOR) }

  function More(fee: int, bps: nat): int { SatAdd(fee, SatMul(fee, bps) / BPS_DENOMINATOR) }

  function FeeFor(s: FeeStructure, amount: int, t: Terms): int {
    if !Applies(s, t) then 0
    else
      var base := BaseFee(s, amount);
      var afterTier := if s.kind != LatePayment then Less(base, TierDiscount(t.tier)) else base;
      var afterEarly := if t.early && s.kind == Platform then Less(afterTier, EARLY_DISCOUNT) else afterTier;
      if t.late && s.kind == LatePayment then More(afterEarly, LATE_SURCHARGE) else afterEarly
  }

  /** The accumulator of `calculate_total_fees`. */
  function Total(structures: seq<FeeStructure>, amount: int, t: Terms): int {
    if |structures| == 0 then 0
    else SatAdd(Total(structures[..|structures| - 1], amount, t), FeeFor(structures[|structures| - 1], amount, t))
  }

  method CalculateTotalFees(configured: Option<seq<FeeStructure>>, amount: i128, t: Terms) returns (r: Result<int>)
    ensures r == if amount <= 0 then Err(InvalidAmount)
                 else if configured.None? then Err(StorageKeyNotFound)
                 else Ok(Total(configured.value, amount, t))
  {
    hide SatMul, SatAdd, SatSub, BaseFee, TierDiscount;
    if amount <= 0 {
      return Err(InvalidAmount);
    }
    if configured.None? {
      return Err(StorageKeyNotFound);
    }
    var structures := configured.value;
    var discount := TierDiscount(t.tier);
    var total := 0;
    for i := 0 to |structures|
      invariant total == Total(structures[..i], amount, t)
    {
      var s := structures[i];
      assert structures[..i + 1][..i] == structures[..i];
      SatAddZero(structures[..i], amount, t);
      if !s.active {
        continue;
      }
      if s.kind == EarlyPayment && !t.early {
        continue;
      }
      if s.kind == LatePayment && !t.late {
        continue;
      }
      var fee := BaseFee(s, amount);
      if s.kind != LatePayment {
        fee := SatSub(fee, SatMul(fee, discount) / BPS_DENOMINATOR);
      }
      if t.early && s.kind == Platform {
        fee := SatSub(fee, SatMul(fee, EARLY_DISCOUNT) / BPS_DENOMINATOR);
      }
      if t.late && s.kind == LatePayment {
        fee := SatAdd(fee, SatMul(fee, LATE_SURCHARGE) / BPS_DENOMINATOR);
      }
      total := SatAdd(total, fee);
    }
    assert structures[..|structures|] == structures;
    r := Ok(total);
  }

  /** Skipping a structure is adding nothing. */
  lemma {:induction false} SatAddZero(structures: seq<FeeStructure>, amount: int, t: Terms)
    ensures SatAdd(Total(structures, amount, t), 0) == Total(structures, amount, t)
  {
  }

  /* ---- one structure ---- */

  lemma Unsaturated(fee: nat, bps: nat)
    requires fee <= 2 * ABSOLUTE_MAX_FEE && bps <= BPS_DENOMINATOR
    ensures SatMul(fee, bps) == fee * bps && 0 <= fee * bps / BPS_DENOMINATOR <= fee
  {
    MulLe(fee, bps, BPS_DENOMINATOR);
    MulLe(fee, 0, bps);
  }

  lemma LessGrows(x: nat, y: nat, bps: nat)
    requires x <= y <= ABSOLUTE_MAX_FEE && bps <= BPS_DENOMINATOR
    ensures 0 <= Less(x, bps) <= Less(y, bps) <= y
  {
    Unsaturated(x, bps);
    Unsaturated(y, bps);
    ShareGrowth(x, y, bps);
  }

  /** A larger discount never leaves more. */
  lemma LargerDiscount(x: nat, small: nat, large: nat)
    requires x <= ABSOLUTE_MAX_FEE && small <= large <= BPS_DENOMINATOR
    ensures Less(x, large) <= Less(x, small)
  {
    Unsaturated(x, small);
    Unsaturated(x, large);
    MulLe(x, small, large);
  }

  lemma MoreGrows(x: nat, y: nat, bps: nat)
    requires x <= y <= ABSOLUTE_MAX_FEE && bps <= BPS_DENOMINATOR
    ensures 0 <= More(x, bps) <= More(y, bps) <= 2 * y
  {
    Unsaturated(x, bps);
    Unsaturated(y, bps);
    ShareGrowth(x, y, bps);
  }

  lemma BaseFeeGrows(s: FeeStructure, a: i128, b: i128)
    requires ValidStructure(s) && 0 <= a <= b
    ensures 0 <= s.minFee <= BaseFee(s, a) <= BaseFee(s, b) <= s.maxFee
  {
    MulLe(s.baseBps, a, b);
    assert s.baseBps * a == a * s.baseBps && s.baseBps * b == b * s.baseBps;
  }

  lemma FeeGrows(s: FeeStructure, a: i128, b: i128, t: Terms)
    requires ValidStructure(s) && 0 <= a <= b
    ensures 0 <= FeeFor(s, a, t) <= FeeFor(s, b, t) <= 2 * ABSOLUTE_MAX_FEE
  {
    hide BaseFee, Less, More;
    BaseFeeGrows(s, a, b);
    var x, y := BaseFee(s, a), BaseFee(s, b);
    if s.kind == LatePayment {
      MoreGrows(x, y, LATE_SURCHARGE);
    } else {
      LessGrows(x, y, TierDiscount(t.tier));
      LessGrows(Less(x, TierDiscount(t.tier)), Less(y, TierDiscount(t.tier)), EARLY_DISCOUNT);
    }
  }

  lemma BetterTierHelps(s: FeeStructure, amount: i128, t: Terms, better: Terms)
    requires ValidStructure(s) && 0 <= amount && better == t.(tier := better.tier) && TierRank(better.tier) >= TierRank(t.tier)
    ensures FeeFor(s, amount, better) <= FeeFor(s, amount, t)
  {
    hide BaseFee, Less, More;
    BaseFeeGrows(s, amount, amount);
    var x := BaseFee(s, amount);
    if s.kind != LatePayment {
      var d, d' := TierDiscount(t.tier), TierDiscount(better.tier);
      LargerDiscount(x, d, d');
      LessGrows(x, x, d);
      LessGrows(x, x, d');
      LessGrows(Less(x, d'), Less(x, d), EARLY_DISCOUNT);
    }
  }

  /* ---- the fee, step by step ---- */

  lemma BaseFeeIs(s: FeeStructure, amount: int)
    ensures var raw := SatMul(amount, s.baseBps) / BPS_DENOMINATOR;
      BaseFee(s, amount) == if raw < s.minFee then s.minFee else if raw > s.maxFee then s.maxFee else raw
    ensures ValidStructure(s) ==> s.maxFee <= ABSOLUTE_MAX_FEE
  {
  }

  lemma TierRates(tier: VolumeTier)
    ensures TierDiscount(tier) == match tier case Standard => 0 case Silver => 500 case Gold => 1_000 case Platinum => 1_500
  {
  }

  /**
    What one structure charges: nothing unless it is active and its occasion is given; otherwise its rate of the
    amount within its limits, less the tier's discount (none on late fees), less 10 percent of the rest on early
    platform fees, plus 20 percent on late fees, each step rounded down.
   */
  lemma FeeStepByStep(s: FeeStructure, amount: i128, t: Terms) returns (raw: int, discount: int, early: int, late: int)
    requires ValidStructure(s) && 0 <= amount
    ensures var charged := s.active && (s.kind == EarlyPayment ==> t.early) && (s.kind == LatePayment ==> t.late);
      var base := if raw < s.minFee then s.minFee else if raw > s.maxFee then s.maxFee else raw;
      && FlooredShare(raw, amount, s.baseBps)
      && FlooredShare(discount, base, if s.kind == LatePayment then 0 else match t.tier
                                      case Standard => 0 case Silver => 500 case Gold => 1_000 case Platinum => 1_500)
      && FlooredShare(early, base - discount, if t.early && s.kind == Platform then 1_000 else 0)
      && FlooredShare(late, base, if t.late && s.kind == LatePayment then 2_000 else 0)
      && FeeFor(s, amount, t) == if charged then base - discount - early + late else 0
  {
    hide SatMul, FlooredShare, BaseFee, ValidStructure, TierDiscount;
    raw := SatMul(amount, s.baseBps) / BPS_DENOMINATOR;
    ShareIsFloored(amount, s.baseBps);
    var base := BaseFee(s, amount);
    BaseFeeGrows(s, amount, amount);
    BaseFeeIs(s, amount);
    TierRates(t.tier);
    var tier := if s.kind == LatePayment then 0 else TierDiscount(t.tier);
    discount := SatMul(base, tier) / BPS_DENOMINATOR;
    ShareIsFloored(base, tier);
    Unsaturated(base, tier);
    var earlyRate := if t.early && s.kind == Platform then EARLY_DISCOUNT else 0;
    early := SatMul(base - discount, earlyRate) / BPS_DENOMINATOR;
    ShareIsFloored(base - discount, earlyRate);
    Unsaturated(base - discount, earlyRate);
    var lateRate := if t.late && s.kind == LatePayment then LATE_SURCHARGE else 0;
    late := SatMul(base, lateRate) / BPS_DENOMINATOR;
    ShareIsFloored(base, lateRate);
    Unsaturated(base, lateRate);
  }

  /* ---- the total ---- */

  /** The sum of the fees, without saturation. */
  function Sum(structures: seq<FeeStructure>, amount: int, t: Terms): int {
    if |structures| == 0 then 0
    else Sum(structures[..|structures| - 1], amount, t) + FeeFor(structures[|structures| - 1], amount, t)
  }

  ghost predicate AllValid(structures: seq<FeeStructure>) { forall s :: s in structures ==> ValidStructure(s) }

  /** The accumulator saturates only at the end. */
  lemma {:induction false} TotalIsSum(structures: seq<FeeStructure>, amount: i128, t: Terms)
    requires AllValid(structures) && 0 <= amount
    ensures Total(structures, amount, t) == Min(Sum(structures, amount, t), I128_MAX) && Sum(structures, amount, t) >= 0
  {
    if |structures| > 0 {
      var front, last := structures[..|structures| - 1], structures[|structures| - 1];
      assert last in structures;
      assert AllValid(front) by { assert forall s :: s in front ==> s in structures; }
      TotalIsSum(front, amount, t);
      FeeGrows(last, amount, amount, t);
    }
  }

  lemma {:induction false} SumsCompare(structures: seq<FeeStructure>, a: i128, b: i128, t: Terms, better: Terms)
    requires AllValid(structures) && 0 <= a <= b
    requires better == t.(tier := better.tier) && TierRank(better.tier) >= TierRank(t.tier)
    ensures Sum(structures, a, t) <= Sum(structures, b, t) && Sum(structures, a, better) <= Sum(structures, a, t)
  {
    if |structures| > 0 {
      var front, last := structures[..|structures| - 1], structures[|structures| - 1];
      assert last in structures;
      assert AllValid(front) by { assert forall s :: s in front ==> s in structures; }
      SumsCompare(front, a, b, t, better);
      FeeGrows(last, a, b, t);
      BetterTierHelps(last, a, t, better);
    }
  }

  /** A larger transaction never costs less in total, and a better volume tier never costs more. */
  lemma FeesAreMonotone(structures: seq<FeeStructure>, a: i128, b: i128, t: Terms, better: Terms)
    requires AllValid(structures) && 0 < a <= b
    requires better == t.(tier := better.tier) && TierRank(better.tier) >= TierRank(t.tier)
    ensures 0 <= Total(structures, a, t) <= Total(structures, b, t)
    ensures Total(structures, a, better) <= Total(structures, a, t)
  {
    TotalIsSum(structures, a, t);
    TotalIsSum(structures, b, t);
    TotalIsSum(structures, a, better);
    SumsCompare(structures, a, b, t, better);
  }

  lemma {:induction false} SumWithout(structures: seq<FeeStructure>, amount: int, t: Terms, i: nat)
    requires i < |structures|
    ensures Sum(structures, amount, t) == Sum(structures[..i] + structures[i + 1..], amount, t) + FeeFor(structures[i], amount, t)
    decreases |structures|
  {
    var n := |structures|;
    var front := structures[..n - 1];
    if i == n - 1 {
      assert structures[..i] + structures[i + 1..] == front;
    } else {
      SumWithout(front, amount, t, i);
      var rest := structures[..i] + structures[i + 1..];
      assert rest[..|rest| - 1] == front[..i] + front[i + 1..];
      assert rest[|rest| - 1] == structures[n - 1];
    }
  }

  /** The last entry of one list is somewhere in any rearrangement of it, and leaves a rearrangement of the rest. */
  lemma MatchLast(xs: seq<FeeStructure>, ys: seq<FeeStructure>) returns (i: nat)
    requires multiset(xs) == multiset(ys) && |xs| > 0
    ensures i < |ys| && ys[i] == xs[|xs| - 1] && multiset(ys[..i] + ys[i + 1..]) == multiset(xs[..|xs| - 1])
  {
    var front, last := xs[..|xs| - 1], xs[|xs| - 1];
    assert xs == front + [last];
    assert last in multiset(ys);
    i :| 0 <= i < |ys| && ys[i] == last;
    assert ys == ys[..i] + [last] + ys[i + 1..];
    var rest := multiset(ys[..i] + ys[i + 1..]);
    assert multiset(ys) == rest + multiset{last};
    assert multiset(xs) == multiset(front) + multiset{last};
    assert rest == multiset(ys) - multiset{last} && multiset(front) == multiset(xs) - multiset{last};
  }

  lemma {:induction false} SumIgnoresOrder(xs: seq<FeeStructure>, ys: seq<FeeStructure>, amount: int, t: Terms)
    requires multiset(xs) == multiset(ys)
    ensures Sum(xs, amount, t) == Sum(ys, amount, t)
    decreases |xs|
  {
    hide FeeFor;
    if |xs| == 0 {
      assert |multiset(ys)| == |ys|;
    } else {
      var i := MatchLast(xs, ys);
      SumIgnoresOrder(xs[..|xs| - 1], ys[..i] + ys[i + 1..], amount, t);
      SumWithout(ys, amount, t, i);
    }
  }

  /** The order in which the structures are configured does not matter, saturation included. */
  lemma FeesIgnoreOrder(xs: seq<FeeStructure>, ys: seq<FeeStructure>, amount: i128, t: Terms)
    requires AllValid(xs) && 0 < amount && multiset(xs) == multiset(ys)
    ensures Total(xs, amount, t) == Total(ys, amount, t)
  {
    forall s | s in ys ensures s in xs {
      assert s in multiset(ys);
    }
    TotalIsSum(xs, amount, t);
    TotalIsSum(ys, amount, t);
    SumIgnoresOrder(xs, ys, amount, t);
  }
}
