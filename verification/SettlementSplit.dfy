/**
  How a payment is divided between the investor and the platform: the calculator that
  settlement uses (`fees.rs`) and the stand-alone one it falls back to (`profits.rs`).
 */
module SettlementSplit {
  import opened Base
  import opened BasisPoints

  const DEFAULT_PLATFORM_FEE_BPS := 200
  const MAX_PLATFORM_FEE_BPS := 1_000

  /** The stored platform fee: rate and, once configured, the treasury it is routed to. */
  datatype FeeConfig = FeeConfig(bps: nat, treasury: Option<Address>)

  datatype Split = Split(investorReturn: int, platformFee: int)

  datatype Breakdown = Breakdown(
    investment: int, payment: int, grossProfit: int, platformFee: int,
    investorProfit: int, investorReturn: int, bpsApplied: int)

  /** `FeeManager::calculate_platform_fee` at a configured rate. */
  function CalculatePlatformFee(bps: nat, investment: int, payment: int): Split {
    if payment <= investment then Split(payment, 0)
    else
      var fee := SatMul(SatSub(payment, investment), bps) / BPS_DENOMINATOR;
      Split(SatSub(payment, fee), fee)
  }

  /** `PlatformFee::calculate_with_fee_bps`. */
  function CalculateWithFeeBps(investment: int, payment: int, bps: int): Split {
    var safeInvestment, safePayment := Max(investment, 0), Max(payment, 0);
    var safeBps := Max(0, Min(bps, BPS_DENOMINATOR));
    var gross := SatSub(safePayment, safeInvestment);
    if safePayment == 0 then Split(0, 0)
    else if gross <= 0 then Split(safePayment, 0)
    else
      var fee := SatMul(gross, safeBps) / BPS_DENOMINATOR;
      Split(SatSub(safePayment, fee), fee)
  }

  /** `PlatformFee::calculate_breakdown_with_fee_bps`. */
  function CalculateBreakdown(investment: int, payment: int, bps: int): Breakdown {
    var safeInvestment, safePayment := Max(investment, 0), Max(payment, 0);
    var safeBps := Max(0, Min(bps, BPS_DENOMINATOR));
    var split := CalculateWithFeeBps(safeInvestment, safePayment, safeBps);
    var gross := Max(SatSub(safePayment, safeInvestment), 0);
    Breakdown(safeInvestment, safePayment, gross, split.platformFee,
              SatSub(gross, split.platformFee), split.investorReturn, safeBps)
  }

  /** `calculate_treasury_split`: (treasury, remaining). */
  function TreasurySplit(platformFee: int, shareBps: int): (int, int) {
    if platformFee <= 0 || shareBps <= 0 then (0, Max(platformFee, 0))
    else if shareBps >= BPS_DENOMINATOR then (platformFee, 0)
    else
      var treasury := SatMul(platformFee, shareBps) / BPS_DENOMINATOR;
      (treasury, SatSub(platformFee, treasury))
  }

  /** The split settlement uses: the configured rate, or the default calculator when no fee is configured. */
  function SplitFor(config: Option<FeeConfig>, investment: int, payment: int): Split {
    match config
    case Some(c) => CalculatePlatformFee(c.bps, investment, payment)
    case None => CalculateWithFeeBps(investment, payment, DEFAULT_PLATFORM_FEE_BPS)
  }

  /** Nothing is created or lost, and the fee never eats into the principal, saturation included. */
  lemma SplitConserves(config: Option<FeeConfig>, investment: i128, payment: i128)
    requires 0 <= investment && 0 <= payment
    requires config.Some? ==> config.value.bps <= BPS_DENOMINATOR
    ensures var s := SplitFor(config, investment, payment);
      && s.investorReturn + s.platformFee == payment
      && 0 <= s.platformFee <= Max(payment - investment, 0)
      && (payment >= investment ==> s.investorReturn >= investment)
      && s.investorReturn >= 0
  {
    if payment > investment {
      ShareBounds(payment - investment, if config.Some? then config.value.bps else DEFAULT_PLATFORM_FEE_BPS);
    }
  }

  /**
    The fee is the configured share of the profit, or 2 percent where none is configured, rounded down; the rest is the
    investor's.
   */
  lemma FeeIsTheShareOfProfit(config: Option<FeeConfig>, investment: i128, payment: i128)
    requires 0 <= investment && 0 <= payment
    requires config.Some? ==> config.value.bps <= BPS_DENOMINATOR
    ensures var split := SplitFor(config, investment, payment);
      && FlooredShare(split.platformFee, Max(payment - investment, 0), if config.Some? then config.value.bps else 200)
      && split.investorReturn == payment - split.platformFee
  {
    var profit := Max(payment - investment, 0);
    ShareIsFloored(profit, if config.Some? then config.value.bps else DEFAULT_PLATFORM_FEE_BPS);
    SplitConserves(config, investment, payment);
  }

  /** The same of the two calculators, at any rate; the stand-alone one limits the rate to 100 percent. */
  lemma CalculatorsTakeTheShare(investment: i128, payment: i128, bps: i128)
    requires 0 <= investment && 0 <= payment
    ensures 0 <= bps <= 10_000 ==>
      FlooredShare(CalculatePlatformFee(bps, investment, payment).platformFee, Max(payment - investment, 0), bps)
    ensures var rate := if bps < 0 then 0 else if bps > 10_000 then 10_000 else bps;
      FlooredShare(CalculateWithFeeBps(investment, payment, bps).platformFee, Max(payment - investment, 0), rate)
  {
    var profit := Max(payment - investment, 0);
    ShareIsFloored(profit, Max(0, Min(bps, BPS_DENOMINATOR)));
  }

  /** The two calculators give the same answer for every non-negative amount and every admissible rate. */
  lemma CalculatorsAgree(investment: i128, payment: i128, bps: nat)
    requires 0 <= investment && 0 <= payment && bps <= BPS_DENOMINATOR
    ensures CalculatePlatformFee(bps, investment, payment) == CalculateWithFeeBps(investment, payment, bps)
  {
    if payment > investment {
      ShareBounds(payment - investment, bps);
    }
  }

  /** Neither side is worse off when the business pays more. */
  lemma PayingMoreHurtsNobody(bps: nat, investment: i128, payment: i128, more: i128)
    requires 0 <= investment && 0 <= payment <= more && bps <= BPS_DENOMINATOR
    ensures CalculatePlatformFee(bps, investment, payment).investorReturn <= CalculatePlatformFee(bps, investment,
        more).investorReturn
    ensures CalculatePlatformFee(bps, investment, payment).platformFee <= CalculatePlatformFee(bps, investment, more).platformFee
  {
    if more > investment {
      var gain := Max(payment - investment, 0);
      ShareGrowth(gain, more - investment, bps);
      ShareBounds(gain, bps);
      ShareBounds(more - investment, bps);
    }
  }

  /** The breakdown adds up on every line: profit = fee + investor profit, return = principal + investor profit. */
  lemma BreakdownAddsUp(investment: i128, payment: i128, bps: i128)
    ensures var b := CalculateBreakdown(investment, payment, bps);
      && b.investorReturn + b.platformFee == b.payment
      && b.investorProfit + b.platformFee == b.grossProfit
      && 0 <= b.platformFee <= b.grossProfit && 0 <= b.investorProfit
      && (b.payment >= b.investment ==> b.investorReturn == b.investment + b.investorProfit)
      && (b.payment < b.investment ==> b.investorReturn == b.payment && b.grossProfit == 0)
  {
    var gross := Max(payment, 0) - Max(investment, 0);
    if gross > 0 {
      ShareBounds(gross, Max(0, Min(bps, BPS_DENOMINATOR)));
    }
  }

  /** The treasury and the remainder are non-negative and together the whole fee. */
  lemma TreasurySplitConserves(platformFee: i128, shareBps: i128)
    ensures var (treasury, rest) := TreasurySplit(platformFee, shareBps);
      && 0 <= treasury && 0 <= rest && treasury + rest == Max(platformFee, 0)
      && (0 <= platformFee && 0 <= shareBps < 10_000 ==> FlooredShare(treasury, platformFee, shareBps))
      && (0 <= platformFee && 10_000 <= shareBps ==> treasury == platformFee)
      && (shareBps < 0 ==> treasury == 0)
  {
    if platformFee > 0 && 0 < shareBps < BPS_DENOMINATOR {
      ShareBounds(platformFee, shareBps);
      ShareIsFloored(platformFee, shareBps);
    }
  }
}
