/** Insurance policies attached to an investment (`investment.rs`). */
module Insurance {
  import opened Base
  import opened BasisPoints

  const PREMIUM_BPS := 200
  const MIN_COVERAGE := 1
  const MAX_COVERAGE := 100
  const MAX_TOTAL_COVERAGE := 100
  const MIN_PREMIUM := 1

  datatype Coverage = Coverage(provider: Address, percentage: nat, amount: int, premium: int, active: bool)

  /** A payout owed by an insurance provider. */
  datatype Claim = Claim(provider: Address, amount: int)

  function CoverageAmount(principal: int, percentage: nat): int {
    SatMul(principal, percentage) / 100
  }

  /** `Investment::calculate_premium`; 0 means rejection. */
  function CalculatePremium(principal: int, percentage: nat): i128 {
    if principal <= 0 || percentage < MIN_COVERAGE || percentage > MAX_COVERAGE then 0
    else
      var cover := CoverageAmount(principal, percentage);
      if cover <= 0 || cover > principal then 0
      else Max(SatMul(cover, PREMIUM_BPS) / 10_000, MIN_PREMIUM)
  }

  function ActivePercentage(policies: seq<Coverage>): nat {
    if |policies| == 0 then 0
    else ActivePercentage(policies[..|policies| - 1])
         + if policies[|policies| - 1].active then policies[|policies| - 1].percentage else 0
  }

  function ActiveCover(policies: seq<Coverage>): int {
    if |policies| == 0 then 0
    else ActiveCover(policies[..|policies| - 1])
         + if policies[|policies| - 1].active then policies[|policies| - 1].amount else 0
  }

  /** The claims of the active policies, in policy order. */
  function ClaimsOf(policies: seq<Coverage>): seq<Claim> {
    if |policies| == 0 then []
    else ClaimsOf(policies[..|policies| - 1])
         + if policies[|policies| - 1].active
           then [Claim(policies[|policies| - 1].provider, policies[|policies| - 1].amount)] else []
  }

  function Deactivate(policies: seq<Coverage>): (r: seq<Coverage>)
    ensures |r| == |policies|
    ensures forall i :: 0 <= i < |r| ==> r[i] == policies[i].(active := false)
  {
    seq(|policies|, i requires 0 <= i < |policies| => policies[i].(active := false))
  }

  /** What adding policies one by one can build up on one principal. */
  ghost predicate Sound(policies: seq<Coverage>, principal: int) {
    && (forall i :: 0 <= i < |policies| ==>
      && MIN_COVERAGE <= policies[i].percentage <= MAX_COVERAGE
      && policies[i].amount == CoverageAmount(principal, policies[i].percentage)
      && MIN_PREMIUM <= policies[i].premium <= policies[i].amount <= principal)
    && ActivePercentage(policies) <= MAX_TOTAL_COVERAGE
  }

  /** `Investment::add_insurance` as a transition: the new policy list. */
  function WithPolicy(policies: seq<Coverage>, principal: int, provider: Address, percentage: nat, premium: int)
    : Result<seq<Coverage>>
  {
    var cover := CoverageAmount(principal, percentage);
    if percentage < MIN_COVERAGE || percentage > MAX_COVERAGE then Err(InvalidCoveragePercentage)
    else if principal <= 0 || premium < MIN_PREMIUM then Err(InvalidAmount)
    else if ActivePercentage(policies) + percentage > MAX_TOTAL_COVERAGE then Err(OperationNotAllowed)
    else if cover <= 0 || cover > principal || premium > cover then Err(InvalidAmount)
    else Ok(policies + [Coverage(provider, percentage, cover, premium, true)])
  }

  lemma CoverageBounds(principal: i128, percentage: nat)
    requires 0 <= principal && percentage <= 100
    ensures 0 <= CoverageAmount(principal, percentage) <= principal
    ensures 100 * CoverageAmount(principal, percentage) <= principal * percentage
    ensures CoverageAmount(principal, percentage) == 0 <==> principal * percentage < 100
  {
    MulLe(principal, percentage, 100);
    var cover := principal * percentage;
    assert 0 <= cover <= 100 * principal;
    assert 100 * (SatMul(principal, percentage) / 100) <= SatMul(principal, percentage) <= cover;
  }

  /**
    A computed premium is a rejection exactly when nothing would be covered; otherwise it lies between 1 and
    the cover.
   */
  lemma PremiumBounds(principal: i128, percentage: nat)
    ensures var premium := CalculatePremium(principal, percentage);
      && (premium == 0 <==> principal <= 0 || percentage < 1 || percentage > 100 || principal * percentage < 100)
      && (premium != 0 ==> MIN_PREMIUM <= premium <= CoverageAmount(principal, percentage) <= principal)
  {
    if 0 < principal && 1 <= percentage <= 100 {
      CoverageBounds(principal, percentage);
    }
  }

  /** What a percentage of the principal covers, rounded down; where the product does not fit, of the largest that does. */
  predicate Covers(cover: int, principal: int, percentage: int) {
    if principal * percentage <= I128_MAX then cover * 100 <= principal * percentage < (cover + 1) * 100
    else cover == 0x7FFF_FFFF_FFFF_FFFF_FFFF_FFFF_FFFF_FFFF / 100
  }

  /** The cover is that percentage of the principal, and an accepted premium is 2 percent of the cover, but at least 1. */
  lemma PremiumIsTwoPercent(principal: i128, percentage: nat) returns (share: int)
    requires CalculatePremium(principal, percentage) != 0
    ensures var cover := CoverageAmount(principal, percentage);
      && Covers(cover, principal, percentage) && FlooredShare(share, cover, 200)
      && CalculatePremium(principal, percentage) == if share < 1 then 1 else share
  {
    var cover := CoverageAmount(principal, percentage);
    MulLe(principal, 0, percentage);
    share := SatMul(cover, PREMIUM_BPS) / 10_000;
    ShareIsFloored(cover, PREMIUM_BPS);
  }

  /** With a computed premium a policy is accepted exactly when it covers something and fits under the cap. */
  lemma AcceptedIff(policies: seq<Coverage>, principal: i128, provider: Address, percentage: nat)
    ensures WithPolicy(policies, principal, provider, percentage, CalculatePremium(principal, percentage)).Ok?
       <==> && 0 < principal && 1 <= percentage <= 100 && principal * percentage >= 100
            && ActivePercentage(policies) + percentage <= MAX_TOTAL_COVERAGE
  {
    PremiumBounds(principal, percentage);
    if 0 < principal && 1 <= percentage <= 100 {
      CoverageBounds(principal, percentage);
    }
  }

  /** Every accepted policy keeps the policies sound. */
  lemma WithPolicySound(policies: seq<Coverage>, principal: i128, provider: Address, percentage: nat, premium: int)
    requires Sound(policies, principal)
    requires WithPolicy(policies, principal, provider, percentage, premium).Ok?
    ensures Sound(WithPolicy(policies, principal, provider, percentage, premium).value, principal)
  {
    var r := WithPolicy(policies, principal, provider, percentage, premium).value;
    assert r[..|r| - 1] == policies;
  }

  /** Active policies together never cover more than the principal. */
  lemma ActiveCoverBounded(policies: seq<Coverage>, principal: i128)
    requires 0 <= principal && Sound(policies, principal)
    ensures 0 <= ActiveCover(policies) <= principal
  {
    ScaledCover(policies, principal);
    MulLe(principal, ActivePercentage(policies), 100);
  }

  lemma {:induction false} ScaledCover(policies: seq<Coverage>, principal: i128)
    requires 0 <= principal
    requires forall i :: 0 <= i < |policies| ==>
      policies[i].percentage <= 100 && policies[i].amount == CoverageAmount(principal, policies[i].percentage)
    ensures 0 <= 100 * ActiveCover(policies) <= principal * ActivePercentage(policies)
  {
    if |policies| > 0 {
      var front, last := policies[..|policies| - 1], policies[|policies| - 1];
      ScaledCover(front, principal);
      CoverageBounds(principal, last.percentage);
      assert principal * (ActivePercentage(front) + last.percentage)
          == principal * ActivePercentage(front) + principal * last.percentage;
    }
  }

  lemma {:induction false} DeactivateIsInactive(policies: seq<Coverage>, principal: int)
    ensures ActivePercentage(Deactivate(policies)) == 0 && ClaimsOf(Deactivate(policies)) == []
    ensures Sound(policies, principal) ==> Sound(Deactivate(policies), principal)
  {
    if |policies| > 0 {
      DeactivateIsInactive(policies[..|policies| - 1], principal);
      assert Deactivate(policies)[..|policies| - 1] == Deactivate(policies[..|policies| - 1]);
      assert ActivePercentage(Deactivate(policies)) == 0;
    }
  }

  /** Position of the first active policy, or the length of the list. */
  function FirstActive(policies: seq<Coverage>): (i: nat)
    ensures i <= |policies|
    ensures i < |policies| ==> policies[i].active
    ensures forall j :: 0 <= j < i ==> !policies[j].active
  {
    if |policies| == 0 || policies[0].active then 0 else 1 + FirstActive(policies[1..])
  }

  /** Claim the first active policy, again and again until none is left. */
  function ClaimRepeatedly(policies: seq<Coverage>): (seq<Coverage>, seq<Claim>)
    decreases |ClaimsOf(policies)|
  {
    var i := FirstActive(policies);
    if i == |policies| then (policies, [])
    else
      var rest := policies[i := policies[i].(active := false)];
      ClaimFirst(policies, i);
      var (done, claims) := ClaimRepeatedly(rest);
      (done, [Claim(policies[i].provider, policies[i].amount)] + claims)
  }

  lemma {:induction false} NoneActive(policies: seq<Coverage>)
    requires forall j :: 0 <= j < |policies| ==> !policies[j].active
    ensures ClaimsOf(policies) == [] && Deactivate(policies) == policies
  {
    if |policies| > 0 {
      NoneActive(policies[..|policies| - 1]);
    }
  }

  lemma {:induction false} ClaimFirst(policies: seq<Coverage>, i: nat)
    requires i < |policies| && policies[i].active
    requires forall j :: 0 <= j < i ==> !policies[j].active
    ensures ClaimsOf(policies)
         == [Claim(policies[i].provider, policies[i].amount)] + ClaimsOf(policies[i := policies[i].(active := false)])
  {
    var front := policies[..|policies| - 1];
    var rest := policies[i := policies[i].(active := false)];
    if i == |policies| - 1 {
      NoneActive(front);
      assert rest[..|rest| - 1] == front;
    } else {
      ClaimFirst(front, i);
      assert rest[..|rest| - 1] == front[i := front[i].(active := false)];
    }
  }

  /** Claiming all at once is claiming one at a time until none is left: every active policy pays exactly once. */
  lemma {:induction false} ClaimAllIsRepeatedClaim(policies: seq<Coverage>)
    ensures ClaimRepeatedly(policies) == (Deactivate(policies), ClaimsOf(policies))
    decreases |ClaimsOf(policies)|
  {
    var i := FirstActive(policies);
    if i == |policies| {
      NoneActive(policies);
    } else {
      var rest := policies[i := policies[i].(active := false)];
      ClaimFirst(policies, i);
      ClaimAllIsRepeatedClaim(rest);
      assert Deactivate(rest) == Deactivate(policies);
    }
  }

  /** An investment record while an operation works on it. */
  class InsuredInvestment {
    const principal: i128
    var insurance: seq<Coverage>

    constructor (principal: i128, insurance: seq<Coverage>)
      ensures this.principal == principal && this.insurance == insurance
    {
      this.principal := principal;
      this.insurance := insurance;
    }

    /** `total_active_coverage_percentage`, a saturating `u32` sum. */
    method TotalActivePercentage() returns (total: u32)
      ensures total == Min(ActivePercentage(insurance), U32_MAX)
    {
      total := 0;
      for i := 0 to |insurance|
        invariant total == Min(ActivePercentage(insurance[..i]), U32_MAX)
      {
        assert insurance[..i + 1][..i] == insurance[..i];
        if insurance[i].active {
          total := Min(total + insurance[i].percentage, U32_MAX);
        }
      }
      assert insurance[..|insurance|] == insurance;
    }

    method AddInsurance(provider: Address, percentage: u32, premium: i128) returns (r: Result<i128>)
      modifies this
      ensures match WithPolicy(old(insurance), principal, provider, percentage, premium)
        case Ok(policies) => insurance == policies && r == Ok(CoverageAmount(principal, percentage))
        case Err(e) => insurance == old(insurance) && r == Err(e)
    {
      if percentage < MIN_COVERAGE || percentage > MAX_COVERAGE { return Err(InvalidCoveragePercentage); }
      if principal <= 0 { return Err(InvalidAmount); }
      if premium < MIN_PREMIUM { return Err(InvalidAmount); }
      var active := TotalActivePercentage();
      if active > MAX_TOTAL_COVERAGE { return Err(OperationNotAllowed); }
      if Min(active + percentage, U32_MAX) > MAX_TOTAL_COVERAGE { return Err(OperationNotAllowed); }
      var cover := SatMul(principal, percentage) / 100;
      if cover <= 0 || cover > principal { return Err(InvalidAmount); }
      if premium > cover { return Err(InvalidAmount); }
      insurance := insurance + [Coverage(provider, percentage, cover, premium, true)];
      r := Ok(cover);
    }

    method ProcessInsuranceClaim() returns (claim: Option<Claim>)
      modifies this
      ensures var i := FirstActive(old(insurance));
        if i == |old(insurance)| then claim == None && insurance == old(insurance)
        else && claim == Some(Claim(old(insurance)[i].provider, old(insurance)[i].amount))
             && insurance == old(insurance)[i := old(insurance)[i].(active := false)]
    {
      for idx := 0 to |insurance|
        invariant insurance == old(insurance)
        invariant forall j :: 0 <= j < idx ==> !insurance[j].active
      {
        var coverage := insurance[idx];
        if coverage.active {
          insurance := insurance[idx := coverage.(active := false)];
          return Some(Claim(coverage.provider, coverage.amount));
        }
      }
      claim := None;
    }

    method ProcessAllInsuranceClaims() returns (claims: seq<Claim>)
      modifies this
      ensures insurance == Deactivate(old(insurance)) && claims == ClaimsOf(old(insurance))
    {
      claims := [];
      var len := |insurance|;
      for idx := 0 to len
        invariant |insurance| == len == |old(insurance)|
        invariant forall j :: 0 <= j < idx ==> insurance[j] == old(insurance)[j].(active := false)
        invariant forall j :: idx <= j < len ==> insurance[j] == old(insurance)[j]
        invariant claims == ClaimsOf(old(insurance)[..idx])
      {
        var coverage := insurance[idx];
        assert old(insurance)[..idx + 1][..idx] == old(insurance)[..idx];
        if coverage.active {
          insurance := insurance[idx := coverage.(active := false)];
          claims := claims + [Claim(coverage.provider, coverage.amount)];
        }
      }
      assert old(insurance)[..len] == old(insurance);
    }
  }
}
