/**
  Platform revenue, period by period (`fees.rs`): fees are collected by type, and what is
  pending is distributed among treasury, developers and platform. Sums saturate at the
  largest `i128`; below that nothing is lost, whatever order the calls come in.
 */
module Revenue {
  import opened Base
  import opened BasisPoints

  const PERIOD_SECONDS := 2_592_000

  datatype FeeType = Platform | Processing | Verification | EarlyPayment | LatePayment

  datatype VolumeTier = Standard | Silver | Gold | Platinum

  datatype RevenueData = RevenueData(
    totalCollected: int, fees: map<FeeType, int>, totalDistributed: int, pending: int, transactions: nat)

  datatype RevenueConfig = RevenueConfig(treasury: Address, treasuryBps: nat, developerBps: nat, platformBps: nat, minimum: int)

  datatype UserVolume = UserVolume(total: int, transactions: nat, tier: VolumeTier)

  /** The keys of a fee map are visited in this order. */
  const TYPES: seq<FeeType> := [Platform, Processing, Verification, EarlyPayment, LatePayment]

  const EMPTY: RevenueData := RevenueData(0, map[], 0, 0, 0)

  function FeeOf(fees: map<FeeType, int>, t: FeeType): int { if t in fees then fees[t] else 0 }

  /** The sum over the first `n` fee types. */
  function SumFirst(fees: map<FeeType, int>, n: nat): int
    requires n <= |TYPES|
  {
    if n == 0 then 0 else SumFirst(fees, n - 1) + FeeOf(fees, TYPES[n - 1])
  }

  function SumByType(fees: map<FeeType, int>): int { SumFirst(fees, |TYPES|) }

  /** `validate_fee_collection_map`, up to the `n`-th type: the sum so far, or the first refusal. */
  function CheckFirst(fees: map<FeeType, int>, n: nat): Result<int>
    requires n <= |TYPES|
  {
    if n == 0 then Ok(0)
    else
      var sum :- CheckFirst(fees, n - 1);
      var t := TYPES[n - 1];
      if t !in fees then Ok(sum)
      else if fees[t] < 0 then Err(InvalidAmount)
      else if sum + fees[t] > I128_MAX then Err(InvalidFeeConfiguration)
      else Ok(sum + fees[t])
  }

  function CheckMap(fees: map<FeeType, int>, total: int): Result<()> {
    var sum :- CheckFirst(fees, |TYPES|);
    if sum != total then Err(InvalidFeeConfiguration) else Ok(())
  }

  /** Add the incoming fees to those of the period. */
  function Merged(fees: map<FeeType, int>, incoming: map<FeeType, int>): map<FeeType, int> {
    map t | t in fees.Keys + incoming.Keys :: if t in incoming then SatAdd(FeeOf(fees, t), incoming[t]) else fees[t]
  }

  function Collected(d: RevenueData, fees: map<FeeType, int>, total: int): RevenueData {
    RevenueData(SatAdd(d.totalCollected, total), Merged(d.fees, fees), d.totalDistributed, SatAdd(d.pending, total),
                Min(d.transactions + 1, U32_MAX))
  }

  /** `validate_revenue_shares`. */
  function CheckShares(c: RevenueConfig): Result<()> {
    if c.treasuryBps > BPS_DENOMINATOR || c.developerBps > BPS_DENOMINATOR
        || c.platformBps > BPS_DENOMINATOR then Err(InvalidFeeConfiguration)
    else if c.treasuryBps + c.developerBps + c.platformBps != BPS_DENOMINATOR then Err(InvalidAmount)
    else Ok(())
  }

  datatype Payout = Payout(treasury: int, developer: int, platform: int)

  /** Two floors, and the remainder for the platform. */
  function Shared(amount: int, c: RevenueConfig): Payout {
    var treasury := SatMul(amount, c.treasuryBps) / BPS_DENOMINATOR;
    var developer := SatMul(amount, c.developerBps) / BPS_DENOMINATOR;
    Payout(treasury, developer, SatSub(SatSub(amount, treasury), developer))
  }

  function Distributed(d: RevenueData): RevenueData {
    d.(totalDistributed := SatAdd(d.totalDistributed, d.pending), pending := 0)
  }

  /* ---- what the checks accept ---- */

  /** An accepted map has no negative entry and adds up to the announced total; nothing else is refused. */
  lemma MapAcceptedIff(fees: map<FeeType, int>, total: i128)
    ensures CheckMap(fees, total).Ok? <==> (forall t :: t in fees ==> fees[t] >= 0) && SumByType(fees) == total
  {
    CheckedSum(fees, |TYPES|);
    AllTypes();
    if CheckMap(fees, total).Ok? {
      forall t | t in fees ensures fees[t] >= 0 {
        assert t in TYPES;
        var i :| 0 <= i < |TYPES| && TYPES[i] == t;
        assert FeeOf(fees, TYPES[i]) >= 0;
      }
    }
    if forall t :: t in fees ==> fees[t] >= 0 {
      PartialSums(fees, |TYPES|);
    }
  }

  lemma {:induction false} CheckedSum(fees: map<FeeType, int>, n: nat)
    requires n <= |TYPES|
    ensures CheckFirst(fees, n).Ok? <==>
      && (forall i :: 0 <= i < n ==> FeeOf(fees, TYPES[i]) >= 0)
      && (forall i :: 0 <= i <= n ==> SumFirst(fees, i) <= I128_MAX)
    ensures CheckFirst(fees, n).Ok? ==> CheckFirst(fees, n).value == SumFirst(fees, n)
  {
    if n > 0 {
      CheckedSum(fees, n - 1);
      var sum := SumFirst(fees, n);
      if CheckFirst(fees, n).Ok? {
        assert FeeOf(fees, TYPES[n - 1]) >= 0 && sum <= I128_MAX;
      } else if CheckFirst(fees, n - 1).Ok? {
        assert FeeOf(fees, TYPES[n - 1]) < 0 || SumFirst(fees, n) > I128_MAX;
      } else {
        assert (exists i :: 0 <= i < n - 1 && FeeOf(fees, TYPES[i]) < 0)
            || (exists i :: 0 <= i <= n - 1 && SumFirst(fees, i) > I128_MAX);
      }
    }
  }

  lemma {:induction false} PartialSums(fees: map<FeeType, int>, n: nat)
    requires n <= |TYPES| && forall t :: t in fees ==> fees[t] >= 0
    ensures forall i :: 0 <= i <= n ==> SumFirst(fees, i) <= SumFirst(fees, n)
  {
    if n > 0 {
      PartialSums(fees, n - 1);
    }
  }

  /* ---- distribution ---- */

  lemma FloorsOfShares(x: nat, y: nat, z: nat, total: nat)
    requires x + y + z == BPS_DENOMINATOR * total
    ensures z / BPS_DENOMINATOR <= total - x / BPS_DENOMINATOR - y / BPS_DENOMINATOR <= z / BPS_DENOMINATOR + 2
  {
  }

  lemma SharesOfAmount(amount: nat, a: nat, b: nat, c: nat)
    requires a + b + c == BPS_DENOMINATOR
    ensures amount * a + amount * b + amount * c == BPS_DENOMINATOR * amount
    ensures amount * a >= 0 && amount * b >= 0 && amount * c >= 0
  {
    assert amount * a + amount * b + amount * c == amount * (a + b + c);
  }

  /**
    Every distribution pays out exactly what is pending, in non-negative parts, so the two guards
    behind it never fire, saturation included; the platform gets at least its own floor, and where
    no product saturates at most 2 units more.
   */
  lemma PayoutIsExact(amount: i128, c: RevenueConfig)
    requires 0 <= amount && CheckShares(c).Ok?
    ensures var p := Shared(amount, c);
      && p.treasury >= 0 && p.developer >= 0 && p.platform >= 0
      && p.treasury + p.developer + p.platform == amount
      && p.platform >= amount * c.platformBps / BPS_DENOMINATOR
      && FlooredShare(p.treasury, amount, c.treasuryBps) && FlooredShare(p.developer, amount, c.developerBps)
      && (amount * c.treasuryBps <= I128_MAX && amount * c.developerBps <= I128_MAX
          ==> p.platform <= amount * c.platformBps / BPS_DENOMINATOR + 2)
  {
    hide SatMul, FlooredShare;
    ShareBounds(amount, c.treasuryBps);
    ShareBounds(amount, c.developerBps);
    ShareIsFloored(amount, c.treasuryBps);
    ShareIsFloored(amount, c.developerBps);
    SharesOfAmount(amount, c.treasuryBps, c.developerBps, c.platformBps);
    FloorsOfShares(amount * c.treasuryBps, amount * c.developerBps, amount * c.platformBps, amount);
  }

  /* ---- conservation over any interleaving ---- */

  /** What happens to the record of one period. */
  datatype Event = Collect(fees: map<FeeType, int>, total: i128) | Distribute

  predicate Accepted(e: Event) { e.Collect? && e.total > 0 && CheckMap(e.fees, e.total).Ok? }

  /** Refused collections and empty distributions leave the record as it is. */
  function Step(d: RevenueData, e: Event): RevenueData {
    match e
    case Collect(fees, total) => if Accepted(e) then Collected(d, fees, total) else d
    case Distribute => Distributed(d)
  }

  function After(events: seq<Event>): RevenueData {
    if |events| == 0 then EMPTY else Step(After(events[..|events| - 1]), events[|events| - 1])
  }

  /** The true sum of everything accepted, without saturation. */
  function Taken(events: seq<Event>): nat {
    if |events| == 0 then 0
    else
      var e := events[|events| - 1];
      Taken(events[..|events| - 1]) + if Accepted(e) then e.total else 0
  }

  /** Collected = distributed + pending = the sum over the fee types. */
  ghost predicate Balanced(d: RevenueData, taken: nat) {
    && d.totalCollected == taken && d.totalDistributed + d.pending == taken && SumByType(d.fees) == taken
    && d.totalDistributed >= 0 && d.pending >= 0 && forall t :: t in d.fees ==> d.fees[t] >= 0
  }

  lemma {:induction false} MergedSum(fees: map<FeeType, int>, incoming: map<FeeType, int>, n: nat, bound: nat)
    requires n <= |TYPES| && bound <= I128_MAX
    requires (forall t :: t in fees ==> fees[t] >= 0) && forall t :: t in incoming ==> incoming[t] >= 0
    requires SumFirst(fees, n) + SumFirst(incoming, n) <= bound
    ensures SumFirst(Merged(fees, incoming), n) == SumFirst(fees, n) + SumFirst(incoming, n)
  {
    if n > 0 {
      PartialSums(fees, n - 1);
      PartialSums(incoming, n - 1);
      assert SumFirst(fees, 0) == 0 && SumFirst(incoming, 0) == 0;
      MergedSum(fees, incoming, n - 1, bound);
    }
  }

  lemma CollectBalances(d: RevenueData, taken: nat, fees: map<FeeType, int>, total: i128)
    requires Balanced(d, taken) && total > 0 && CheckMap(fees, total).Ok? && taken + total <= I128_MAX
    ensures Balanced(Collected(d, fees, total), taken + total)
  {
    MapAcceptedIff(fees, total);
    MergedSum(d.fees, fees, |TYPES|, I128_MAX);
  }

  lemma {:induction false} NoFees(n: nat)
    requires n <= |TYPES|
    ensures SumFirst(map[], n) == 0
  {
    if n > 0 {
      NoFees(n - 1);
    }
  }

  /**
    As long as what a period took in fits an `i128`, its record balances after every interleaving of
    collections and distributions.
   */
  lemma {:induction false} EveryInterleavingBalances(events: seq<Event>)
    requires Taken(events) <= I128_MAX
    ensures Balanced(After(events), Taken(events))
    decreases |events|
  {
    if |events| == 0 {
      NoFees(|TYPES|);
    } else {
      var front, e := events[..|events| - 1], events[|events| - 1];
      EveryInterleavingBalances(front);
      if Accepted(e) {
        CollectBalances(After(front), Taken(front), e.fees, e.total);
      }
    }
  }

  /* ---- past the largest `i128` ---- */

  /** The part of what was taken that came after the last distribution, without saturation. */
  function Waiting(events: seq<Event>): nat {
    if |events| == 0 then 0
    else
      var e := events[|events| - 1];
      if e.Distribute? then 0 else Waiting(events[..|events| - 1]) + if Accepted(e) then e.total else 0
  }

  /** What was taken under one fee type, without saturation. */
  function TakenAs(events: seq<Event>, t: FeeType): int {
    if |events| == 0 then 0
    else
      var e := events[|events| - 1];
      TakenAs(events[..|events| - 1], t) + if Accepted(e) then FeeOf(e.fees, t) else 0
  }

  lemma FiveTypes(fees: map<FeeType, int>)
    ensures SumByType(fees) == FeeOf(fees, Platform) + FeeOf(fees, Processing) + FeeOf(fees, Verification)
                               + FeeOf(fees, EarlyPayment) + FeeOf(fees, LatePayment)
  {
    assert SumFirst(fees, 0) == 0;
    assert SumFirst(fees, 1) == FeeOf(fees, Platform);
    assert SumFirst(fees, 2) == SumFirst(fees, 1) + FeeOf(fees, Processing);
    assert SumFirst(fees, 3) == SumFirst(fees, 2) + FeeOf(fees, Verification);
    assert SumFirst(fees, 4) == SumFirst(fees, 3) + FeeOf(fees, EarlyPayment);
  }

  lemma {:induction false} TakenByType(events: seq<Event>)
    ensures forall t :: TakenAs(events, t) >= 0
    ensures TakenAs(events, Platform) + TakenAs(events, Processing) + TakenAs(events, Verification)
            + TakenAs(events, EarlyPayment) + TakenAs(events, LatePayment) == Taken(events)
    decreases |events|
  {
    if |events| > 0 {
      var front, e := events[..|events| - 1], events[|events| - 1];
      TakenByType(front);
      if Accepted(e) {
        MapAcceptedIff(e.fees, e.total);
        FiveTypes(e.fees);
      }
    }
  }

  /** Every total of the record is the true one, cut off at the largest `i128`. */
  lemma {:induction false} TotalsSaturate(events: seq<Event>)
    ensures var d := After(events);
      && Waiting(events) <= Taken(events)
      && d.totalCollected == Min(Taken(events), I128_MAX)
      && d.pending == Min(Waiting(events), I128_MAX)
      && d.totalDistributed == Min(Taken(events) - Waiting(events), I128_MAX)
      && forall t :: FeeOf(d.fees, t) == Min(TakenAs(events, t), I128_MAX)
    decreases |events|
  {
    hide CheckMap;
    if |events| > 0 {
      var front, e := events[..|events| - 1], events[|events| - 1];
      TotalsSaturate(front);
      TakenByType(front);
      if Accepted(e) {
        MapAcceptedIff(e.fees, e.total);
      }
    }
  }

  /** Not more than one fee type has an amount. */
  ghost predicate OneType(fees: map<FeeType, int>) {
    forall t, u :: FeeOf(fees, t) != 0 && FeeOf(fees, u) != 0 ==> t == u
  }

  lemma OneAmount(fees: map<FeeType, int>)
    requires forall t :: 0 <= FeeOf(fees, t) <= I128_MAX
    requires SumByType(fees) > 0
    ensures OneType(fees) <==> exists t :: FeeOf(fees, t) == SumByType(fees)
  {
    FiveTypes(fees);
    if OneType(fees) {
      var t :| FeeOf(fees, t) != 0;
      assert FeeOf(fees, t) == SumByType(fees);
    }
  }

  /**
    Exactly when the totals of a period agree, for every interleaving: collected with distributed plus pending
    unless the bound is passed with something on either side, collected with the sum by type unless it is
    passed with more than one type, and all of them with what was really taken exactly up to the bound.
   */
  lemma BalancesIff(events: seq<Event>)
    ensures var d, taken := After(events), Taken(events);
      && (d.totalCollected == d.totalDistributed + d.pending
          <==> taken <= I128_MAX || d.pending == 0 || d.totalDistributed == 0)
      && (d.totalCollected == SumByType(d.fees) <==> taken <= I128_MAX || OneType(d.fees))
      && (Balanced(d, taken) <==> taken <= I128_MAX)
  {
    hide After, Taken, Waiting, TakenAs, SumByType;
    TotalsSaturate(events);
    TakenByType(events);
    if Taken(events) <= I128_MAX {
      EveryInterleavingBalances(events);
    } else {
      SumPastTheBound(events);
    }
  }

  lemma SumPastTheBound(events: seq<Event>)
    requires Taken(events) > I128_MAX
    ensures SumByType(After(events).fees) == I128_MAX <==> OneType(After(events).fees)
  {
    hide After, Taken, Waiting, TakenAs, SumByType;
    var fees := After(events).fees;
    TotalsSaturate(events);
    TakenByType(events);
    FiveTypes(fees);
    OneAmount(fees);
  }

  /**
    A run past the bound whose totals disagree: with the largest amount distributed, one more unit is pending but
    not counted.
   */
  lemma SaturationBreaksTheBalance()
    ensures var all := [Collect(map[Platform := I128_MAX], I128_MAX), Distribute, Collect(map[Platform := 1], 1)];
      After(all).totalCollected != After(all).totalDistributed + After(all).pending
  {
    var first, last := Collect(map[Platform := I128_MAX], I128_MAX), Collect(map[Platform := 1], 1);
    var all := [first, Distribute, last];
    FiveTypes(first.fees);
    FiveTypes(last.fees);
    MapAcceptedIff(first.fees, I128_MAX);
    MapAcceptedIff(last.fees, 1);
    assert all[..2] == [first, Distribute] && [first, Distribute][..1] == [first] && [first][..0] == [];
    assert After([first]) == Step(After([]), first);
    assert After([first, Distribute]) == Distributed(After([first]));
    assert After(all) == Step(After([first, Distribute]), last);
  }

  /* ---- volume tiers ---- */

  function TierOf(volume: int): VolumeTier {
    if volume >= 1_000_000_000_000 then Platinum
    else if volume >= 500_000_000_000 then Gold
    else if volume >= 100_000_000_000 then Silver
    else Standard
  }

  function TierRank(tier: VolumeTier): nat {
    match tier
    case Standard => 0
    case Silver => 1
    case Gold => 2
    case Platinum => 3
  }

  function WithVolume(v: UserVolume, amount: int): UserVolume {
    var total := SatAdd(v.total, amount);
    UserVolume(total, Min(v.transactions + 1, U32_MAX), TierOf(total))
  }

  /** A tier is never lost by another accepted collection. */
  lemma TierNeverDrops(v: UserVolume, amount: int)
    requires v.tier == TierOf(v.total) && 0 <= v.total <= I128_MAX && amount >= 0
    ensures TierRank(WithVolume(v, amount).tier) >= TierRank(v.tier)
  {
  }

  const NEW_USER: UserVolume := UserVolume(0, 0, Standard)

  /** A user's volume after some accepted collections. */
  function VolumeAfter(amounts: seq<nat>): UserVolume {
    if |amounts| == 0 then NEW_USER else WithVolume(VolumeAfter(amounts[..|amounts| - 1]), amounts[|amounts| - 1])
  }

  function SumOf(amounts: seq<nat>): nat {
    if |amounts| == 0 then 0 else SumOf(amounts[..|amounts| - 1]) + amounts[|amounts| - 1]
  }

  /**
    After any collections the volume is their sum, and the tier is fixed by the true sum and by nothing else: not by
    the order, the sizes or the number of collections, and not by the saturation of the stored total.
   */
  lemma {:induction false} VolumeIsTheSum(amounts: seq<nat>)
    ensures var v, sum := VolumeAfter(amounts), SumOf(amounts);
      && v.total == Min(sum, I128_MAX) && v.transactions == Min(|amounts|, U32_MAX)
      && (v.tier == Platinum <==> sum >= 1_000_000_000_000)
      && (v.tier == Gold <==> 500_000_000_000 <= sum < 1_000_000_000_000)
      && (v.tier == Silver <==> 100_000_000_000 <= sum < 500_000_000_000)
      && (v.tier == Standard <==> sum < 100_000_000_000)
    decreases |amounts|
  {
    if |amounts| > 0 {
      VolumeIsTheSum(amounts[..|amounts| - 1]);
    }
  }

  /* ---- the stored records ---- */

  class RevenueStorage {
    var now: nat
    var revenue: map<nat, RevenueData>
    var volumes: map<Address, UserVolume>
    var config: Option<RevenueConfig>
    var feeTreasury: Option<Address>

    constructor (now: nat)
      ensures this.now == now && revenue == map[] && volumes == map[] && config == None && feeTreasury == None
    {
      this.now, revenue, volumes, config, feeTreasury := now, map[], map[], None, None;
    }

    function RecordOf(period: nat): RevenueData
      reads this
    {
      if period in revenue then revenue[period] else EMPTY
    }

    function VolumeOf(user: Address): UserVolume
      reads this
    {
      if user in volumes then volumes[user] else NEW_USER
    }

    method ValidateFeeCollectionMap(fees: map<FeeType, i128>, total: i128) returns (r: Result<()>)
      ensures r == CheckMap(fees, total)
    {
      var sum: i128 := 0;
      for i := 0 to |TYPES|
        invariant CheckFirst(fees, i) == Ok(sum)
      {
        var t := TYPES[i];
        if t in fees {
          if fees[t] < 0 {
            Refused(fees, i + 1);
            return Err(InvalidAmount);
          }
          if sum + fees[t] > I128_MAX {
            Refused(fees, i + 1);
            return Err(InvalidFeeConfiguration);
          }
          sum := sum + fees[t];
        }
      }
      if sum != total {
        return Err(InvalidFeeConfiguration);
      }
      r := Ok(());
    }

    method UpdateUserVolume(user: Address, amount: i128)
      modifies this`volumes
      ensures volumes == old(volumes)[user := WithVolume(old(VolumeOf(user)), amount)]
    {
      var v := VolumeOf(user);
      var total := SatAdd(v.total, amount);
      var tier := if total >= 1_000_000_000_000 then Platinum
                  else if total >= 500_000_000_000 then Gold
                  else if total >= 100_000_000_000 then Silver
                  else Standard;
      volumes := volumes[user := UserVolume(total, Min(v.transactions + 1, U32_MAX), tier)];
    }

    method CollectFees(user: Address, fees: map<FeeType, i128>, total: i128) returns (r: Result<()>)
      modifies this`revenue, this`volumes
      ensures r == if total <= 0 then Err(InvalidAmount) else CheckMap(fees, total)
      ensures r.Ok? ==>
        && var period := now / PERIOD_SECONDS;
        && revenue == old(revenue)[period := Collected(old(RecordOf(period)), fees, total)]
        && volumes == old(volumes)[user := WithVolume(old(VolumeOf(user)), total)]
      ensures r.Err? ==> revenue == old(revenue) && volumes == old(volumes)
    {
      if total <= 0 {
        return Err(InvalidAmount);
      }
      var _ :- ValidateFeeCollectionMap(fees, total);
      var period := now / PERIOD_SECONDS;
      var data := RecordOf(period);
      var merged := MergeFees(data.fees, fees);
      revenue := revenue[period := RevenueData(SatAdd(data.totalCollected, total), merged, data.totalDistributed,
                                               SatAdd(data.pending, total), Min(data.transactions + 1, U32_MAX))];
      UpdateUserVolume(user, total);
      r := Ok(());
    }

    /** Merge the incoming fees into those of the period rather than overwriting them. */
    method MergeFees(existing: map<FeeType, int>, incoming: map<FeeType, i128>) returns (merged: map<FeeType, int>)
      ensures merged == Merged(existing, incoming)
    {
      merged := existing;
      for i := 0 to |TYPES|
        invariant forall t :: t in merged <==> t in existing || (t in incoming && t in TYPES[..i])
        invariant forall t :: t in merged ==>
          merged[t] == if t in incoming && t in TYPES[..i] then SatAdd(FeeOf(existing, t), incoming[t]) else existing[t]
      {
        var t := TYPES[i];
        assert TYPES[..i + 1] == TYPES[..i] + [t];
        assert t !in TYPES[..i] by { TypesDiffer(i); }
        if t in incoming {
          merged := merged[t := SatAdd(FeeOf(merged, t), incoming[t])];
        }
      }
      assert TYPES[..|TYPES|] == TYPES;
      AllTypes();
    }

    /** `distribute_revenue`: the two guards after the split are there, and are proved never to fire. */
    method DistributeRevenue(period: nat) returns (r: Result<Payout>)
      requires 0 <= RecordOf(period).pending <= I128_MAX
      modifies this`revenue
      ensures r.Err? ==> revenue == old(revenue)
      ensures r.Ok? <==>
        && config.Some? && config.value.treasuryBps + config.value.developerBps + config.value.platformBps == 10_000
        && (config.value.treasuryBps > 0 && feeTreasury.Some? ==> feeTreasury.value == config.value.treasury)
        && period in old(revenue) && old(revenue)[period].pending != 0 && old(revenue)[period].pending >= config.value.minimum
      ensures r.Ok? ==>
        && r.value == Shared(old(revenue)[period].pending, config.value)
        && r.value.treasury + r.value.developer + r.value.platform == old(revenue)[period].pending
        && FlooredShare(r.value.treasury, old(revenue)[period].pending, config.value.treasuryBps)
        && FlooredShare(r.value.developer, old(revenue)[period].pending, config.value.developerBps)
        && revenue == old(revenue)[period := Distributed(old(revenue)[period])]
    {
      if config.None? {
        return Err(StorageKeyNotFound);
      }
      var c := config.value;
      var checked := CheckShares(c);
      if checked.Err? {
        return Err(checked.error);
      }
      if c.treasuryBps > 0 && feeTreasury.Some? && feeTreasury.value != c.treasury {
        return Err(InvalidFeeConfiguration);
      }
      if period !in revenue {
        return Err(StorageKeyNotFound);
      }
      var data := revenue[period];
      if data.pending == 0 {
        return Err(OperationNotAllowed);
      }
      if data.pending < c.minimum {
        return Err(InvalidAmount);
      }
      var amount := data.pending;
      PayoutIsExact(amount, c);
      var treasury := SatMul(amount, c.treasuryBps) / BPS_DENOMINATOR;
      var developer := SatMul(amount, c.developerBps) / BPS_DENOMINATOR;
      var platform := SatSub(SatSub(amount, treasury), developer);
      if treasury < 0 || developer < 0 || platform < 0 {
        return Err(InvalidFeeConfiguration);
      }
      if treasury + developer + platform != amount {
        return Err(InvalidFeeConfiguration);
      }
      revenue := revenue[period := data.(totalDistributed := SatAdd(data.totalDistributed, amount), pending := 0)];
      r := Ok(Payout(treasury, developer, platform));
    }
  }

  lemma TypesDiffer(i: nat)
    requires i < |TYPES|
    ensures TYPES[i] !in TYPES[..i]
  {
  }

  lemma AllTypes()
    ensures forall t: FeeType :: t in TYPES
  {
    forall t: FeeType ensures t in TYPES {
      match t
      case Platform => assert TYPES[0] == t;
      case Processing => assert TYPES[1] == t;
      case Verification => assert TYPES[2] == t;
      case EarlyPayment => assert TYPES[3] == t;
      case LatePayment => assert TYPES[4] == t;
    }
  }

  /** Once refused, a longer prefix is refused with the same error. */
  lemma {:induction false} Refused(fees: map<FeeType, int>, n: nat)
    requires n <= |TYPES| && CheckFirst(fees, n).Err?
    ensures CheckFirst(fees, |TYPES|) == CheckFirst(fees, n)
    decreases |TYPES| - n
  {
    if n < |TYPES| {
      Refused(fees, n + 1);
    }
  }
}
