// Everything the engine derives from a save without changing it: prices, payouts, growth, gates.
module Derive {
  import opened Int64
  import opened Content
  import opened Farms

  // ---------- active event and moon ----------

  /** `activeEvent` is non-nil. It does not look at the end time. */
  predicate HasEvent(c: Config, f: Farm) { f.eventId != "" && f.eventId in c.eventById }

  function EventBonus(c: Config, f: Farm, effect: Effect): int64 {
    if HasEvent(c, f) && c.eventById[f.eventId].effect == effect then c.eventById[f.eventId].effectValue else 0
  }

  predicate EventActive(f: Farm, now: int) { f.eventId != "" && now < f.eventEndsAt }

  function MoonPhase(f: Farm): int {
    if f.moonEpoch == 0 then 0 else Rem(Quo(f.updatedAt, 86400) - f.moonEpoch, 28)
  }

  predicate IsFullMoon(c: Config, f: Farm, cropId: string) {
    && cropId == c.moon.moonberryCropId && c.moon.cycleDays >= 1
    && MoonPhase(f) == Quo(c.moon.cycleDays, 2)
  }

  // ---------- effects of owned perks ----------

  /** Sum over the first `n` perks of effect value times owned level, as int64 has it. */
  function EffectSum(perks: seq<Perk>, levels: map<string, int>, effect: Effect, n: nat): int64
    requires n <= |perks|
  {
    if n == 0 then 0
    else
      var sum := EffectSum(perks, levels, effect, n - 1);
      if perks[n - 1].effect == effect then Wrap(sum + Wrap(perks[n - 1].effectValue * Level(levels, perks[n - 1].id)))
      else sum
  }

  function UpgradeSum(c: Config, f: Farm, effect: Effect): int64 {
    EffectSum(c.upgrades, f.upgrades, effect, |c.upgrades|)
  }

  function MultiplierSum(c: Config, f: Farm, effect: Effect): int64 {
    EffectSum(c.multipliers, f.multipliers, effect, |c.multipliers|)
  }

  /** Upgrades, multipliers and the running event together. */
  function Bonus(c: Config, f: Farm, effect: Effect): int64 {
    Wrap(Wrap(UpgradeSum(c, f, effect) + MultiplierSum(c, f, effect)) + EventBonus(c, f, effect))
  }

  // ---------- seed, growth, payout ----------

  function SeedCost(c: Config, f: Farm, crop: Crop): (cost: int64)
    ensures cost >= 0
  {
    var cost: int64 :=
      if HasEvent(c, f) && c.eventById[f.eventId].effect.SeedDiscount? then
        Quo(Wrap(crop.seedCost * (100 - Min(c.eventById[f.eventId].effectValue, 99))), 100)
      else crop.seedCost;
    if cost < 0 then 0 else cost
  }

  function GrowSeconds(c: Config, f: Farm, crop: Crop): (g: int)
    ensures g >= 1
  {
    var g := Quo(Wrap(crop.growSeconds * (100 - Min(Bonus(c, f, GrowSpeed), 99))), 100);
    if g < 1 then 1 else g
  }

  function SellBonusPct(c: Config, f: Farm, cropId: string): int64 {
    Wrap(Bonus(c, f, SellBonus) + if IsFullMoon(c, f, cropId) then c.moon.fullMoonSellBonusPct else 0)
  }

  /** What the source divides by. */
  function Divisor(bonus: int64): int64 { Wrap(100 + bonus) }

  /** The price with its bonus. Where the divisor is zero the source panics; this function then says `MAX`. */
  function Boost(base: int64, bonus: int64): (payout: int64) {
    if bonus == 0 then base
    else
      var d := Divisor(bonus);
      if d == 0 || base > Div(MAX, d) then MAX else Quo(Wrap(base * d), 100)
  }

  function SellMultiplied(c: Config, f: Farm, base: int64, cropId: string): (payout: int64) {
    Boost(base, SellBonusPct(c, f, cropId))
  }

  /** Eighths of the sell value kept when a risky crop fails. */
  function SalvageNumerator(level: int): int {
    if level <= 0 then 1 else if level == 1 then 2 else if level == 2 then 4 else 6
  }

  function Salvage(f: Farm, crop: Crop): int64 {
    Quo(Wrap(crop.sellValue * SalvageNumerator(Level(f.seedUpgrades, crop.id))), 8)
  }

  /** The integer expected value of one harvest, used by the batched catch-up. */
  function ExpectedPayout(c: Config, f: Farm, crop: Crop): int64 {
    if !crop.archetype.Risky? then SellMultiplied(c, f, crop.sellValue, crop.id)
    else
      var base: int64 := Quo(Wrap(crop.failChancePct * Salvage(f, crop) + (100 - crop.failChancePct) * crop.sellValue),
          100);
      SellMultiplied(c, f, base, crop.id)
  }

  // ---------- gates ----------

  predicate Unlocked(f: Farm, u: Unlock) {
    match u
    case AtStart => true
    case AtEarnings(value) => f.lifetimeEarnings >= value
    case AtPrestige(value) => f.rebirths >= value
    case InZone(zone) => Owns(f.zones, zone)
  }

  datatype Option<T> = None | Some(value: T)

  /** First crop of least seed cost among the unlocked ones of the first `n`. */
  function CheapestUnlocked(c: Config, f: Farm, n: nat): (best: Option<Crop>)
    requires n <= |c.crops|
    ensures best.Some? ==> best.value in c.crops && Unlocked(f, best.value.unlock)
    ensures best.None? <==> forall k :: 0 <= k < n ==> !Unlocked(f, c.crops[k].unlock)
    ensures best.Some? ==> forall k :: 0 <= k < n && Unlocked(f, c.crops[k].unlock) ==>
                                     best.value.seedCost <= c.crops[k].seedCost
  {
    if n == 0 then None
    else
      var best := CheapestUnlocked(c, f, n - 1);
      var crop := c.crops[n - 1];
      if Unlocked(f, crop.unlock) && (best.None? || crop.seedCost < best.value.seedCost) then Some(crop) else best
  }

  predicate AllPlotsEmpty(f: Farm) { forall i :: 0 <= i < |f.plots| ==> f.plots[i].crop == "" }

  predicate MercyPlantEligible(c: Config, f: Farm, cropId: string) {
    && AllPlotsEmpty(f)
    && var cheapest := CheapestUnlocked(c, f, |c.crops|);
       cheapest.Some? && cropId == cheapest.value.id && f.coins < SeedCost(c, f, cheapest.value)
  }

  // ---------- geometric prices ----------

  /** A price after `n` growth steps; a step that would overflow pins it at `MAX / 100`. */
  function Compound(base: int64, growthPct: int64, n: nat): (cost: int64)
    requires growthPct >= 100
  {
    if n == 0 then base
    else
      var cost := Compound(base, growthPct, n - 1);
      if cost > MAX / growthPct then MAX / 100 else Quo(Wrap(cost * growthPct), 100)
  }

  function Count(ps: seq<Plot>, n: nat): (k: nat)
    requires n <= |ps|
    ensures k <= n
  {
    if n == 0 then 0 else Count(ps, n - 1) + if ps[n - 1].autoHarvest then 1 else 0
  }

  function PlotPrice(c: Config, f: Farm): int64
  {
    if c.start.plots + f.purchasedPlots >= c.land.maxPlots then -1
    else
      var cost := Compound(c.land.basePlotCost, c.land.growthPct, if f.purchasedPlots > 0 then f.purchasedPlots else 0);
      Discounted(cost, UpgradeSum(c, f, PlotDiscount))
  }

  function Discounted(cost: int64, discount: int): (r: int64)
    ensures r >= 1
  {
    var reduced: int64 := Quo(Wrap(cost * (100 - Min(discount, 99))), 100);
    if reduced < 1 then 1 else reduced
  }

  function AutoHarvestPrice(c: Config, f: Farm): (r: int64)
    ensures r >= 1
  {
    var cost := Compound(c.plotAutomation.autoHarvestBaseCost, c.plotAutomation.autoHarvestGrowthPct,
        Count(f.plots, |f.plots|));
    if cost < 1 then 1 else cost
  }

  /** Price of the level after `level`, or -1 at the maximum; shared by upgrades, multipliers and seed upgrades. */
  function LevelPrice(cost: int64, growthPct: int64, maxLevel: int64, level: int): int64
    requires growthPct >= 100
  {
    if level >= maxLevel then -1 else Compound(cost, growthPct, if level > 0 then level else 0)
  }

  // ---------- prestige ----------

  predicate SquareFits(r: int, n: int) { r * r <= n }

  /** Largest `r` with `r * r <= n`, found by counting `n` up. */
  function Isqrt(n: int): nat {
    if n <= 0 then 0
    else
      var r := Isqrt(n - 1);
      if SquareFits(r + 1, n) then r + 1 else r
  }

  lemma {:induction false} IsqrtIsRoot(n: nat)
    ensures Isqrt(n) * Isqrt(n) <= n < (Isqrt(n) + 1) * (Isqrt(n) + 1)
  {
    if n > 0 { IsqrtIsRoot(n - 1); }
  }

  function PrestigeGain(c: Config, f: Farm): nat
  {
    Isqrt(Quo(f.runEarnings, c.prestige.divisor))
  }

  predicate CanRebirth(c: Config, f: Farm)
  {
    f.runEarnings >= c.prestige.minEarnings && PrestigeGain(c, f) >= 1
  }

  function OpeningCoins(c: Config, upgrades: map<string, int>, n: nat): int64
    requires n <= |c.upgrades|
  {
    if n == 0 then c.start.coins
    else
      var coins := OpeningCoins(c, upgrades, n - 1);
      var u := c.upgrades[n - 1];
      if u.effect == Effect.StartCoins then SatAdd(coins, Wrap(u.effectValue * Level(upgrades, u.id))) else coins
  }
}
