// The player's actions as functions of the save: what each one refuses and what it leaves behind.
module Actions {
  import opened Int64
  import opened Content
  import opened Farms
  import opened Derive
  import opened Text

  datatype Error =
    | UnknownPlot | PlotOccupied | PlotEmpty | NotMature | UnknownCrop | UnknownItem | Locked
    | CantAfford | CantAffordPP | Maxed | AlreadyOwned | RebirthTooSoon | NoGift | NoCritter | NameTooLong | NameEmpty

  datatype AutoKind = AutoHarvest | AutoSow | OtherKind

  datatype Action =
    | Plant(i: int, cropId: string) | Harvest(i: int) | BuyPlot | BuyZone(id: string) | BuyMultiplier(id: string)
    | BuySeedUpgrade(id: string) | UpgradePlotAuto(i: int, kind: AutoKind) | BuyUpgrade(id: string) | RedeemGift
    | ShooCritter(i: int) | SetFarmName(name: string) | Rebirth | SetFlavor(enabled: bool)

  /** What a successful action reports to the player. */
  datatype Receipt =
    | Plain | Cost(cost: int64) | Yielded(outcome: Yield) | Parcel(coins: int64, starseeds: int64)
    | Reward(reward: int64) | Gain(gain: int)

  datatype Step = Done(farm: Farm, receipt: Receipt) | Refused(error: Error)

  /** A step that leaves the clock, the running event and the payload version alone. */
  ghost predicate KeepsClock(f: Farm, r: Step) {
    r.Done? ==> r.farm.version == f.version && r.farm.updatedAt == f.updatedAt && r.farm.moonEpoch == f.moonEpoch
                && r.farm.eventId == f.eventId && r.farm.eventEndsAt == f.eventEndsAt
  }

  /** A step that leaves Starseeds, permanent upgrades and the rebirth count alone. */
  ghost predicate KeepsSeeds(f: Farm, r: Step) {
    r.Done? ==> r.farm.prestige == f.prestige && r.farm.upgrades == f.upgrades && r.farm.rebirths == f.rebirths
  }

  // ---------- one harvest ----------

  /** The outcome of rolling one harvest, with the stream position it leaves. */
  datatype Yield = Yield(rng: nat, payout: int64, discovery: int64, failed: bool, golden: bool)

  predicate DiscoveryRolls(c: Config, f: Farm) {
    c.flavor.enabled && f.flavorEnabled && c.flavor.discoveryChancePct > 0
  }

  function Gilded(c: Config, payout: int64): int64 {
    Quo(Wrap(payout * (if c.golden.multiplier < 10 then 10 else c.golden.multiplier)), 10)
  }

  function HarvestYield(c: Config, f: Farm, crop: Crop): Yield {
    var failed := crop.archetype.Risky? && Roll(c, f.rng, 100) < crop.failChancePct;
    var rng1 := if crop.archetype.Risky? then NextRng(f.rng) else f.rng;
    var plain := SellMultiplied(c, f, if failed then Salvage(f, crop) else crop.sellValue, crop.id);
    var golden := c.golden.chancePct > 0 && Roll(c, rng1, 100) < c.golden.chancePct;
    var rng2 := if c.golden.chancePct > 0 then NextRng(rng1) else rng1;
    var payout := if golden then Gilded(c, plain) else plain;
    if DiscoveryRolls(c, f) then
      var rng3 := NextRng(rng2);
      if Roll(c, rng2, 100) < c.flavor.discoveryChancePct then
        Yield(RangeRng(rng3, c.flavor.discoveryMin, c.flavor.discoveryMax), payout,
              RollRange(c, rng3, c.flavor.discoveryMin, c.flavor.discoveryMax), failed, golden)
      else Yield(rng3, payout, 0, failed, golden)
    else Yield(rng2, payout, 0, failed, golden)
  }

  /** Bank one yield: payout, discovery, and the harvest counter. */
  function Bank(f: Farm, y: Yield): (g: Farm)
    ensures g == f.(rng := g.rng, coins := g.coins, runEarnings := g.runEarnings,
                    lifetimeEarnings := g.lifetimeEarnings, lifetimeHarvests := SatAdd(f.lifetimeHarvests, 1))
  {
    var f1 := Credit(f.(rng := y.rng), y.payout);
    var f2 := if y.discovery > 0 then Credit(f1, y.discovery) else f1;
    f2.(lifetimeHarvests := SatAdd(f2.lifetimeHarvests, 1))
  }

  // ---------- plots ----------

  function Ready(c: Config, f: Farm, i: int, now: int): (ready: bool)
    requires 0 <= i < |f.plots|
  {
    f.plots[i].crop in c.cropById && now >= f.plots[i].plantedAt + GrowSeconds(c, f, c.cropById[f.plots[i].crop])
  }

  function PlantStep(c: Config, f: Farm, i: int, cropId: string, now: int): (r: Step)
    ensures KeepsClock(f, r) && KeepsSeeds(f, r)
  {
    if i < 0 || i >= |f.plots| then Refused(UnknownPlot)
    else if f.plots[i].crop != "" then Refused(PlotOccupied)
    else if cropId !in c.cropById then Refused(UnknownCrop)
    else if !Unlocked(f, c.cropById[cropId].unlock) then Refused(Locked)
    else
      var cost := SeedCost(c, f, c.cropById[cropId]);
      var mercy := MercyPlantEligible(c, f, cropId);
      if !mercy && f.coins < cost then Refused(CantAfford)
      else
        Done(f.(coins := if mercy then f.coins else Wrap(f.coins - cost),
                plots := f.plots[i := Plot(cropId, now, f.plots[i].autoHarvest, f.plots[i].autoSow, "")]), Plain)
  }

  function HarvestStep(c: Config, f: Farm, i: int, now: int): (r: Step)
    ensures KeepsClock(f, r) && KeepsSeeds(f, r)
  {
    if i < 0 || i >= |f.plots| then Refused(UnknownPlot)
    else if f.plots[i].crop == "" then Refused(PlotEmpty)
    else if f.plots[i].crop !in c.cropById then Refused(UnknownCrop)
    else if !Ready(c, f, i, now) then Refused(NotMature)
    else
      var y := HarvestYield(c, f, c.cropById[f.plots[i].crop]);
      Done(Bank(f, y).(plots := f.plots[i := Plot("", 0, f.plots[i].autoHarvest, f.plots[i].autoSow, "")]), Yielded(y))
  }

  // ---------- purchases ----------

  function BuyPlotStep(c: Config, f: Farm): (r: Step)
    ensures KeepsClock(f, r) && KeepsSeeds(f, r)
  {
    var cost := PlotPrice(c, f);
    if cost < 0 then Refused(Maxed)
    else if f.coins < cost then Refused(CantAfford)
    else Done(f.(coins := Wrap(f.coins - cost), purchasedPlots := f.purchasedPlots + 1,
                 plots := f.plots + [EMPTY_PLOT]), Cost(cost))
  }

  function BuyZoneStep(c: Config, f: Farm, id: string): (r: Step)
    ensures KeepsClock(f, r) && KeepsSeeds(f, r)
  {
    if id !in c.zoneById then Refused(UnknownItem)
    else
      var zone := c.zoneById[id];
      if Owns(f.zones, id) then Refused(AlreadyOwned)
      else if !Unlocked(f, zone.unlock) then Refused(Locked)
      else if f.coins < zone.cost then Refused(CantAfford)
      else Done(f.(coins := Wrap(f.coins - zone.cost), zones := f.zones[id := true],
                   plots := f.plots + EmptyPlots(zone.extraPlots)), Plain)
  }

  function BuyMultiplierStep(c: Config, f: Farm, id: string): (r: Step)
    ensures KeepsClock(f, r) && KeepsSeeds(f, r)
  {
    if id !in c.multiplierById then Refused(UnknownItem)
    else
      var m := c.multiplierById[id];
      var cost := LevelPrice(m.cost, m.costGrowthPct, m.maxLevel, Level(f.multipliers, m.id));
      if cost < 0 then Refused(Maxed)
      else if f.coins < cost then Refused(CantAfford)
      else Done(f.(coins := Wrap(f.coins - cost), multipliers := f.multipliers[id := Level(f.multipliers, id) + 1]),
          Plain)
  }

  function BuySeedUpgradeStep(c: Config, f: Farm, id: string): (r: Step)
    ensures KeepsClock(f, r) && KeepsSeeds(f, r)
  {
    if id !in c.seedUpgradeById then Refused(UnknownItem)
    else
      var su := c.seedUpgradeById[id];
      if su.cropId !in c.cropById || !Unlocked(f, c.cropById[su.cropId].unlock) then Refused(Locked)
      else
        var cost := LevelPrice(su.cost, su.costGrowthPct, su.maxLevel, Level(f.seedUpgrades, su.cropId));
        if cost < 0 then Refused(Maxed)
        else if f.coins < cost then Refused(CantAfford)
        else Done(f.(coins := Wrap(f.coins - cost),
                     seedUpgrades := f.seedUpgrades[su.cropId := Level(f.seedUpgrades, su.cropId) + 1]), Plain)
  }

  function UpgradePlotAutoStep(c: Config, f: Farm, i: int, kind: AutoKind): (r: Step)
    ensures KeepsClock(f, r) && KeepsSeeds(f, r)
  {
    if i < 0 || i >= |f.plots| then Refused(UnknownPlot)
    else
      match kind
      case AutoHarvest =>
        var cost := AutoHarvestPrice(c, f);
        if f.plots[i].autoHarvest then Refused(AlreadyOwned)
        else if f.coins < cost then Refused(CantAfford)
        else Done(f.(coins := Wrap(f.coins - cost), plots := f.plots[i := f.plots[i].(autoHarvest := true)]), Plain)
      case AutoSow =>
        if f.plots[i].autoSow then Refused(AlreadyOwned)
        else if !f.plots[i].autoHarvest || f.lifetimeEarnings < c.plotAutomation.autoSowMinEarnings then Refused(Locked)
        else if f.coins < c.plotAutomation.autoSowCost then Refused(CantAfford)
        else Done(f.(coins := Wrap(f.coins - c.plotAutomation.autoSowCost),
                     plots := f.plots[i := f.plots[i].(autoSow := true)]), Plain)
      case OtherKind => Refused(UnknownItem)
  }

  function BuyUpgradeStep(c: Config, f: Farm, id: string): (r: Step)
    ensures KeepsClock(f, r)
  {
    if id !in c.upgradeById then Refused(UnknownItem)
    else
      var u := c.upgradeById[id];
      var cost := LevelPrice(u.cost, u.costGrowthPct, u.maxLevel, Level(f.upgrades, u.id));
      if cost < 0 then Refused(Maxed)
      else if f.prestige < cost then Refused(CantAffordPP)
      else Done(f.(prestige := Wrap(f.prestige - cost), upgrades := f.upgrades[id := Level(f.upgrades, id) + 1]), Plain)
  }

  // ---------- gifts and critters ----------

  function Clamp(x: int64, floor: int64, ceiling: int64): int64 {
    var raised := if x < floor then floor else x;
    if raised > ceiling then ceiling else raised
  }

  function GiftBase(c: Config, f: Farm): int64 {
    Clamp(Wrap(Isqrt(Quo(f.runEarnings, 10)) + 10 + Wrap(f.rebirths * 50)), c.gifts.coinRewardFloor,
        c.gifts.coinRewardCeiling)
  }

  function GiftCoins(c: Config, f: Farm, rng: nat): int64 {
    var base := GiftBase(c, f);
    Clamp(Wrap(base + RollRange(c, rng, Quo(Wrap(-(base as int)), 5), Quo(base, 5))), c.gifts.coinRewardFloor,
        c.gifts.coinRewardCeiling)
  }

  function GiftRng(c: Config, f: Farm): nat {
    var base := GiftBase(c, f);
    RangeRng(Unwrapped(f).rng, Quo(Wrap(-(base as int)), 5), Quo(base, 5))
  }

  predicate HoldsStarseeds(c: Config, f: Farm) {
    f.rebirths >= 1 && Roll(c, f.rng, 100) < c.gifts.starseedChancePct
  }

  /** The save with the parcel taken off the gate and the starseed roll spent. */
  function Unwrapped(f: Farm): Farm {
    f.(giftPending := false, giftArrivedAt := 0, rng := if f.rebirths >= 1 then NextRng(f.rng) else f.rng)
  }

  function GiftSeeds(c: Config, f: Farm): int64
  {
    Wrap(PrestigeGain(c, f) + 1 + f.rebirths)
  }

  function RedeemGiftStep(c: Config, f: Farm): (r: Step)
    ensures KeepsClock(f, r)
  {
    hide GiftCoins, GiftSeeds, HoldsStarseeds, GiftRng, SatAdd;
    if !f.giftPending then Refused(NoGift)
    else if HoldsStarseeds(c, f) then
      var seeds := GiftSeeds(c, f);
      Done(Unwrapped(f).(prestige := SatAdd(f.prestige, seeds)), Parcel(0, seeds))
    else
      var coins := GiftCoins(c, f, Unwrapped(f).rng);
      Done(Credit(Unwrapped(f).(rng := GiftRng(c, f)), coins), Parcel(coins, 0))
  }

  function ShooCritterStep(c: Config, f: Farm, i: int): (r: Step)
    ensures KeepsClock(f, r) && KeepsSeeds(f, r)
  {
    if i < 0 || i >= |f.plots| then Refused(UnknownPlot)
    else if f.plots[i].critter == "" then Refused(NoCritter)
    else
      var reward := RollRange(c, f.rng, c.critters.shooRewardMin, c.critters.shooRewardMax);
      Done(Credit(f.(plots := f.plots[i := f.plots[i].(critter := "")],
                     rng := RangeRng(f.rng, c.critters.shooRewardMin, c.critters.shooRewardMax)), reward),
                         Reward(reward))
  }

  function SetFarmNameStep(f: Farm, name: string): (r: Step)
    ensures KeepsClock(f, r) && KeepsSeeds(f, r)
  {
    var trimmed := Trim(name);
    if trimmed == "" then Refused(NameEmpty)
    else if |trimmed| > 24 then Refused(NameTooLong)
    else Done(f.(farmName := trimmed), Plain)
  }

  /** A name is refused as empty exactly when it is blank, and as too long exactly when more than 24 characters are left
      between its outer blanks; an accepted one is that text, and nothing but the name changes. */
  lemma NameRules(f: Farm, name: string)
    ensures SetFarmNameStep(f, name) == Refused(NameEmpty) <==> Blank(name)
    ensures SetFarmNameStep(f, name) == Refused(NameTooLong) <==> !Blank(name) && |Trim(name)| > 24
    ensures var r := SetFarmNameStep(f, name);
            r.Done? ==>
              var kept := r.farm.farmName;
              && r.farm == f.(farmName := kept) && 1 <= |kept| <= 24 && !Space(kept[0]) && !Space(kept[|kept| - 1])
              && exists a, b :: 0 <= a <= b <= |name| && Blank(name[..a]) && kept == name[a..b] && Blank(name[b..])
  {
    hide Trim, Blank, Space;
    var a, b := TrimCutsBlanks(name);
  }

  // ---------- rebirth ----------

  /** The next run: run-scoped state reset, permanent state kept and credited with `gain` Starseeds. */
  function Reborn(c: Config, f: Farm, gain: int, now: int): Farm {
    f.(prestige := SatAdd(f.prestige, Wrap(gain)), rebirths := f.rebirths + 1,
       coins := OpeningCoins(c, f.upgrades, |c.upgrades|), plots := EmptyPlots(c.start.plots), purchasedPlots := 0,
       tools := map[], zones := map[], multipliers := map[], seedUpgrades := map[], runEarnings := 0,
       eventId := "", eventEndsAt := 0, updatedAt := now)
  }

  function RebirthStep(c: Config, f: Farm, now: int): Step {
    if !CanRebirth(c, f) then Refused(RebirthTooSoon)
    else Done(Reborn(c, f, PrestigeGain(c, f), now), Gain(PrestigeGain(c, f)))
  }

  // ---------- any action ----------

  function Act(c: Config, f: Farm, a: Action, now: int): Step
  {
    match a
    case Plant(i, cropId) => PlantStep(c, f, i, cropId, now)
    case Harvest(i) => HarvestStep(c, f, i, now)
    case BuyPlot => BuyPlotStep(c, f)
    case BuyZone(id) => BuyZoneStep(c, f, id)
    case BuyMultiplier(id) => BuyMultiplierStep(c, f, id)
    case BuySeedUpgrade(id) => BuySeedUpgradeStep(c, f, id)
    case UpgradePlotAuto(i, kind) => UpgradePlotAutoStep(c, f, i, kind)
    case BuyUpgrade(id) => BuyUpgradeStep(c, f, id)
    case RedeemGift => RedeemGiftStep(c, f)
    case ShooCritter(i) => ShooCritterStep(c, f, i)
    case SetFarmName(name) => SetFarmNameStep(f, name)
    case Rebirth => RebirthStep(c, f, now)
    case SetFlavor(enabled) => Done(f.(flavorEnabled := enabled), Plain)
  }

  /** The actions that report nothing but success. */
  predicate SaysNothing(a: Action) {
    a.Plant? || a.BuyZone? || a.BuyMultiplier? || a.BuySeedUpgrade? || a.UpgradePlotAuto? || a.BuyUpgrade?
        || a.SetFarmName?
    || a.SetFlavor?
  }

  lemma PlainReceipt(c: Config, f: Farm, a: Action, now: int)
    requires SaysNothing(a) && Act(c, f, a, now).Done?
    ensures Act(c, f, a, now).receipt == Plain
  {
    hide Valid, SeedCost, MercyPlantEligible, Unlocked, LevelPrice, AutoHarvestPrice, Trim, Owns, Level, EmptyPlots;
  }
}
