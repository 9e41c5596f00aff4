// The engine as it runs: one mutable save, updated in place by every action and by the catch-up.
// Each method is proved against the function of the save that the theorems are about.
module Engine {
  import opened Int64
  import opened Content
  import opened Farms
  import opened Derive
  import opened Actions
  import opened Advancing
  import opened Pricing
  import opened Text

  /** The step `r` was carried out: its save is in place, or the refusal left `before` untouched. */
  ghost predicate Follows(r: Step, before: Farm, after: Farm, err: Option<Error>) {
    match r
    case Done(g, _) => err.None? && after == g
    case Refused(e) => err == Some(e) && after == before
  }

  class State {
    var version: int
    var rng: nat
    var updatedAt: int
    var coins: int64
    var plots: seq<Plot>
    var purchasedPlots: int
    var tools: map<string, bool>
    var zones: map<string, bool>
    var runEarnings: int64
    var multipliers: map<string, int>
    var seedUpgrades: map<string, int>
    var giftPending: bool
    var giftArrivedAt: int
    var eventId: string
    var eventEndsAt: int
    var prestige: int64
    var upgrades: map<string, int>
    var achievements: map<string, int>
    var rebirths: int
    var lifetimeEarnings: int64
    var lifetimeHarvests: int64
    var flavorEnabled: bool
    var farmName: string
    var moonEpoch: int

    /** The snapshot handed to the UI and to the theorems. */
    function Clone(): Farm
      reads this
    {
      Farm(version, rng, updatedAt, coins, plots, purchasedPlots, tools, zones, runEarnings, multipliers, seedUpgrades,
           giftPending, giftArrivedAt, eventId, eventEndsAt, prestige, upgrades, achievements, rebirths,
           lifetimeEarnings, lifetimeHarvests, flavorEnabled, farmName, moonEpoch)
    }

    constructor (c: Config, seed: nat, now: int)
      ensures Clone() == Farms.New(c, seed, now)
    {
      version, rng, updatedAt := STATE_VERSION, seed, now;
      coins, plots, purchasedPlots := c.start.coins, EmptyPlots(c.start.plots), 0;
      tools, zones, runEarnings, multipliers, seedUpgrades := map[], map[], 0, map[], map[];
      giftPending, giftArrivedAt, eventId, eventEndsAt := false, 0, "", 0;
      prestige, upgrades, achievements, rebirths := 0, map[], map[], 0;
      lifetimeEarnings, lifetimeHarvests := 0, 0;
      flavorEnabled, farmName, moonEpoch := true, "", Quo(now, 86400);
    }

    // ---------- state.go ----------

    method Credit(amount: int64)
      modifies `coins, `runEarnings, `lifetimeEarnings
      ensures Clone() == Farms.Credit(old(Clone()), amount)
    {
      hide SatAdd;
      if amount <= 0 { return; }
      coins := SatAdd(coins, amount);
      runEarnings := SatAdd(runEarnings, amount);
      lifetimeEarnings := SatAdd(lifetimeEarnings, amount);
    }

    method NextRand(c: Config) returns (z: nat)
      modifies this`rng
      ensures rng == NextRng(old(rng)) && z == Draw(c, old(rng)) < TWO64
    {
      rng := (rng + GAMMA) % TWO64;
      z := c.mix(rng) % TWO64;
    }

    method Roll(c: Config, sides: nat) returns (r: int)
      requires sides > 0
      modifies this`rng
      ensures rng == NextRng(old(rng)) && r == Farms.Roll(c, old(rng), sides)
    {
      var z := NextRand(c);
      r := z % sides;
    }

    method RollRange(c: Config, lo: int, hi: int) returns (r: int)
      modifies this`rng
      ensures rng == RangeRng(old(rng), lo, hi) && r == Farms.RollRange(c, old(rng), lo, hi)
    {
      if hi <= lo { return lo; }
      var z := NextRand(c);
      r := lo + z % (hi - lo + 1);
    }

    // ---------- derive.go ----------

    method SeedCost(c: Config, crop: Crop) returns (cost: int64)
      ensures cost == Derive.SeedCost(c, Clone(), crop)
    {
      cost := crop.seedCost;
      if HasEvent(c, Clone()) && c.eventById[eventId].effect.SeedDiscount? {
        var discount := c.eventById[eventId].effectValue;
        if discount >= 100 { discount := 99; }
        cost := Quo(Wrap(cost * (100 - discount)), 100);
      }
      if cost < 0 { cost := 0; }
    }

    method EffectTotal(perks: seq<Perk>, levels: map<string, int>, effect: Effect) returns (sum: int64)
      ensures sum == EffectSum(perks, levels, effect, |perks|)
    {
      sum := 0;
      for i := 0 to |perks|
        invariant sum == EffectSum(perks, levels, effect, i)
      {
        if perks[i].effect == effect { sum := Wrap(sum + Wrap(perks[i].effectValue * Level(levels, perks[i].id))); }
      }
    }

    /** The sum the growth and the sale start from: upgrades, then multipliers, then the running event. */
    method BonusTotal(c: Config, effect: Effect) returns (sum: int64)
      ensures sum == Derive.Bonus(c, Clone(), effect)
    {
      hide Valid, EffectSum, Wrap;
      sum := EffectTotal(c.upgrades, upgrades, effect);
      var more := EffectTotal(c.multipliers, multipliers, effect);
      sum := Wrap(sum + more);
      var extra := 0;
      if HasEvent(c, Clone()) && c.eventById[eventId].effect == effect { extra := c.eventById[eventId].effectValue; }
      sum := Wrap(sum + extra);
    }

    method GrowSeconds(c: Config, crop: Crop) returns (g: int)
      ensures g == Derive.GrowSeconds(c, Clone(), crop)
    {
      hide Valid, Derive.Bonus;
      var reduction: int := BonusTotal(c, GrowSpeed);
      if reduction >= 100 { reduction := 99; }
      g := Quo(Wrap(crop.growSeconds * (100 - reduction)), 100);
      if g < 1 { g := 1; }
    }

    method SellMultiplied(c: Config, base: int64, cropId: string) returns (payout: int64)
      ensures payout == Derive.SellMultiplied(c, Clone(), base, cropId)
    {
      hide Valid, Derive.Bonus;
      var bonus := BonusTotal(c, SellBonus);
      if IsFullMoon(c, Clone(), cropId) { bonus := Wrap(bonus + c.moon.fullMoonSellBonusPct); }
      if bonus == 0 { return base; }
      var divisor := Divisor(bonus);
      if divisor == 0 || base > Div(MAX, divisor) { return MAX; }
      payout := Quo(Wrap(base * divisor), 100);
    }

    method CheapestUnlockedCrop(c: Config) returns (best: Option<Crop>)
      ensures best == CheapestUnlocked(c, Clone(), |c.crops|)
    {
      best := None;
      for i := 0 to |c.crops|
        invariant best == CheapestUnlocked(c, Clone(), i)
      {
        var crop := c.crops[i];
        if Unlocked(Clone(), crop.unlock) && (best.None? || crop.seedCost < best.value.seedCost) { best := Some(crop); }
      }
    }

    method NothingPlanted() returns (empty: bool)
      ensures empty == AllPlotsEmpty(Clone())
    {
      for i := 0 to |plots|
        invariant forall k :: 0 <= k < i ==> plots[k].crop == ""
      {
        if plots[i].crop != "" { return false; }
      }
      return true;
    }

    method MercyPlantEligible(c: Config, cropId: string) returns (mercy: bool)
      ensures mercy == Derive.MercyPlantEligible(c, Clone(), cropId)
    {
      hide Valid;
      var empty := NothingPlanted();
      if !empty { return false; }
      var cheapest := CheapestUnlockedCrop(c);
      if cheapest.None? || cropId != cheapest.value.id { return false; }
      var cost := SeedCost(c, cheapest.value);
      mercy := coins < cost;
    }

    method NextPlotCost(c: Config) returns (cost: int64)
      ensures cost == PlotPrice(c, Clone())
    {
      hide EffectSum, Compound, Indexed, Wrap;
      if c.start.plots + purchasedPlots >= c.land.maxPlots { return -1; }
      cost := CompoundLoop(c.land.basePlotCost, c.land.growthPct, if purchasedPlots > 0 then purchasedPlots else 0);
      var discount: int := EffectTotal(c.upgrades, upgrades, PlotDiscount);
      if discount >= 100 { discount := 99; }
      cost := Quo(Wrap(cost * (100 - discount)), 100);
      if cost < 1 { cost := 1; }
    }

    method PlotAutoHarvestCost(c: Config) returns (cost: int64)
      ensures cost == AutoHarvestPrice(c, Clone())
    {
      var n := 0;
      for i := 0 to |plots|
        invariant n == Count(plots, i)
      {
        if plots[i].autoHarvest { n := n + 1; }
      }
      // The source's floor at 1 never applies: a validated base cost only grows.
      cost := CompoundLoop(c.plotAutomation.autoHarvestBaseCost, c.plotAutomation.autoHarvestGrowthPct, n);
    }

    /** `UpgradeCost`, `MultiplierCost` and `SeedUpgradeCost` are this one computation. */
    method LevelCost(base: int64, growthPct: int64, maxLevel: int64, level: int) returns (cost: int64)
      requires base >= 1 && growthPct >= 100
      ensures cost == LevelPrice(base, growthPct, maxLevel, level)
    {
      if level >= maxLevel { return -1; }
      cost := CompoundLoop(base, growthPct, if level > 0 then level else 0);
    }

    method StartCoins(c: Config) returns (start: int64)
      ensures start == OpeningCoins(c, upgrades, |c.upgrades|)
    {
      hide Valid;
      start := c.start.coins;
      for i := 0 to |c.upgrades|
        invariant start == OpeningCoins(c, upgrades, i)
      {
        var u := c.upgrades[i];
        if u.effect == Effect.StartCoins { start := SatAdd(start, Wrap(u.effectValue * Level(upgrades, u.id))); }
      }
    }

    /** `guess` stands for the floating-point square root the loops correct. */
    method PrestigeGain(c: Config, guess: int64) returns (gain: int64)
      requires guess >= 0
      ensures gain == Derive.PrestigeGain(c, Clone())
    {
      gain := IsqrtFrom(Quo(runEarnings, c.prestige.divisor), guess);
    }

    // ---------- actions.go ----------

    method Plant(c: Config, i: int, cropId: string, now: int) returns (err: Option<Error>)
      modifies `coins, `plots
      ensures Follows(PlantStep(c, old(Clone()), i, cropId, now), old(Clone()), Clone(), err)
    {
      hide Derive.SeedCost, Derive.MercyPlantEligible, Unlocked, Wrap, Valid;
      if i < 0 || i >= |plots| { return Some(UnknownPlot); }
      if plots[i].crop != "" { return Some(PlotOccupied); }
      if cropId !in c.cropById { return Some(UnknownCrop); }
      var crop := c.cropById[cropId];
      if !Unlocked(Clone(), crop.unlock) { return Some(Locked); }
      var cost := SeedCost(c, crop);
      var mercy := MercyPlantEligible(c, cropId);
      if !mercy && coins < cost { return Some(CantAfford); }
      if !mercy { coins := Wrap(coins - cost); }
      plots := plots[i := Plot(cropId, now, plots[i].autoHarvest, plots[i].autoSow, "")];
      return None;
    }

    /** `harvestPayout`: roll one harvest, moving only the random stream. */
    method HarvestPayout(c: Config, crop: Crop) returns (y: Yield)
      modifies this`rng
      ensures y == HarvestYield(c, old(Clone()), crop) && rng == y.rng
    {
      hide Derive.SellMultiplied, Farms.Roll, Farms.RollRange, RangeRng, NextRng, Valid;
      var base, failed, golden, discovery := crop.sellValue, false, false, 0;
      if crop.archetype.Risky? {
        var r := Roll(c, 100);
        if r < crop.failChancePct {
          base := Quo(Wrap(crop.sellValue * SalvageNumerator(Level(seedUpgrades, crop.id))), 8);
          failed := true;
        }
      }
      var payout := SellMultiplied(c, base, crop.id);
      SameSale(c, old(Clone()), Clone(), base, crop.id);
      if c.golden.chancePct > 0 {
        var r := Roll(c, 100);
        if r < c.golden.chancePct {
          var mult := c.golden.multiplier;
          if mult < 10 { mult := 10; }
          payout := Quo(Wrap(payout * mult), 10);
          golden := true;
        }
      }
      if c.flavor.enabled && flavorEnabled && c.flavor.discoveryChancePct > 0 {
        var r := Roll(c, 100);
        if r < c.flavor.discoveryChancePct {
          discovery := RollRange(c, c.flavor.discoveryMin, c.flavor.discoveryMax);
        }
      }
      y := Yield(rng, payout, discovery, failed, golden);
    }

    /** Bank what a harvest yielded; the random stream has already moved. */
    method BankYield(y: Yield)
      requires rng == y.rng
      modifies `coins, `runEarnings, `lifetimeEarnings, `lifetimeHarvests
      ensures Clone() == Bank(old(Clone()), y)
    {
      Credit(y.payout);
      if y.discovery > 0 { Credit(y.discovery); }
      lifetimeHarvests := SatAdd(lifetimeHarvests, 1);
    }

    /** Nothing is left on the plot but its automation. */
    method EmptySlot(i: nat)
      requires i < |plots|
      modifies `plots
      ensures Clone() == old(Clone()).(plots := old(plots)[i := Plot("", 0, old(plots)[i].autoHarvest,
          old(plots)[i].autoSow, "")])
    {
      plots := plots[i := Plot("", 0, plots[i].autoHarvest, plots[i].autoSow, "")];
    }

    method Harvest(c: Config, i: int, now: int) returns (err: Option<Error>, y: Yield)
      modifies `rng, `coins, `plots, `runEarnings, `lifetimeEarnings, `lifetimeHarvests
      ensures Follows(HarvestStep(c, old(Clone()), i, now), old(Clone()), Clone(), err)
      ensures err.None? ==> HarvestStep(c, old(Clone()), i, now).receipt == Yielded(y)
    {
      hide HarvestYield, Bank, Derive.GrowSeconds, Valid;
      y := Yield(rng, 0, 0, false, false);
      if i < 0 || i >= |plots| { return Some(UnknownPlot), y; }
      var plot := plots[i];
      if plot.crop == "" { return Some(PlotEmpty), y; }
      if plot.crop !in c.cropById { return Some(UnknownCrop), y; }
      var crop := c.cropById[plot.crop];
      var grow := GrowSeconds(c, crop);
      if now < plot.plantedAt + grow { return Some(NotMature), y; }
      y := HarvestPayout(c, crop);
      BankAnyStream(old(Clone()), y);
      BankYield(y);
      EmptySlot(i);
      return None, y;
    }

    method PayForPlot(cost: int64)
      modifies `coins, `plots, `purchasedPlots
      ensures Clone() == old(Clone()).(coins := Wrap(old(coins) - cost), purchasedPlots := old(purchasedPlots) + 1,
                                       plots := old(plots) + [EMPTY_PLOT])
    {
      hide Wrap;
      coins := Wrap(coins - cost);
      purchasedPlots := purchasedPlots + 1;
      plots := plots + [EMPTY_PLOT];
    }

    method BuyPlot(c: Config) returns (err: Option<Error>, cost: int64)
      modifies `coins, `plots, `purchasedPlots
      ensures Follows(BuyPlotStep(c, old(Clone())), old(Clone()), Clone(), err)
      ensures err.None? ==> BuyPlotStep(c, old(Clone())).receipt == Cost(cost)
    {
      hide PlotPrice, Wrap, Valid;
      cost := NextPlotCost(c);
      if cost < 0 { return Some(Maxed), 0; }
      if coins < cost { return Some(CantAfford), 0; }
      PayForPlot(cost);
      return None, cost;
    }

    method AddEmptyPlots(n: nat)
      modifies this`plots
      ensures plots == old(plots) + EmptyPlots(n)
    {
      hide EmptyPlots;
      NoEmpties();
      for k := 0 to n
        invariant plots == old(plots) + EmptyPlots(k)
      {
        OneMoreEmpty(k);
        plots := plots + [EMPTY_PLOT];
      }
    }

    method BuyZone(c: Config, id: string) returns (err: Option<Error>)
      modifies `coins, `plots, `zones
      ensures Follows(BuyZoneStep(c, old(Clone()), id), old(Clone()), Clone(), err)
    {
      hide Unlocked, EmptyPlots, Wrap, Owns, Valid;
      if id !in c.zoneById { return Some(UnknownItem); }
      var zone := c.zoneById[id];
      if Owns(zones, id) { return Some(AlreadyOwned); }
      if !Unlocked(Clone(), zone.unlock) { return Some(Locked); }
      if coins < zone.cost { return Some(CantAfford); }
      ZoneIsValid(c, id);
      coins := Wrap(coins - zone.cost);
      zones := zones[id := true];
      AddEmptyPlots(zone.extraPlots);
      return None;
    }

    method BuyMultiplier(c: Config, id: string) returns (err: Option<Error>)
      modifies `coins, `multipliers
      ensures Follows(BuyMultiplierStep(c, old(Clone()), id), old(Clone()), Clone(), err)
    {
      hide LevelPrice, Unlocked, Wrap, Level, Valid;
      if id !in c.multiplierById { return Some(UnknownItem); }
      var m := c.multiplierById[id];
      MultiplierIsValid(c, id);
      var cost := LevelCost(m.cost, m.costGrowthPct, m.maxLevel, Level(multipliers, m.id));
      if cost < 0 { return Some(Maxed); }
      if coins < cost { return Some(CantAfford); }
      coins := Wrap(coins - cost);
      multipliers := multipliers[id := Level(multipliers, id) + 1];
      return None;
    }

    method BuySeedUpgrade(c: Config, id: string) returns (err: Option<Error>)
      modifies `coins, `seedUpgrades
      ensures Follows(BuySeedUpgradeStep(c, old(Clone()), id), old(Clone()), Clone(), err)
    {
      hide LevelPrice, Unlocked, Wrap, Level, Valid;
      if id !in c.seedUpgradeById { return Some(UnknownItem); }
      var su := c.seedUpgradeById[id];
      SeedUpgradeIsValid(c, id);
      if su.cropId !in c.cropById || !Unlocked(Clone(), c.cropById[su.cropId].unlock) { return Some(Locked); }
      var cost := LevelCost(su.cost, su.costGrowthPct, su.maxLevel, Level(seedUpgrades, su.cropId));
      if cost < 0 { return Some(Maxed); }
      if coins < cost { return Some(CantAfford); }
      coins := Wrap(coins - cost);
      seedUpgrades := seedUpgrades[su.cropId := Level(seedUpgrades, su.cropId) + 1];
      return None;
    }

    method UpgradePlotAuto(c: Config, i: int, kind: AutoKind) returns (err: Option<Error>)
      modifies `coins, `plots
      ensures Follows(UpgradePlotAutoStep(c, old(Clone()), i, kind), old(Clone()), Clone(), err)
    {
      hide AutoHarvestPrice, Wrap, Valid;
      if i < 0 || i >= |plots| { return Some(UnknownPlot); }
      match kind {
        case AutoHarvest =>
          if plots[i].autoHarvest { return Some(AlreadyOwned); }
          var cost := PlotAutoHarvestCost(c);
          if coins < cost { return Some(CantAfford); }
          coins := Wrap(coins - cost);
          plots := plots[i := plots[i].(autoHarvest := true)];
        case AutoSow =>
          if plots[i].autoSow { return Some(AlreadyOwned); }
          if !plots[i].autoHarvest { return Some(Locked); }
          if lifetimeEarnings < c.plotAutomation.autoSowMinEarnings { return Some(Locked); }
          var cost := c.plotAutomation.autoSowCost;
          if coins < cost { return Some(CantAfford); }
          coins := Wrap(coins - cost);
          plots := plots[i := plots[i].(autoSow := true)];
        case OtherKind => return Some(UnknownItem);
      }
      return None;
    }

    method BuyUpgrade(c: Config, id: string) returns (err: Option<Error>)
      modifies `prestige, `upgrades
      ensures Follows(BuyUpgradeStep(c, old(Clone()), id), old(Clone()), Clone(), err)
    {
      hide LevelPrice, Unlocked, Wrap, Level, Valid;
      if id !in c.upgradeById { return Some(UnknownItem); }
      var u := c.upgradeById[id];
      UpgradeIsValid(c, id);
      var cost := LevelCost(u.cost, u.costGrowthPct, u.maxLevel, Level(upgrades, u.id));
      if cost < 0 { return Some(Maxed); }
      if prestige < cost { return Some(CantAffordPP); }
      prestige := Wrap(prestige - cost);
      upgrades := upgrades[id := Level(upgrades, id) + 1];
      return None;
    }

    method GiftCoinReward(c: Config, guess: int64) returns (reward: int64)
      requires guess >= 0
      modifies this`rng
      ensures var g := old(Clone());
              reward == GiftCoins(c, g, g.rng)
                  && rng == RangeRng(g.rng, Quo(Wrap(-(GiftBase(c, g) as int)), 5), Quo(GiftBase(c, g), 5))
    {
      hide Isqrt, Farms.RollRange, RangeRng, Wrap, Quo;
      var root := IsqrtFrom(Quo(runEarnings, 10), guess);
      var base: int64 := Wrap(root + 10 + Wrap(rebirths * 50));
      if base < c.gifts.coinRewardFloor { base := c.gifts.coinRewardFloor; }
      if base > c.gifts.coinRewardCeiling { base := c.gifts.coinRewardCeiling; }
      var jitter := RollRange(c, Quo(Wrap(-(base as int)), 5), Quo(base, 5));
      reward := Wrap(base + jitter);
      if reward < c.gifts.coinRewardFloor { reward := c.gifts.coinRewardFloor; }
      if reward > c.gifts.coinRewardCeiling { reward := c.gifts.coinRewardCeiling; }
    }

    /** Take the parcel off the gate and roll what kind it is. */
    method Unwrap(c: Config) returns (starry: bool)
      modifies `rng, `giftPending, `giftArrivedAt
      ensures Clone() == Unwrapped(old(Clone())) && starry == HoldsStarseeds(c, old(Clone()))
    {
      hide Valid;
      hide Farms.Roll, NextRng;
      starry := false;
      if rebirths >= 1 {
        var r := Roll(c, 100);
        starry := r < c.gifts.starseedChancePct;
      }
      giftPending := false;
      giftArrivedAt := 0;
    }

    method AddStarseeds(amount: int64)
      modifies `prestige
      ensures Clone() == old(Clone()).(prestige := SatAdd(old(prestige), amount))
    {
      prestige := SatAdd(prestige, amount);
    }

    method RedeemGift(c: Config, guess: int64) returns (err: Option<Error>, giftCoins: int64, starseeds: int64)
      requires guess >= 0
      modifies `rng, `coins, `runEarnings, `lifetimeEarnings, `prestige, `giftPending, `giftArrivedAt
      ensures Follows(RedeemGiftStep(c, old(Clone())), old(Clone()), Clone(), err)
      ensures err.None? ==> RedeemGiftStep(c, old(Clone())).receipt == Parcel(giftCoins, starseeds)
    {
      hide Isqrt, Derive.PrestigeGain, GiftCoins, GiftBase, Farms.Credit, RangeRng, Farms.Roll, NextRng, HoldsStarseeds,
           SatAdd,
           Wrap, GiftSeeds, Valid;
      if !giftPending { return Some(NoGift), 0, 0; }
      ghost var f := Clone();
      var starry := Unwrap(c);
      GiftIgnoresStream(c, f, rng);
      if starry {
        giftCoins := 0;
        starseeds := StarseedReward(c, guess);
        AddStarseeds(starseeds);
      } else {
        giftCoins := GiftCoinReward(c, guess);
        starseeds := 0;
        assert Clone() == Unwrapped(f).(rng := GiftRng(c, f));
        Credit(giftCoins);
      }
      return None, giftCoins, starseeds;
    }

    method StarseedReward(c: Config, guess: int64) returns (seeds: int64)
      requires guess >= 0
      ensures seeds == GiftSeeds(c, Clone())
    {
      hide Valid;
      var root := PrestigeGain(c, guess);
      seeds := Wrap(root + 1 + rebirths);
    }

    method ShooCritter(c: Config, i: int) returns (err: Option<Error>, reward: int64)
      modifies `rng, `coins, `plots, `runEarnings, `lifetimeEarnings
      ensures Follows(ShooCritterStep(c, old(Clone()), i), old(Clone()), Clone(), err)
      ensures err.None? ==> ShooCritterStep(c, old(Clone()), i).receipt == Reward(reward)
    {
      hide Farms.Credit, Farms.RollRange, RangeRng, Valid;
      if i < 0 || i >= |plots| { return Some(UnknownPlot), 0; }
      if plots[i].critter == "" { return Some(NoCritter), 0; }
      plots := plots[i := plots[i].(critter := "")];
      reward := RollRange(c, c.critters.shooRewardMin, c.critters.shooRewardMax);
      Credit(reward);
      return None, reward;
    }

    method SetFarmName(name: string) returns (err: Option<Error>)
      modifies this`farmName
      ensures Follows(SetFarmNameStep(old(Clone()), name), old(Clone()), Clone(), err)
    {
      hide Trim;
      var trimmed := Trim(name);
      if trimmed == "" { return Some(NameEmpty); }
      if |trimmed| > 24 { return Some(NameTooLong); }
      farmName := trimmed;
      return None;
    }

    /** Clear the land for the next run. */
    method ResetLand(c: Config)
      modifies `plots, `purchasedPlots
      ensures Clone() == old(Clone()).(plots := EmptyPlots(c.start.plots), purchasedPlots := 0)
    {
      hide EmptyPlots;
      plots := EmptyPlots(c.start.plots);
      purchasedPlots := 0;
    }

    /** Forget the run's purchases. */
    method ResetPurchases()
      modifies `tools, `zones
      ensures Clone() == old(Clone()).(tools := map[], zones := map[])
    {
      zones := map[];
      tools := map[];
    }

    method ResetMarket()
      modifies `multipliers, `seedUpgrades
      ensures Clone() == old(Clone()).(multipliers := map[], seedUpgrades := map[])
    {
      multipliers := map[];
      seedUpgrades := map[];
    }

    method ResetClock(now: int)
      modifies `eventId, `eventEndsAt, `updatedAt
      ensures Clone() == old(Clone()).(eventId := "", eventEndsAt := 0, updatedAt := now)
    {
      eventId := "";
      eventEndsAt := 0;
      updatedAt := now;
    }

    /** Count the rebirth and its Starseeds. */
    method CountRebirth(gain: int64)
      modifies `prestige, `rebirths
      ensures Clone() == old(Clone()).(prestige := SatAdd(old(prestige), gain), rebirths := old(rebirths) + 1)
    {
      hide SatAdd;
      prestige := SatAdd(prestige, gain);
      rebirths := rebirths + 1;
    }

    /** Open the new run's wallet. */
    method OpenWallet(c: Config)
      modifies `coins, `runEarnings
      ensures Clone() == old(Clone()).(coins := OpeningCoins(c, old(upgrades), |c.upgrades|), runEarnings := 0)
    {
      hide OpeningCoins, Valid;
      coins := StartCoins(c);
      runEarnings := 0;
    }

    method StartRun(c: Config, gain: int64, now: int)
      modifies this
      ensures Clone() == Reborn(c, old(Clone()), gain, now)
    {
      hide OpeningCoins, EmptyPlots, SatAdd, Valid;
      CountRebirth(gain);
      OpenWallet(c);
      ResetLand(c);
      ResetPurchases();
      ResetMarket();
      ResetClock(now);
    }

    method Rebirth(c: Config, now: int, guess: int64) returns (err: Option<Error>, gain: int64)
      requires guess >= 0
      modifies this
      ensures Follows(RebirthStep(c, old(Clone()), now), old(Clone()), Clone(), err)
      ensures err.None? ==> RebirthStep(c, old(Clone()), now).receipt == Gain(gain)
    {
      hide Derive.PrestigeGain, Reborn, Valid;
      gain := PrestigeGain(c, guess);
      if !(runEarnings >= c.prestige.minEarnings && gain >= 1) { return Some(RebirthTooSoon), 0; }
      StartRun(c, gain, now);
      return None, gain;
    }

    method SetFlavor(enabled: bool)
      modifies this`flavorEnabled
      ensures Clone() == old(Clone()).(flavorEnabled := enabled)
    {
      flavorEnabled := enabled;
    }

    // ---------- advance.go ----------

    /** Expire a finished event. */
    method ExpireEvent(report: Report, to: int) returns (r: Report)
      modifies `eventId, `eventEndsAt
      ensures Tick(Clone(), r) == Advancing.ExpireEvent(Tick(old(Clone()), report), to)
    {
      r := report;
      if eventId != "" && to >= eventEndsAt {
        r := r.(eventEnded := eventId);
        eventId := "";
        eventEndsAt := 0;
      }
    }

    method RollOnlineEvent(c: Config, report: Report, elapsed: int, to: int) returns (r: Report)
      requires elapsed >= 0
      modifies `rng, `eventId, `eventEndsAt
      ensures Tick(Clone(), r) == Advancing.RollOnlineEvent(c, Tick(old(Clone()), report), elapsed, to)
    {
      hide Valid, Farms.Roll, Farms.RollRange, RangeRng, NextRng, Advancing.StartEvent;
      r := report;
      if |c.events| == 0 { return; }
      if EventActive(Clone(), to) { return; }
      var lo, hi := EventBounds(c);
      var interval := lo;
      if hi - lo > 0 {
        var extra := RollRange(c, 0, hi - lo);
        interval := interval + extra;
      } else {
        NoRange(c, rng, hi - lo);
      }
      var chance := Quo(Wrap(elapsed * 10000), interval);
      if chance < 1 { chance := 1; }
      var roll := Roll(c, 10000);
      if roll >= chance { return; }
      r := StartEvent(c, report, to);
    }

    method EventBounds(c: Config) returns (lo: int, hi: int)
      ensures (lo, hi) == EventIntervals(c, Clone())
    {
      lo, hi := c.eventsConfig.minIntervalSec, c.eventsConfig.maxIntervalSec;
      var bonus := EffectTotal(c.upgrades, upgrades, EventRate);
      if bonus > 0 {
        lo := Div(Wrap(lo * 100), Divisor(bonus));
        hi := Div(Wrap(hi * 100), Divisor(bonus));
      }
      if lo < 1 { lo := 1; }
      if hi < lo { hi := lo; }
    }

    /** The shortest duration in force and how much a roll may add. */
    method Durations(c: Config) returns (shortest: int64, span: int64)
      ensures (shortest, span) == Advancing.Durations(c, Clone())
    {
      hide Valid, EffectSum, Wrap;
      shortest, span := c.eventsConfig.minDurationSec, 0;
      var longest := c.eventsConfig.maxDurationSec;
      var bonus := EffectTotal(c.upgrades, upgrades, EventDuration);
      bonus := Wrap(bonus + Wrap(Level(upgrades, "stargazer") * 10));
      if bonus > 0 {
        shortest := Quo(Wrap(shortest * Divisor(bonus)), 100);
        longest := Quo(Wrap(longest * Divisor(bonus)), 100);
      }
      if longest > shortest { span := Wrap(longest - shortest); }
    }

    method Announce(id: string, endsAt: int)
      modifies `eventId, `eventEndsAt
      ensures Clone() == old(Clone()).(eventId := id, eventEndsAt := endsAt)
    {
      eventId := id;
      eventEndsAt := endsAt;
    }

    method StartEvent(c: Config, report: Report, to: int) returns (r: Report)
      requires |c.events| > 0
      modifies `rng, `eventId, `eventEndsAt
      ensures Tick(Clone(), r) == Advancing.StartEvent(c, Tick(old(Clone()), report), to)
    {
      hide Valid, Farms.Roll, NextRng, Farms.RollRange, RangeRng, Advancing.Durations, Wrap;
      var k := RollRange(c, 0, |c.events| - 1);
      DurationsIgnoreStream(c, old(Clone()), Clone());
      var shortest, span := Durations(c);
      var duration := shortest;
      if span > 0 {
        var extra := RollRange(c, 0, span);
        duration := Wrap(shortest + extra);
      } else {
        NoRange(c, rng, span);
        FitsAlready(shortest);
      }
      Announce(c.events[k].id, Wrap(to + duration));
      r := report.(eventStarted := c.events[k].id);
    }

    method LeaveGift(now: int)
      modifies `giftPending, `giftArrivedAt
      ensures Clone() == old(Clone()).(giftPending := true, giftArrivedAt := now)
    {
      giftPending := true;
      giftArrivedAt := now;
    }

    method RollGiftArrival(c: Config, report: Report, elapsed: int, online: bool, to: int) returns (r: Report)
      requires elapsed >= 0
      modifies `rng, `giftPending, `giftArrivedAt
      ensures Tick(Clone(), r) == Advancing.RollGiftArrival(c, Tick(old(Clone()), report), elapsed, online, to)
    {
      hide Valid, Farms.Roll, NextRng, EffectSum, Shortened;
      r := report;
      if giftPending { return; }
      var interval := c.gifts.offlineIntervalSec;
      if online {
        var bonus := EffectTotal(c.upgrades, upgrades, GiftRate);
        interval := Shortened(c.gifts.onlineIntervalSec, bonus);
      }
      if interval < 1 { return; }
      var chance := Quo(Wrap(elapsed * 10000), interval);
      if chance > 10000 { chance := 10000; }
      if chance > 0 {
        var roll := Roll(c, 10000);
        if roll < chance {
          LeaveGift(to);
          r := r.(giftArrived := true);
        }
      }
    }

    method MaybeCritterVisit(c: Config, report: Report, i: nat) returns (r: Report)
      requires i < |plots|
      modifies `rng, `plots
      ensures Tick(Clone(), r) == Advancing.MaybeCritterVisit(c, Tick(old(Clone()), report), i)
    {
      hide Valid, Farms.Roll, NextRng, Farms.RollRange, RangeRng;
      r := report;
      if plots[i].critter != "" || |c.critters.kinds| == 0 || c.critters.visitChancePct <= 0 {
        assert plots[i := plots[i].(critter := plots[i].critter)] == plots;
        return;
      }
      var roll := Roll(c, 100);
      if roll >= c.critters.visitChancePct {
        assert plots[i := plots[i].(critter := plots[i].critter)] == plots;
        return;
      }
      var k := RollRange(c, 0, |c.critters.kinds| - 1);
      plots := plots[i := plots[i].(critter := c.critters.kinds[k])];
      r := r.(critterVisits := r.critterVisits + [c.critters.kinds[k]]);
    }

    /** Roll one harvest and bank it. */
    method Gather(c: Config, crop: Crop) returns (y: Yield)
      modifies `rng, `coins, `runEarnings, `lifetimeEarnings, `lifetimeHarvests
      ensures y == HarvestYield(c, old(Clone()), crop) && Clone() == Bank(old(Clone()), y)
    {
      hide Valid, HarvestYield, Bank;
      y := HarvestPayout(c, crop);
      BankAnyStream(old(Clone()), y);
      BankYield(y);
    }

    /** The report's entries for one harvest. */
    method Note(report: Report, crop: Crop, y: Yield) returns (r: Report)
      ensures r == Noted(report, crop, y)
    {
      hide Bump, Clone, SatAdd, Wrap;
      r := report.(autoCoins := SatAdd(report.autoCoins, y.payout));
      if y.failed { r := r.(failedHarvests := Bump(r.failedHarvests, crop.id, 1)); }
      if y.golden { r := r.(goldenHarvests := r.goldenHarvests + 1); }
      if y.discovery > 0 {
        r := r.(discoveries := r.discoveries + 1, discoveryCoins := Wrap(r.discoveryCoins + y.discovery));
      }
      r := r.(autoHarvested := Bump(r.autoHarvested, crop.id, 1));
    }

    /** One automatic harvest and its entries in the report. */
    method Reap(c: Config, report: Report, crop: Crop) returns (r: Report)
      modifies `rng, `coins, `runEarnings, `lifetimeEarnings, `lifetimeHarvests
      ensures Tick(Clone(), r) == Advancing.Reap(c, Tick(old(Clone()), report), crop)
    {
      hide Valid, HarvestYield, Bank, Clone, Noted;
      var y := Gather(c, crop);
      r := Note(report, crop, y);
    }

    method Replant(c: Config, report: Report, i: nat, crop: Crop, matureAt: int) returns (r: Report)
      requires i < |plots|
      modifies `coins, `plots
      ensures Tick(Clone(), r) == Advancing.Replant(c, Tick(old(Clone()), report), i, crop, matureAt)
    {
      hide Valid, Derive.SeedCost;
      var seed := SeedCost(c, crop);
      coins := Wrap(coins - seed);
      plots := plots[i := plots[i].(plantedAt := matureAt)];
      r := report.(autoCoins := Wrap(report.autoCoins - seed), seedCoins := report.seedCoins + seed);
    }

    method ExpectedPayout(c: Config, crop: Crop) returns (payout: int64)
      ensures payout == Derive.ExpectedPayout(c, Clone(), crop)
    {
      hide Valid, Derive.SellMultiplied;
      var base: int64 := crop.sellValue;
      if crop.archetype.Risky? {
        var salvage: int64 := Quo(Wrap(crop.sellValue * SalvageNumerator(Level(seedUpgrades, crop.id))), 8);
        base := Quo(Wrap(crop.failChancePct * salvage + (100 - crop.failChancePct) * crop.sellValue), 100);
      }
      payout := SellMultiplied(c, base, crop.id);
    }

    /** The batch conditions, in the order the source asks them. */
    method BatchApplies(c: Config, i: nat, crop: Crop) returns (yes: bool)
      requires i < |plots|
      ensures yes == CanBatch(c, Clone(), i, crop)
    {
      hide Valid, Derive.SeedCost, Derive.ExpectedPayout;
      if !plots[i].autoSow { return false; }
      var seed := SeedCost(c, crop);
      if coins < seed { return false; }
      var gross := ExpectedPayout(c, crop);
      yes := gross > seed;
    }

    /** Pay for the batch's seeds, count its harvests and move the cursor. */
    method CloseBatch(i: nat, seeds: int, n: int, cursor: int)
      requires i < |plots|
      modifies `coins, `plots, `lifetimeHarvests
      ensures Clone() == old(Clone()).(coins := Wrap(old(coins) - seeds),
          lifetimeHarvests := SatAdd(old(lifetimeHarvests), n),
                                       plots := old(plots)[i := old(plots)[i].(plantedAt := cursor)])
    {
      hide Wrap, SatAdd;
      coins := Wrap(coins - seeds);
      lifetimeHarvests := SatAdd(lifetimeHarvests, n);
      plots := plots[i := plots[i].(plantedAt := cursor)];
    }

    method Batch(c: Config, report: Report, i: nat, crop: Crop, grow: int, matureAt: int, to: int) returns (r: Report)
      requires i < |plots| && grow >= 1 && matureAt <= to && CanBatch(c, Clone(), i, crop)
      modifies `coins, `plots, `runEarnings, `lifetimeEarnings, `lifetimeHarvests
      ensures Tick(Clone(), r) == Advancing.Batch(c, Tick(old(Clone()), report), i, crop, grow, matureAt, to)
    {
      hide Valid, Derive.SeedCost, Derive.ExpectedPayout, Farms.Credit, SatAdd, Bump, Wrap, SatMul;
      var payout := ExpectedPayout(c, crop);
      var seedCost := SeedCost(c, crop);
      QuotientBound(to - matureAt, grow);
      var remaining := (to - matureAt) / grow;
      var n := remaining + 1;
      var gross, seeds := SatMul(payout, n), SatMul(seedCost, n);
      Credit(gross);
      if seeds > coins { seeds := coins; }
      CloseBatch(i, seeds, Min(n, MAX), matureAt + remaining * grow);
      r := report.(autoCoins := SatAdd(report.autoCoins, Wrap(gross - seeds)), seedCoins := report.seedCoins + seeds,
                   autoHarvested := Bump(report.autoHarvested, crop.id, n));
    }

    method ClearPlot(i: nat)
      requires i < |plots|
      modifies `plots
      ensures Clone() == old(Clone()).(plots := old(plots)[i := old(plots)[i].(crop := "", plantedAt := 0)])
    {
      plots := plots[i := plots[i].(crop := "", plantedAt := 0)];
    }

    /** The harvest/replant loop of auto-harvest plot `i`. The cursor lives in `plantedAt`, so a later call settles
        whatever the cap left over. */
    method SettlePlot(c: Config, report: Report, i: nat, crop: Crop, grow: int, first: int, to: int) returns (r: Report)
      requires i < |plots| && grow >= 1
      modifies `rng, `coins, `plots, `runEarnings, `lifetimeEarnings, `lifetimeHarvests
      ensures Tick(Clone(), r) == Settle(c, Tick(old(Clone()), report), i, crop, grow, first, 0, 0, to).tick
    {
      hide Valid, Advancing.Reap, Advancing.Replant, Advancing.Batch, Advancing.ClearPlot, Clone, CanReplant, CanBatch,
           Due;
      r := report;
      Board();
      ghost var goal := Settle(c, Tick(Clone(), report), i, crop, grow, first, 0, 0, to).tick;
      var matureAt, cycles := first, 0;
      ghost var batches := 0;
      while matureAt <= to
        invariant i < |plots| && Clone().plots == plots
        invariant Settle(c, Tick(Clone(), r), i, crop, grow, matureAt, cycles, batches, to).tick == goal
        decreases if matureAt <= to then to - matureAt + 1 else 0
      {
        if cycles >= AUTO_CYCLE_CAP {
          var batch := BatchApplies(c, i, crop);
          if !batch { return; }
          DueReaches(matureAt, grow, to);
          r := Batch(c, r, i, crop, grow, matureAt, to);
          Board();
          matureAt := plots[i].plantedAt + grow;
          batches := batches + 1;
        } else {
          r := Reap(c, r, crop);
          Board();
          var seed := SeedCost(c, crop);
          ReplantTest(c, Clone(), i, crop);
          Balance();
          if plots[i].autoSow && coins >= seed && Unlocked(Clone(), crop.unlock) {
            r := Replant(c, r, i, crop, matureAt);
            Board();
            matureAt := matureAt + grow;
            cycles := cycles + 1;
          } else {
            ghost var before := Tick(Clone(), r);
            ClearPlot(i);
            Cleared(before, Tick(Clone(), r), i);
            return;
          }
        }
      }
    }

    method TendPlot(c: Config, report: Report, i: nat, from: int, to: int, online: bool) returns (r: Report)
      requires i < |plots|
      modifies `rng, `coins, `plots, `runEarnings, `lifetimeEarnings, `lifetimeHarvests
      ensures Tick(Clone(), r) == Advancing.TendPlot(c, Tick(old(Clone()), report), i, from, to, online)
    {
      hide Valid, Advancing.MaybeCritterVisit, Clone, Bump, Derive.GrowSeconds;
      Board();
      r := report;
      if plots[i].crop == "" {
        if online { r := MaybeCritterVisit(c, report, i); }
      } else if plots[i].crop in c.cropById {
        var crop := c.cropById[plots[i].crop];
        var grow := GrowSeconds(c, crop);
        var matureAt := plots[i].plantedAt + grow;
        if plots[i].autoHarvest {
          r := SettlePlot(c, report, i, crop, grow, matureAt, to);
        } else if matureAt > from && matureAt <= to {
          r := r.(matured := Bump(r.matured, crop.id, 1));
        }
      }
    }

    /** Record every achievement newly met, in content order, and return the new ids. */
    method CheckAchievements(c: Config, now: int) returns (newly: seq<string>)
      modifies `achievements
      ensures Clone() == Advancing.CheckAchievements(c, old(Clone()), now)
      ensures newly == Awarded(c, old(Clone()), now, |c.achievements|)
    {
      hide Valid;
      newly := [];
      for k := 0 to |c.achievements|
        invariant Clone() == Award(c, old(Clone()), now, k) && newly == Awarded(c, old(Clone()), now, k)
      {
        var a := c.achievements[k];
        if a.id !in achievements && Met(Clone(), a.condition) {
          achievements := achievements[a.id := now];
          newly := newly + [a.id];
        }
      }
    }

    /** Event expiry and the two arrival rolls. */
    method OpenTick(c: Config, to: int) returns (r: Report)
      requires to > updatedAt
      modifies `rng, `eventId, `eventEndsAt, `giftPending, `giftArrivedAt
      ensures Tick(Clone(), r) == Prelude(c, old(Clone()), to)
    {
      hide Valid, Advancing.ExpireEvent, Advancing.RollOnlineEvent, Advancing.RollGiftArrival;
      var elapsed := to - updatedAt;
      r := ExpireEvent(QUIET.(elapsed := elapsed), to);
      if Online(elapsed) { r := RollOnlineEvent(c, r, elapsed, to); }
      r := RollGiftArrival(c, r, elapsed, Online(elapsed), to);
    }

    /** Every plot in turn. */
    method TendAll(c: Config, report: Report, from: int, to: int, online: bool) returns (r: Report)
      modifies `rng, `coins, `plots, `runEarnings, `lifetimeEarnings, `lifetimeHarvests
      ensures Tick(Clone(), r) == TendPlots(c, Tick(old(Clone()), report), 0, from, to, online)
    {
      hide Valid, Advancing.TendPlot, Clone;
      Board();
      r := report;
      ghost var goal := TendPlots(c, Tick(Clone(), r), 0, from, to, online);
      for i := 0 to |plots|
        invariant |plots| == old(|plots|) && Clone().plots == plots && i <= |plots|
        invariant TendPlots(c, Tick(Clone(), r), i, from, to, online) == goal
      {
        r := TendPlot(c, r, i, from, to, online);
        Board();
      }
    }

    /** Simulate up to `to`. */
    method Advance(c: Config, to: int) returns (r: Report)
      modifies this
      ensures Tick(Clone(), r) == Advancing.Advance(c, old(Clone()), to)
    {
      hide Valid, TendPlots, Prelude, Award, Awarded;
      if to <= updatedAt { return QUIET; }
      var from := updatedAt;
      r := OpenTick(c, to);
      r := TendAll(c, r, from, to, Online(to - from));
      updatedAt := to;
      var newly := CheckAchievements(c, to);
      r := r.(achievements := newly);
    }

    /** What the hidden snapshot says of single fields. */
    lemma Board()
      ensures Clone().plots == plots
    {
    }

    lemma Balance()
      ensures Clone().coins == coins
    {
    }
  }

  lemma ReplantTest(c: Config, f: Farm, i: nat, crop: Crop)
    requires i < |f.plots|
    ensures CanReplant(c, f, i, crop)
        == (f.plots[i].autoSow && f.coins >= Derive.SeedCost(c, f, crop) && Unlocked(f, crop.unlock))
  {
  }

  lemma Cleared(t: Tick, r: Tick, i: nat)
    requires i < |t.farm.plots| && r.report == t.report
    requires r.farm == t.farm.(plots := t.farm.plots[i := t.farm.plots[i].(crop := "", plantedAt := 0)])
    ensures r == Advancing.ClearPlot(t, i)
  {
  }

  lemma DurationsIgnoreStream(c: Config, f: Farm, g: Farm)
    requires g == f.(rng := g.rng)
    ensures Advancing.Durations(c, g) == Advancing.Durations(c, f)
  {
    hide Valid, EffectSum, Wrap;
  }

  lemma FitsAlready(x: int64)
    ensures Wrap(x + 0) == x
  {
  }

  /** An empty range needs no draw. */
  lemma NoRange(c: Config, rng: nat, hi: int)
    requires hi <= 0
    ensures RangeRng(rng, 0, hi) == rng && Farms.RollRange(c, rng, 0, hi) == 0
  {
  }

  lemma SameSale(c: Config, f: Farm, g: Farm, base: int64, cropId: string)
    requires g == f.(rng := g.rng)
    ensures Derive.SellMultiplied(c, g, base, cropId) == Derive.SellMultiplied(c, f, base, cropId)
  {
    hide Valid, Boost, EffectSum, Wrap;
  }

  lemma BankAnyStream(f: Farm, y: Yield)
    ensures Bank(f.(rng := y.rng), y) == Bank(f, y)
  {
  }

  lemma NoEmpties()
    ensures EmptyPlots(0) == []
  {
  }

  lemma OneMoreEmpty(k: nat)
    ensures EmptyPlots(k + 1) == EmptyPlots(k) + [EMPTY_PLOT]
  {
  }

  /** The coin reward depends on the run and the rebirths, not on the parcel or the stream. */
  lemma GiftIgnoresStream(c: Config, f: Farm, rng: nat)
    ensures GiftBase(c, Unwrapped(f)) == GiftBase(c, f) && GiftCoins(c, Unwrapped(f), rng) == GiftCoins(c, f, rng)
    ensures GiftSeeds(c, Unwrapped(f)) == GiftSeeds(c, f)
  {
    hide Valid, Isqrt, Clamp, RollRange, Quo, Wrap;
  }

  lemma ZoneIsValid(c: Config, id: string)
    requires id in c.zoneById
    ensures c.zoneById[id].cost >= 0 && c.zoneById[id].extraPlots >= 1
  {
    assert c.zoneById[id] in c.zones;
  }

  lemma MultiplierIsValid(c: Config, id: string)
    requires id in c.multiplierById
    ensures ValidPerk(c.multiplierById[id]) && c.multiplierById[id].id == id
  {
    assert c.multiplierById[id] in c.multipliers;
  }

  lemma UpgradeIsValid(c: Config, id: string)
    requires id in c.upgradeById
    ensures ValidPerk(c.upgradeById[id]) && c.upgradeById[id].id == id
  {
    assert c.upgradeById[id] in c.upgrades;
  }

  lemma SeedUpgradeIsValid(c: Config, id: string)
    requires id in c.seedUpgradeById
    ensures c.seedUpgradeById[id].cost >= 1 && c.seedUpgradeById[id].costGrowthPct >= 100
  {
    assert c.seedUpgradeById[id] in c.seedUpgrades;
  }
}
