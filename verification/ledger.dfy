// Where every coin and every Starseed of a history went.
module Ledger {
  import opened Int64
  import opened Content
  import opened Farms
  import opened Derive
  import opened Actions
  import opened Advancing
  import opened Invariant

  // ---------- one stretch of play within a run ----------

  /** Between `f` and `g`, `seeds` coins were paid out; unless a counter hit the ceiling, the wallet moved by
      exactly what was earned minus what was paid, and both earnings counters moved together. */
  ghost predicate Flow(f: Farm, g: Farm, paid: int) {
    && paid >= 0 && g.runEarnings >= f.runEarnings && g.lifetimeEarnings >= f.lifetimeEarnings
    && (g.runEarnings < MAX && f.coins + (g.runEarnings - f.runEarnings) <= MAX ==>
          g.coins == f.coins + (g.runEarnings - f.runEarnings) - paid)
    && (g.lifetimeEarnings < MAX ==> g.lifetimeEarnings - f.lifetimeEarnings == g.runEarnings - f.runEarnings)
  }

  lemma FlowTrans(f: Farm, g: Farm, h: Farm, paid: int, more: int)
    requires Flow(f, g, paid) && Flow(g, h, more)
    ensures Flow(f, h, paid + more)
  {
  }

  lemma CreditFlows(f: Farm, amount: int64)
    requires MoneyOk(f)
    ensures Flow(f, Credit(f, amount), 0) && MoneyOk(Credit(f, amount))
  {
    CreditClips(f, amount);
  }

  ghost predicate SameMoney(f: Farm, g: Farm) {
    g.coins == f.coins && g.runEarnings == f.runEarnings && g.lifetimeEarnings == f.lifetimeEarnings
  }

  lemma FlowSameMoney(f: Farm, f1: Farm, g: Farm, g1: Farm, paid: int)
    requires Flow(f, g, paid) && SameMoney(f, f1) && SameMoney(g, g1)
    ensures Flow(f1, g1, paid)
  {
  }

  lemma MoneyIgnoresStream(f: Farm, rng: nat)
    requires MoneyOk(f)
    ensures MoneyOk(f.(rng := rng))
  {
  }

  lemma BankFlows(f: Farm, y: Yield)
    requires MoneyOk(f)
    ensures Flow(f, Bank(f, y), 0)
  {
    hide Credit, Flow, SatAdd, MoneyOk;
    var f0 := f.(rng := y.rng);
    assert MoneyOk(f0) by { MoneyIgnoresStream(f, y.rng); }
    var f1 := Credit(f0, y.payout);
    CreditFlows(f0, y.payout);
    CreditFlows(f1, y.discovery);
    FlowSelf(f1);
    var f2 := if y.discovery > 0 then Credit(f1, y.discovery) else f1;
    assert Flow(f0, f1, 0) && Flow(f1, f2, 0);
    FlowTrans(f0, f1, f2, 0, 0);
    var g := Bank(f, y);
    assert SameMoney(f0, f) && SameMoney(f2, g);
    FlowSameMoney(f0, f, f2, g, 0);
  }

  // ---------- actions ----------

  /** The coins an action asks for, as quoted before it is taken. */
  function CoinPrice(c: Config, f: Farm, a: Action): int {
    match a
    case Plant(i, cropId) =>
      if cropId in c.cropById && !MercyPlantEligible(c, f, cropId) then SeedCost(c, f, c.cropById[cropId]) else 0
    case BuyPlot => PlotPrice(c, f)
    case BuyZone(id) => if id in c.zoneById then c.zoneById[id].cost else 0
    case BuyMultiplier(id) =>
      if id in c.multiplierById then
        var m := c.multiplierById[id];
        LevelPrice(m.cost, m.costGrowthPct, m.maxLevel, Level(f.multipliers, id))
      else 0
    case BuySeedUpgrade(id) =>
      if id in c.seedUpgradeById then
        var su := c.seedUpgradeById[id];
        LevelPrice(su.cost, su.costGrowthPct, su.maxLevel, Level(f.seedUpgrades, su.cropId))
      else 0
    case UpgradePlotAuto(i, kind) => if kind.AutoHarvest? then AutoHarvestPrice(c, f) else c.plotAutomation.autoSowCost
    case _ => 0
  }

  /** `g` is `f` less `cost` coins, earnings untouched. */
  ghost predicate Spends(f: Farm, g: Farm, cost: int) {
    0 <= cost && g.coins == f.coins - cost && g.runEarnings == f.runEarnings && g.lifetimeEarnings == f.lifetimeEarnings
  }

  lemma FarmPurchaseSpends(c: Config, f: Farm, a: Action, now: int)
    requires MoneyOk(f) && Act(c, f, a, now).Done? && (a.Plant? || a.BuyPlot? || a.BuyZone?)
    ensures Spends(f, Act(c, f, a, now).farm, CoinPrice(c, f, a))
  {
    hide SeedCost, Unlocked, MercyPlantEligible, PlotPrice, LevelPrice, AutoHarvestPrice, Level, HarvestStep,
         RebirthStep,
         RedeemGiftStep, ShooCritterStep, BuyUpgradeStep, SetFarmNameStep, EmptyPlots, BuyMultiplierStep,
         BuySeedUpgradeStep,
         UpgradePlotAutoStep;
    if a.BuyZone? { assert c.zoneById[a.id] in c.zones; }
  }

  lemma AutoPurchaseSpends(c: Config, f: Farm, i: int, kind: AutoKind)
    requires MoneyOk(f) && UpgradePlotAutoStep(c, f, i, kind).Done?
    ensures Spends(f, UpgradePlotAutoStep(c, f, i, kind).farm, CoinPrice(c, f, UpgradePlotAuto(i, kind)))
  {
    hide AutoHarvestPrice;
  }

  lemma MarketPurchaseSpends(c: Config, f: Farm, a: Action, now: int)
    requires MoneyOk(f) && Act(c, f, a, now).Done? && (a.BuyMultiplier? || a.BuySeedUpgrade?)
    ensures Spends(f, Act(c, f, a, now).farm, CoinPrice(c, f, a))
  {
    hide SeedCost, Unlocked, MercyPlantEligible, PlotPrice, LevelPrice, AutoHarvestPrice, Level, HarvestStep,
         RebirthStep,
         RedeemGiftStep, ShooCritterStep, BuyUpgradeStep, SetFarmNameStep, EmptyPlots, PlantStep, BuyPlotStep,
         BuyZoneStep,
         UpgradePlotAutoStep;
  }

  lemma HarvestFlows(c: Config, f: Farm, i: int, now: int)
    requires MoneyOk(f) && HarvestStep(c, f, i, now).Done?
    ensures Flow(f, HarvestStep(c, f, i, now).farm, 0)
  {
    hide HarvestYield, Bank, Ready;
    BankFlows(f, HarvestYield(c, f, c.cropById[f.plots[i].crop]));
  }

  lemma RedeemGiftFlows(c: Config, f: Farm)
    requires MoneyOk(f) && RedeemGiftStep(c, f).Done?
    ensures Flow(f, RedeemGiftStep(c, f).farm, 0)
  {
    hide Credit, GiftCoins, GiftRng, GiftSeeds, HoldsStarseeds, SatAdd;
    CreditFlows(Unwrapped(f).(rng := GiftRng(c, f)), GiftCoins(c, f, Unwrapped(f).rng));
  }

  lemma ShooCritterFlows(c: Config, f: Farm, i: int)
    requires MoneyOk(f) && ShooCritterStep(c, f, i).Done?
    ensures Flow(f, ShooCritterStep(c, f, i).farm, 0)
  {
    hide Credit, RollRange, RangeRng;
    var g := f.(plots := f.plots[i := f.plots[i].(critter := "")],
                rng := RangeRng(f.rng, c.critters.shooRewardMin, c.critters.shooRewardMax));
    CreditFlows(g, RollRange(c, f.rng, c.critters.shooRewardMin, c.critters.shooRewardMax));
  }

  /** Every action but a rebirth moves the wallet by its quoted price and what it credits. */
  lemma ActFlows(c: Config, f: Farm, a: Action, now: int)
    requires Sound(c, f) && Act(c, f, a, now).Done? && !a.Rebirth?
    ensures Flow(f, Act(c, f, a, now).farm, CoinPrice(c, f, a))
  {
    hide Sound, HarvestStep, RedeemGiftStep, ShooCritterStep, PlantStep, BuyPlotStep, BuyZoneStep, BuyMultiplierStep,
         BuySeedUpgradeStep, UpgradePlotAutoStep, RebirthStep, LevelPrice, PlotPrice, SeedCost, MercyPlantEligible,
         AutoHarvestPrice;
    SoundBoard(c, f);
    match a
    case Harvest(i) => HarvestFlows(c, f, i, now);
    case RedeemGift => RedeemGiftFlows(c, f);
    case ShooCritter(i) => ShooCritterFlows(c, f, i);
    case BuyUpgrade(id) =>
    case SetFarmName(name) =>
    case SetFlavor(enabled) =>
    case Plant(_, _) => FarmPurchaseSpends(c, f, a, now);
    case BuyPlot => FarmPurchaseSpends(c, f, a, now);
    case BuyZone(_) => FarmPurchaseSpends(c, f, a, now);
    case BuyMultiplier(_) => MarketPurchaseSpends(c, f, a, now);
    case BuySeedUpgrade(_) => MarketPurchaseSpends(c, f, a, now);
    case UpgradePlotAuto(i, kind) => AutoPurchaseSpends(c, f, i, kind);
  }

  // ---------- catch-up ----------

  lemma ReapFlows(c: Config, t: Tick, crop: Crop)
    requires Sound(c, t.farm)
    ensures Flow(t.farm, Reap(c, t, crop).farm, 0) && Reap(c, t, crop).report.seedCoins == t.report.seedCoins
  {
    hide Sound, HarvestYield, Bank, Bump;
    SoundBoard(c, t.farm);
    BankFlows(t.farm, HarvestYield(c, t.farm, crop));
  }

  lemma ReplantFlows(c: Config, t: Tick, i: nat, crop: Crop, matureAt: int)
    requires Sound(c, t.farm) && i < |t.farm.plots| && CanReplant(c, t.farm, i, crop)
    ensures var r := Replant(c, t, i, crop, matureAt); Flow(t.farm, r.farm, r.report.seedCoins - t.report.seedCoins)
  {
    hide Sound, SeedCost, Unlocked;
    SoundBoard(c, t.farm);
  }

  lemma BatchFlows(c: Config, t: Tick, i: nat, crop: Crop, grow: int, matureAt: int, to: int)
    requires Sound(c, t.farm) && i < |t.farm.plots| && grow >= 1 && matureAt <= to && CanBatch(c, t.farm, i, crop)
    ensures var r := Batch(c, t, i, crop, grow, matureAt, to);
            Flow(t.farm, r.farm, r.report.seedCoins - t.report.seedCoins)
  {
    hide Sound, SeedCost, ExpectedPayout, SatMul, SatAdd, Credit, Bump;
    SoundBoard(c, t.farm);
    DueReaches(matureAt, grow, to);
    var n := Due(matureAt, grow, to);
    var gross := SatMul(ExpectedPayout(c, t.farm, crop), n);
    CreditFlows(t.farm, gross);
    SatMulNonNegative(SeedCost(c, t.farm, crop), n);
  }

  lemma ClearFlows(t: Tick, t1: Tick, i: nat)
    requires i < |t1.farm.plots| && Flow(t.farm, t1.farm, 0) && t1.report.seedCoins == t.report.seedCoins
    ensures var r := ClearPlot(t1, i); Flow(t.farm, r.farm, r.report.seedCoins - t.report.seedCoins)
  {
  }

  lemma {:induction false} SettleFlows(c: Config, t: Tick, i: nat, crop: Crop, grow: int, matureAt: int, cycles: nat,
                                       batches: nat, to: int)
    requires Sound(c, t.farm) && i < |t.farm.plots| && grow >= 1
    ensures var r := Settle(c, t, i, crop, grow, matureAt, cycles, batches, to).tick;
            Flow(t.farm, r.farm, r.report.seedCoins - t.report.seedCoins)
    decreases if matureAt <= to then to - matureAt + 1 else 0
  {
    hide Sound, Reap, Replant, Batch, CanBatch, CanReplant, SameBoard, SameSetup, Due, Flow, ClearPlot;
    FlowSelf(t.farm);
    if matureAt > to {
    } else if cycles >= AUTO_CYCLE_CAP {
      if CanBatch(c, t.farm, i, crop) {
        var t1 := Batch(c, t, i, crop, grow, matureAt, to);
        BatchKeeps(c, t, i, crop, grow, matureAt, to);
        BatchFlows(c, t, i, crop, grow, matureAt, to);
        DueReaches(matureAt, grow, to);
        SettleFlows(c, t1, i, crop, grow, t1.farm.plots[i].plantedAt + grow, cycles, batches + 1, to);
        var r := Settle(c, t1, i, crop, grow, t1.farm.plots[i].plantedAt + grow, cycles, batches + 1, to).tick;
        FlowTrans(t.farm, t1.farm, r.farm, t1.report.seedCoins - t.report.seedCoins,
            r.report.seedCoins - t1.report.seedCoins);
      }
    } else {
      var t1 := Reap(c, t, crop);
      ReapKeeps(c, t, crop);
      ReapFlows(c, t, crop);
      if CanReplant(c, t1.farm, i, crop) {
        var t2 := Replant(c, t1, i, crop, matureAt);
        ReplantKeeps(c, t1, i, crop, matureAt);
        ReplantFlows(c, t1, i, crop, matureAt);
        SettleFlows(c, t2, i, crop, grow, matureAt + grow, cycles + 1, batches, to);
        var r := Settle(c, t2, i, crop, grow, matureAt + grow, cycles + 1, batches, to).tick;
        FlowTrans(t.farm, t1.farm, t2.farm, 0, t2.report.seedCoins - t1.report.seedCoins);
        FlowTrans(t.farm, t2.farm, r.farm, t2.report.seedCoins - t.report.seedCoins,
            r.report.seedCoins - t2.report.seedCoins);
      } else {
        ClearFlows(t, t1, i);
      }
    }
  }

  lemma {:induction false} TendPlotsFlows(c: Config, t: Tick, i: nat, from: int, to: int, online: bool)
    requires Sound(c, t.farm) && i <= |t.farm.plots|
    ensures var r := TendPlots(c, t, i, from, to, online); Flow(t.farm, r.farm, r.report.seedCoins - t.report.seedCoins)
    decreases |t.farm.plots| - i
  {
    hide Sound, TendPlot, SameSetup, Flow;
    if i < |t.farm.plots| {
      var t1 := TendPlot(c, t, i, from, to, online);
      TendPlotKeeps(c, t, i, from, to, online);
      TendPlotFlows(c, t, i, from, to, online);
      TendPlotsFlows(c, t1, i + 1, from, to, online);
      var r := TendPlots(c, t1, i + 1, from, to, online);
      FlowTrans(t.farm, t1.farm, r.farm, t1.report.seedCoins - t.report.seedCoins,
          r.report.seedCoins - t1.report.seedCoins);
    } else {
      FlowSelf(t.farm);
    }
  }

  lemma FlowSelf(f: Farm)
    ensures Flow(f, f, 0)
  {
  }

  lemma TendPlotFlows(c: Config, t: Tick, i: nat, from: int, to: int, online: bool)
    requires Sound(c, t.farm) && i < |t.farm.plots|
    ensures var r := TendPlot(c, t, i, from, to, online); Flow(t.farm, r.farm, r.report.seedCoins - t.report.seedCoins)
  {
    hide Sound, Settle, Bump, CritterVisit;
    var plot := t.farm.plots[i];
    if plot.crop in c.cropById && plot.autoHarvest && plot.crop != "" {
      var crop := c.cropById[plot.crop];
      var grow := GrowSeconds(c, t.farm, crop);
      SettleFlows(c, t, i, crop, grow, plot.plantedAt + grow, 0, 0, to);
    }
  }

  /** One catch-up moves the wallet by what it credited minus what it spent on seeds. */
  lemma AdvanceFlows(c: Config, f: Farm, to: int)
    requires Inv(c, f)
    ensures Flow(f, Advance(c, f, to).farm, Advance(c, f, to).report.seedCoins)
  {
    hide Sound, Prelude, TendPlots, Award, Awarded, EventKnown;
    if to > f.updatedAt {
      PreludeKeeps(c, f, to);
      TendPlotsFlows(c, Prelude(c, f, to), 0, f.updatedAt, to, Online(to - f.updatedAt));
    }
  }
}
