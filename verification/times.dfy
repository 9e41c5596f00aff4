// The engine's time arithmetic, which the model does in whole numbers, stays in int64: for saves and instants up to a
// horizon, whatever the content, in every reachable save and at every step of every catch-up.
module Times {
  import opened Int64
  import opened Content
  import opened Farms
  import opened Derive
  import opened Actions
  import opened Advancing
  import opened History
  import opened EventTimes

  predicate Fits64(x: int) { MIN <= x <= MAX }

  /** Instants up to the horizon still fit in basis points: some 29 million years of seconds do. */
  predicate TimesFit(horizon: int) { 0 <= horizon && horizon * 10000 <= MAX }

  /** The save was made, and its plots planted, between 0 and the horizon. */
  ghost predicate Dated(f: Farm, horizon: int) {
    0 <= f.updatedAt <= horizon && PlotsDated(f.plots, horizon)
  }

  ghost predicate PlotsDated(ps: seq<Plot>, horizon: int) {
    forall i | 0 <= i < |ps| :: 0 <= ps[i].plantedAt <= horizon
  }

  /** Whatever the crop and the bonuses, growth is a hundredth of an int64 at most. */
  lemma GrowthFits(c: Config, f: Farm, crop: Crop)
    ensures 1 <= GrowSeconds(c, f, crop) <= MAX / 100
  {
    hide Bonus, Valid;
    var product: int := Wrap(crop.growSeconds * (100 - Min(Bonus(c, f, GrowSpeed), 99)));
    if product >= 0 { DivMono(product, MAX, 100); }
  }

  /** Whether a planted plot is ripe is asked of an instant int64 has. */
  lemma HarvestTimeFits(c: Config, f: Farm, i: nat, horizon: int)
    requires TimesFit(horizon) && Dated(f, horizon) && i < |f.plots| && f.plots[i].crop in c.cropById
    ensures Fits64(f.plots[i].plantedAt + GrowSeconds(c, f, c.cropById[f.plots[i].crop]))
  {
    hide GrowSeconds, Valid;
    GrowthFits(c, f, c.cropById[f.plots[i].crop]);
  }

  // ---------- every instant of a catch-up ----------

  /** What a batch computes with: the time left, the last maturity, and the one after it. */
  predicate BatchTimesFit(matureAt: int, grow: int, to: int)
    requires grow >= 1 && matureAt <= to
  {
    var last := matureAt + (Due(matureAt, grow, to) - 1) * grow;
    Fits64(to - matureAt) && Fits64(last) && Fits64(last + grow)
  }

  /** Every maturity the loop of a plot looks at, and what its batch computes with. */
  ghost predicate LoopTimesFit(c: Config, t: Tick, i: nat, crop: Crop, grow: int, matureAt: int, cycles: nat, to: int)
    requires i < |t.farm.plots| && grow >= 1
    decreases if matureAt <= to then to - matureAt + 1 else 0
  {
    hide Reap, Replant, CanReplant, CanBatch;
    && Fits64(matureAt)
    && (matureAt <= to && cycles >= AUTO_CYCLE_CAP && CanBatch(c, t.farm, i, crop)
        ==> BatchTimesFit(matureAt, grow, to))
    && (matureAt <= to && cycles < AUTO_CYCLE_CAP ==>
          var t1 := Reap(c, t, crop);
          CanReplant(c, t1.farm, i, crop) ==>
            LoopTimesFit(c, Replant(c, t1, i, crop, matureAt), i, crop, grow, matureAt + grow, cycles + 1, to))
  }

  ghost predicate PlotTimesFit(c: Config, t: Tick, i: nat, to: int)
    requires i < |t.farm.plots|
  {
    var p := t.farm.plots[i];
    p.crop in c.cropById ==>
      var crop := c.cropById[p.crop];
      var grow := GrowSeconds(c, t.farm, crop);
      if p.autoHarvest then LoopTimesFit(c, t, i, crop, grow, p.plantedAt + grow, 0, to) else Fits64(p.plantedAt + grow)
  }

  ghost predicate PlotsTimesFit(c: Config, t: Tick, i: nat, from: int, to: int, online: bool)
    requires i <= |t.farm.plots|
    decreases |t.farm.plots| - i
  {
    i < |t.farm.plots| ==>
      PlotTimesFit(c, t, i, to) && PlotsTimesFit(c, TendPlot(c, t, i, from, to, online), i + 1, from, to, online)
  }

  /** The time passed, its basis points, and every plot in its turn. */
  ghost predicate CatchUpTimesFit(c: Config, f: Farm, to: int)
    requires to > f.updatedAt
  {
    && Fits64(to - f.updatedAt) && Fits64((to - f.updatedAt) * 10000)
    && PlotsTimesFit(c, Prelude(c, f, to), 0, f.updatedAt, to, Online(to - f.updatedAt))
  }

  lemma BatchFits(matureAt: int, grow: int, to: int)
    requires 1 <= grow && 0 <= matureAt <= to && to + grow <= MAX
    ensures BatchTimesFit(matureAt, grow, to)
    ensures 0 <= matureAt + (Due(matureAt, grow, to) - 1) * grow <= to
  {
    DueReaches(matureAt, grow, to);
    MulMono(0, Due(matureAt, grow, to) - 1, grow);
  }

  lemma {:induction false} LoopFits(c: Config, t: Tick, i: nat, crop: Crop, grow: int, matureAt: int, cycles: nat,
                                    to: int)
    requires i < |t.farm.plots| && 1 <= grow && 0 <= matureAt <= MAX && 0 <= to && to + grow <= MAX
    ensures LoopTimesFit(c, t, i, crop, grow, matureAt, cycles, to)
    decreases if matureAt <= to then to - matureAt + 1 else 0
  {
    hide Reap, Replant, CanReplant, CanBatch, BatchTimesFit, Valid;
    if matureAt <= to {
      if cycles >= AUTO_CYCLE_CAP {
        BatchFits(matureAt, grow, to);
      } else {
        var t1 := Reap(c, t, crop);
        if CanReplant(c, t1.farm, i, crop) {
          LoopFits(c, Replant(c, t1, i, crop, matureAt), i, crop, grow, matureAt + grow, cycles + 1, to);
        }
      }
    }
  }

  /** A plot's loop leaves its cursor between 0 and the target. */
  lemma {:induction false} SettleDated(c: Config, t: Tick, i: nat, crop: Crop, grow: int, matureAt: int, cycles: nat,
                                       batches: nat, to: int, horizon: int)
    requires i < |t.farm.plots| && 1 <= grow && 0 <= matureAt && 0 <= to <= horizon && PlotsDated(t.farm.plots, horizon)
    ensures PlotsDated(Settle(c, t, i, crop, grow, matureAt, cycles, batches, to).tick.farm.plots, horizon)
    decreases if matureAt <= to then to - matureAt + 1 else 0
  {
    hide Reap, Replant, ClearPlot, Batch, CanBatch, CanReplant, Due, Valid;
    if matureAt <= to {
      if cycles >= AUTO_CYCLE_CAP {
        if CanBatch(c, t.farm, i, crop) {
          var t1 := Batch(c, t, i, crop, grow, matureAt, to);
          DueReaches(matureAt, grow, to);
          MulMono(0, Due(matureAt, grow, to) - 1, grow);
          SettleDated(c, t1, i, crop, grow, t1.farm.plots[i].plantedAt + grow, cycles, batches + 1, to, horizon);
        }
      } else {
        var t1 := Reap(c, t, crop);
        if CanReplant(c, t1.farm, i, crop) {
          SettleDated(c, Replant(c, t1, i, crop, matureAt), i, crop, grow, matureAt + grow, cycles + 1, batches, to,
              horizon);
        }
      }
    }
  }

  lemma TendPlotDated(c: Config, t: Tick, i: nat, from: int, to: int, online: bool, horizon: int)
    requires i < |t.farm.plots| && 0 <= to <= horizon && PlotsDated(t.farm.plots, horizon)
    ensures PlotsDated(TendPlot(c, t, i, from, to, online).farm.plots, horizon)
  {
    hide Settle, CritterVisit, Bump, GrowSeconds, Valid;
    var p := t.farm.plots[i];
    if p.crop != "" && p.crop in c.cropById && p.autoHarvest {
      var crop := c.cropById[p.crop];
      var grow := GrowSeconds(c, t.farm, crop);
      SettleDated(c, t, i, crop, grow, p.plantedAt + grow, 0, 0, to, horizon);
    }
  }

  lemma PlotFits(c: Config, t: Tick, i: nat, to: int, horizon: int)
    requires i < |t.farm.plots| && 0 <= to <= horizon && PlotsDated(t.farm.plots, horizon)
    requires TimesFit(horizon)
    ensures PlotTimesFit(c, t, i, to)
  {
    hide GrowSeconds, LoopTimesFit, Valid;
    var p := t.farm.plots[i];
    if p.crop in c.cropById {
      GrowthFits(c, t.farm, c.cropById[p.crop]);
      var grow := GrowSeconds(c, t.farm, c.cropById[p.crop]);
      LoopFits(c, t, i, c.cropById[p.crop], grow, p.plantedAt + grow, 0, to);
    }
  }

  lemma {:induction false} PlotsFit(c: Config, t: Tick, i: nat, from: int, to: int, online: bool, horizon: int)
    requires i <= |t.farm.plots| && 0 <= to <= horizon && PlotsDated(t.farm.plots, horizon)
    requires TimesFit(horizon)
    ensures PlotsTimesFit(c, t, i, from, to, online)
    ensures PlotsDated(TendPlots(c, t, i, from, to, online).farm.plots, horizon)
    decreases |t.farm.plots| - i
  {
    hide TimesFit, TendPlot, PlotTimesFit, PlotsDated, Valid;
    if i < |t.farm.plots| {
      PlotFits(c, t, i, to, horizon);
      TendPlotDated(c, t, i, from, to, online, horizon);
      PlotsFit(c, TendPlot(c, t, i, from, to, online), i + 1, from, to, online, horizon);
    }
  }

  /** No time a catch-up computes leaves int64, and the save it leaves is dated again. */
  lemma CatchUpFits(c: Config, f: Farm, to: int, horizon: int)
    requires TimesFit(horizon) && Dated(f, horizon) && f.updatedAt < to <= horizon
    ensures CatchUpTimesFit(c, f, to) && Dated(Advance(c, f, to).farm, horizon)
  {
    hide Prelude, TendPlots, PlotsTimesFit, Award, Awarded, PlotsDated, Valid;
    assert Prelude(c, f, to).farm.plots == f.plots;
    PlotsFit(c, Prelude(c, f, to), 0, f.updatedAt, to, Online(to - f.updatedAt), horizon);
  }

  // ---------- every reachable save ----------

  lemma FarmingDated(c: Config, f: Farm, a: Action, now: int, horizon: int)
    requires Act(c, f, a, now).Done? && (a.Plant? || a.Harvest? || a.ShooCritter?)
    requires PlotsDated(f.plots, horizon) && 0 <= now <= horizon
    ensures PlotsDated(Act(c, f, a, now).farm.plots, horizon)
  {
    hide SeedCost, Unlocked, MercyPlantEligible, HarvestYield, Ready, RollRange, RangeRng, Credit, Bank, Valid,
         BuyPlotStep, BuyZoneStep, BuyMultiplierStep, BuySeedUpgradeStep, UpgradePlotAutoStep, BuyUpgradeStep,
         RedeemGiftStep, SetFarmNameStep, RebirthStep;
  }

  lemma EmptyDated(ps: seq<Plot>, n: nat, horizon: int)
    requires PlotsDated(ps, horizon) && 0 <= horizon
    ensures PlotsDated(EmptyPlots(n), horizon) && PlotsDated(ps + EmptyPlots(n), horizon)
    ensures PlotsDated(ps + [EMPTY_PLOT], horizon)
  {
  }

  lemma LandDated(c: Config, f: Farm, a: Action, now: int, horizon: int)
    requires Act(c, f, a, now).Done? && (a.BuyPlot? || a.BuyZone? || a.Rebirth?)
    requires PlotsDated(f.plots, horizon) && 0 <= horizon
    ensures PlotsDated(Act(c, f, a, now).farm.plots, horizon)
  {
    hide PlotPrice, Unlocked, Owns, PrestigeGain, CanRebirth, OpeningCoins, EmptyPlots, PlotsDated, Wrap, SatAdd,
         PlantStep,
         HarvestStep, BuyMultiplierStep, BuySeedUpgradeStep, BuyUpgradeStep, RedeemGiftStep, ShooCritterStep,
         SetFarmNameStep, UpgradePlotAutoStep, Indexed;
    EmptyDated(f.plots, if a.BuyZone? then c.zoneById[a.id].extraPlots else c.start.plots, horizon);
  }

  lemma AutomationDated(c: Config, f: Farm, i: int, kind: AutoKind, horizon: int)
    requires UpgradePlotAutoStep(c, f, i, kind).Done? && PlotsDated(f.plots, horizon)
    ensures PlotsDated(UpgradePlotAutoStep(c, f, i, kind).farm.plots, horizon)
  {
    hide AutoHarvestPrice, Valid, Wrap;
  }

  lemma MarketDated(c: Config, f: Farm, a: Action, now: int)
    requires Act(c, f, a, now).Done?
    requires a.BuyMultiplier? || a.BuySeedUpgrade? || a.BuyUpgrade? || a.RedeemGift? || a.SetFarmName? || a.SetFlavor?
    ensures Act(c, f, a, now).farm.plots == f.plots
  {
    hide LevelPrice, Level, GiftCoins, GiftSeeds, GiftRng, HoldsStarseeds, Credit, Unlocked, Valid, Wrap, SatAdd,
         PlantStep,
         HarvestStep, BuyPlotStep, BuyZoneStep, UpgradePlotAutoStep, ShooCritterStep, RebirthStep;
  }

  lemma ActDated(c: Config, f: Farm, a: Action, now: int, horizon: int)
    requires Act(c, f, a, now).Done? && Dated(f, horizon) && 0 <= now <= horizon
    ensures Dated(Act(c, f, a, now).farm, horizon)
  {
    hide Act, PlotsDated;
    EventAfterAct(c, f, a, now);
    if a.Plant? || a.Harvest? || a.ShooCritter? {
      FarmingDated(c, f, a, now, horizon);
    } else if a.BuyPlot? || a.BuyZone? || a.Rebirth? {
      LandDated(c, f, a, now, horizon);
    } else if a.UpgradePlotAuto? {
      ActsAutomation(c, f, a, now);
      AutomationDated(c, f, a.i, a.kind, horizon);
    } else {
      MarketDated(c, f, a, now);
    }
  }

  lemma ActsAutomation(c: Config, f: Farm, a: Action, now: int)
    requires a.UpgradePlotAuto?
    ensures Act(c, f, a, now) == UpgradePlotAutoStep(c, f, a.i, a.kind)
  {
    hide UpgradePlotAutoStep, Valid;
  }

  lemma AfterDated(c: Config, f: Farm, m: Move, horizon: int)
    requires TimesFit(horizon) && Dated(f, horizon) && 0 <= Instant(m) <= horizon
    ensures Dated(After(c, f, m), horizon)
  {
    hide TimesFit, Act, Advance, Award, PlotsDated, Valid;
    match m
    case Pass(to) =>
      AdvanceClock(c, f, to);
      if to > f.updatedAt { CatchUpFits(c, f, to, horizon); }
    case Do(a, now) => if Act(c, f, a, now).Done? { ActDated(c, f, a, now, horizon); }
    case Check(now) =>
  }

  /** Every save reached by moves up to the horizon is dated, so that by `CatchUpFits` and `HarvestTimeFits` the next
      catch-up or harvest up to the horizon computes no time that leaves int64. */
  lemma {:induction false} ReachableTimesFit(c: Config, seed: nat, start: int, ms: seq<Move>, horizon: int)
    requires TimesFit(horizon) && 0 <= start <= horizon
    requires forall k | 0 <= k < |ms| :: 0 <= Instant(ms[k]) <= horizon
    ensures Dated(Play(c, New(c, seed, start), ms), horizon)
  {
    hide TimesFit, After, Instant, Dated, Valid;
    if ms == [] {
      NewIsDated(c, seed, start, horizon);
    } else {
      ReachableTimesFit(c, seed, start, ms[..|ms| - 1], horizon);
      AfterDated(c, Play(c, New(c, seed, start), ms[..|ms| - 1]), ms[|ms| - 1], horizon);
    }
  }

  lemma NewIsDated(c: Config, seed: nat, start: int, horizon: int)
    requires 0 <= start <= horizon
    ensures Dated(New(c, seed, start), horizon)
  {
  }

  // ---------- the seconds themselves ----------

  const ENDLESS_CROP := Crop("fast", Fast, 1, MAX, 1, 0, AtStart)

  /** Content that passes validation: a crop that takes as long as int64 can say. */
  ghost function EndlessContent(): (c: Content)
    ensures Accepted(c) && Valid(c) && c.upgrades == [] && c.multipliers == []
  {
    hide Accepted, Valid;
    Sample(ENDLESS_CROP, Land(1, 100, 1), GoldenHarvest(0, 10), Moon(0, 0, ""))
  }

  /** Its product with 100 wraps, and it ripens in a second. */
  lemma EndlessCropRipensAtOnce(c: Config, rng: nat)
    requires c == EndlessContent()
    ensures GrowSeconds(c, New(c, rng, 0), ENDLESS_CROP) == 1
  {
    hide Accepted, Valid, EndlessContent;
    assert Wrap(MAX * 100) == -100;
    assert Bonus(c, New(c, rng, 0), GrowSpeed) == 0;
  }
}
