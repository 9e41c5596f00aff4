// The catch-up's own report against the wallet it describes.
module Reporting {
  import opened Int64
  import opened Content
  import opened Farms
  import opened Derive
  import opened Actions
  import opened Advancing
  import opened Invariant

  // ---------- payouts that wrap ----------

  /** A negative divisor, which only a wrapped bonus can give, sends every positive price to the ceiling. */
  lemma BoostMonotone(a: int64, b: int64, bonus: int64)
    requires 0 <= a <= b
    ensures 0 <= Boost(a, bonus) <= Boost(b, bonus)
  {
    var d := Divisor(bonus);
    hide Divisor;
    if bonus != 0 && d > 0 {
      QuotientTest(a, d, MAX);
      QuotientTest(b, d, MAX);
      MulMono(a, b, d);
      MulMono(0, a, d);
      if b <= MAX / d { DivMono(a * d, b * d, 100); }
    } else if d < 0 {
      QuotientBound(MAX, -d);
      if -d <= MAX { QuotientTest(1, -d, MAX); }
    }
  }

  /** The roll of a risky crop's harvest fails. */
  predicate Fails(c: Config, f: Farm, crop: Crop) { crop.archetype.Risky? && Roll(c, f.rng, 100) < crop.failChancePct }

  /** The roll after it turns the harvest golden. */
  predicate TurnsGolden(c: Config, f: Farm, crop: Crop) {
    c.golden.chancePct > 0 && Roll(c, if crop.archetype.Risky? then NextRng(f.rng) else f.rng, 100) < c.golden.chancePct
  }

  /** A negative price with this bonus on it stays below zero: it is kept as it is, or passes the guard and its product
      with the divisor wraps or stays below zero. */
  predicate NegativeStays(base: int64, bonus: int64) {
    var d := Divisor(bonus);
    bonus == 0 || (d != 0 && base <= Div(MAX, d) && Wrap(base * d) <= -100)
  }

  /** The next harvest of `crop` meets an unguarded multiplication that wraps below zero: the golden one, or, for a
      failed risky crop, those of the salvage and of the bonus on it. */
  predicate PayoutWraps(c: Config, f: Farm, crop: Crop) {
    var bonus := SellBonusPct(c, f, crop.id);
    if TurnsGolden(c, f, crop) then
      Wrap(Boost(if Fails(c, f, crop) then Salvage(f, crop) else crop.sellValue, bonus) * c.golden.multiplier) <= -10
    else
      && Fails(c, f, crop)
      && Wrap(crop.sellValue * SalvageNumerator(Level(f.seedUpgrades, crop.id))) <= -8
      && NegativeStays(Salvage(f, crop), bonus)
  }

  lemma QuoNegativeIff(a: int, b: int)
    requires b > 0
    ensures Quo(a, b) < 0 <==> a <= -b
  {
    if a < 0 {
      QuotientTest(1, b, -a);
    }
  }

  lemma BoostNegativeIff(base: int64, bonus: int64)
    ensures Boost(base, bonus) < 0 <==> base < 0 && NegativeStays(base, bonus)
  {
    if base >= 0 {
      BoostMonotone(base, base, bonus);
    } else if bonus != 0 {
      hide Divisor;
      QuoNegativeIff(Wrap(base * Divisor(bonus)), 100);
    }
  }

  /** A harvest pays a negative amount exactly when one of its unguarded multiplications wraps below zero; what it
      discovers is never negative. */
  lemma PayoutNegativeIff(c: Config, f: Farm, crop: Crop)
    requires ValidCrop(crop)
    ensures HarvestYield(c, f, crop).payout < 0 <==> PayoutWraps(c, f, crop)
    ensures HarvestYield(c, f, crop).discovery >= 0
  {
    hide Roll, Boost, Salvage, SellBonusPct, NextRng, RangeRng;
    var bonus := SellBonusPct(c, f, crop.id);
    var base := if Fails(c, f, crop) then Salvage(f, crop) else crop.sellValue;
    BoostNegativeIff(base, bonus);
    GildedNegativeIff(c, Boost(base, bonus));
    SalvageNegativeIff(f, crop);
  }

  lemma GildedNegativeIff(c: Config, plain: int64)
    ensures Gilded(c, plain) < 0 <==> Wrap(plain * c.golden.multiplier) <= -10
  {
    QuoNegativeIff(Wrap(plain * c.golden.multiplier), 10);
  }

  lemma SalvageNegativeIff(f: Farm, crop: Crop)
    ensures Salvage(f, crop) < 0 <==> Wrap(crop.sellValue * SalvageNumerator(Level(f.seedUpgrades, crop.id))) <= -8
  {
    QuoNegativeIff(Wrap(crop.sellValue * SalvageNumerator(Level(f.seedUpgrades, crop.id))), 8);
  }

  // ---------- one harvest in the report ----------

  function Positive(x: int): int { if x > 0 then x else 0 }

  /** What one reap does to the wallet and the run counter. */
  lemma ReapMoves(c: Config, t: Tick, crop: Crop)
    requires MoneyOk(t.farm)
    ensures var y := HarvestYield(c, t.farm, crop); var g := Reap(c, t, crop).farm;
            var gained := Positive(y.payout) + Positive(y.discovery);
            g.coins == Min(t.farm.coins + gained, MAX) && g.runEarnings == Min(t.farm.runEarnings + gained, MAX)
  {
    hide HarvestYield, Credit, SatAdd, Bump;
    var y := HarvestYield(c, t.farm, crop);
    var f0 := t.farm.(rng := y.rng);
    CreditClips(f0, y.payout);
    CreditClips(Credit(f0, y.payout), y.discovery);
  }

  /** With room left everywhere, one reap is reported as the wallet moved, discovery included, exactly when none of its
      multiplications wraps below zero. */
  lemma ReapReportedIff(c: Config, t: Tick, crop: Crop)
    requires MoneyOk(t.farm) && ValidCrop(crop)
    requires var y := HarvestYield(c, t.farm, crop);
             && t.farm.coins + Positive(y.payout) + y.discovery <= MAX
             && t.report.autoCoins < MAX && t.report.autoCoins + y.payout <= MAX
             && t.report.discoveryCoins + y.discovery <= MAX
    ensures var r := Reap(c, t, crop);
            r.farm.coins - t.farm.coins
            == (r.report.autoCoins + r.report.discoveryCoins) - (t.report.autoCoins + t.report.discoveryCoins)
            <==> !PayoutWraps(c, t.farm, crop)
  {
    PayoutNegativeIff(c, t.farm, crop);
    ReapMoves(c, t, crop);
    hide HarvestYield, Bump, SatAdd, PayoutWraps, Bank;
    var y := HarvestYield(c, t.farm, crop);
    if y.payout >= 0 {
      SatAddClips(t.report.autoCoins, y.payout);
    } else {
      SatAddOverstates(t.report.autoCoins, y.payout);
    }
  }

  // ---------- report against wallet ----------

  /** Neither the run counter nor the wallet has met the ceiling between `base` and `f`. */
  ghost predicate NoClip(base: Farm, f: Farm) {
    f.runEarnings < MAX && base.coins + (f.runEarnings - base.runEarnings) <= MAX
  }

  /** The report against the wallet since `base`: equal as long as every reap was `clean`, and too high ever after. */
  ghost predicate Accounted(base: Farm, t: Tick, clean: bool) {
    && base.runEarnings <= t.farm.runEarnings
    && (NoClip(base, t.farm) ==>
          && t.farm.coins - base.coins <= t.farm.runEarnings - base.runEarnings
          && 0 <= t.report.discoveryCoins <= t.farm.runEarnings - base.runEarnings
          && var net := t.farm.coins - base.coins - t.report.discoveryCoins;
             if clean then t.report.autoCoins == net else t.report.autoCoins > net)
  }

  lemma ReapAccounts(c: Config, base: Farm, t: Tick, crop: Crop, clean: bool)
    requires MoneyOk(base) && MoneyOk(t.farm) && Accounted(base, t, clean) && ValidCrop(crop)
    ensures Accounted(base, Reap(c, t, crop), clean && !PayoutWraps(c, t.farm, crop))
  {
    PayoutNegativeIff(c, t.farm, crop);
    ReapMoves(c, t, crop);
    hide HarvestYield, Bank, Bump, SatAdd, PayoutWraps;
    var y := HarvestYield(c, t.farm, crop);
    if y.payout >= 0 {
      SatAddClips(t.report.autoCoins, y.payout);
    } else if t.report.autoCoins < MAX {
      SatAddOverstates(t.report.autoCoins, y.payout);
    } else {
      SatAddNegative(t.report.autoCoins, y.payout);
    }
  }

  lemma ReplantAccounts(c: Config, base: Farm, t: Tick, i: nat, crop: Crop, matureAt: int, clean: bool)
    requires MoneyOk(base) && MoneyOk(t.farm) && Accounted(base, t, clean)
    requires i < |t.farm.plots| && CanReplant(c, t.farm, i, crop)
    ensures Accounted(base, Replant(c, t, i, crop, matureAt), clean)
  {
    hide SeedCost, Unlocked;
  }

  /** Coins in, coins out, and the report's total, moved together. */
  lemma BalanceMoves(base: Farm, t: Tick, r: Tick, gross: int, seeds: int, clean: bool)
    requires MoneyOk(base) && MoneyOk(t.farm) && Accounted(base, t, clean) && 0 <= seeds <= gross
    requires r.farm.coins == Min(t.farm.coins + gross, MAX) - seeds
    requires r.farm.runEarnings == Min(t.farm.runEarnings + gross, MAX)
    requires r.report.autoCoins == Min(t.report.autoCoins + (gross - seeds), MAX)
    requires r.report.discoveryCoins == t.report.discoveryCoins
    ensures Accounted(base, r, clean)
  {
  }

  lemma BatchAccounts(c: Config, base: Farm, t: Tick, i: nat, crop: Crop, grow: int, matureAt: int, to: int,
                      clean: bool)
    requires MoneyOk(base) && MoneyOk(t.farm) && Accounted(base, t, clean)
    requires i < |t.farm.plots| && grow >= 1 && matureAt <= to && CanBatch(c, t.farm, i, crop)
    ensures Accounted(base, Batch(c, t, i, crop, grow, matureAt, to), clean)
  {
    hide SeedCost, ExpectedPayout, SatAdd, SatMul, Credit, Bump, Due, Accounted, Valid, NoClip;
    DueReaches(matureAt, grow, to);
    var n := Due(matureAt, grow, to);
    var payout, seed := ExpectedPayout(c, t.farm, crop), SeedCost(c, t.farm, crop);
    var gross := SatMul(payout, n);
    BatchNet(payout, seed, n);
    CreditClips(t.farm, gross);
    var seeds := Min(SatMul(seed, n), Credit(t.farm, gross).coins);
    SatAddClips(t.report.autoCoins, gross - seeds);
    var r := Batch(c, t, i, crop, grow, matureAt, to);
    BalanceMoves(base, t, r, gross, seeds, clean);
  }

  /** A profitable batch never costs more than it yields, even at the ceiling. */
  lemma BatchNet(payout: int, seed: int, n: int)
    requires 0 <= seed <= payout && n >= 0
    ensures 0 <= SatMul(seed, n) <= SatMul(payout, n) <= MAX
  {
    MulMono(seed, payout, n);
    MulMono(0, seed, n);
  }

  lemma ClearAccounts(base: Farm, t: Tick, i: nat, clean: bool)
    requires Accounted(base, t, clean) && i < |t.farm.plots|
    ensures Accounted(base, ClearPlot(t, i), clean)
  {
  }

  // ---------- the whole catch-up ----------

  /** No reap of a plot's loop wraps below zero. A batch reaps nothing one by one. */
  ghost predicate LoopClean(c: Config, t: Tick, i: nat, crop: Crop, grow: int, matureAt: int, cycles: nat, to: int)
    requires i < |t.farm.plots| && grow >= 1
    decreases if matureAt <= to then to - matureAt + 1 else 0
  {
    hide Reap, Replant, CanReplant, PayoutWraps;
    matureAt > to || cycles >= AUTO_CYCLE_CAP
    || (!PayoutWraps(c, t.farm, crop)
        && var t1 := Reap(c, t, crop);
           CanReplant(c, t1.farm, i, crop) ==>
             LoopClean(c, Replant(c, t1, i, crop, matureAt), i, crop, grow, matureAt + grow, cycles + 1, to))
  }

  /** Plot `i` is one the catch-up harvests. */
  predicate Automatic(c: Config, p: Plot) { p.crop != "" && p.crop in c.cropById && p.autoHarvest }

  ghost predicate PlotClean(c: Config, t: Tick, i: nat, to: int)
    requires i < |t.farm.plots|
  {
    var p := t.farm.plots[i];
    Automatic(c, p) ==>
      var crop := c.cropById[p.crop];
      var grow := GrowSeconds(c, t.farm, crop);
      LoopClean(c, t, i, crop, grow, p.plantedAt + grow, 0, to)
  }

  ghost predicate PlotsClean(c: Config, t: Tick, i: nat, from: int, to: int, online: bool)
    requires i <= |t.farm.plots|
    decreases |t.farm.plots| - i
  {
    i < |t.farm.plots| ==>
      PlotClean(c, t, i, to) && PlotsClean(c, TendPlot(c, t, i, from, to, online), i + 1, from, to, online)
  }

  /** No automatic harvest of the catch-up wraps below zero. */
  ghost predicate CatchUpClean(c: Config, f: Farm, to: int) {
    to > f.updatedAt ==> PlotsClean(c, Prelude(c, f, to), 0, f.updatedAt, to, Online(to - f.updatedAt))
  }

  lemma {:induction false} SettleAccounts(c: Config, base: Farm, t: Tick, i: nat, crop: Crop, grow: int, matureAt: int,
                                          cycles: nat, batches: nat, to: int, clean: bool)
    requires MoneyOk(base) && Sound(c, t.farm) && Accounted(base, t, clean) && i < |t.farm.plots| && grow >= 1
    requires ValidCrop(crop) && (batches > 0 ==> matureAt > to)
    ensures Accounted(base, Settle(c, t, i, crop, grow, matureAt, cycles, batches, to).tick,
                      clean && LoopClean(c, t, i, crop, grow, matureAt, cycles, to))
    decreases if matureAt <= to then to - matureAt + 1 else 0
  {
    hide Sound, Reap, Replant, Batch, CanBatch, CanReplant, SameBoard, SameSetup, Due, Accounted, PayoutWraps,
         HarvestYield, MoneyOk;
    SoundBoard(c, t.farm);
    if matureAt > to {
    } else if cycles >= AUTO_CYCLE_CAP {
      if CanBatch(c, t.farm, i, crop) {
        var t1 := Batch(c, t, i, crop, grow, matureAt, to);
        BatchKeeps(c, t, i, crop, grow, matureAt, to);
        BatchAccounts(c, base, t, i, crop, grow, matureAt, to, clean);
        DueReaches(matureAt, grow, to);
        SettleAccounts(c, base, t1, i, crop, grow, t1.farm.plots[i].plantedAt + grow, cycles, batches + 1, to, clean);
      }
    } else {
      var t1 := Reap(c, t, crop);
      ReapKeeps(c, t, crop);
      var cleanSoFar := clean && !PayoutWraps(c, t.farm, crop);
      ReapAccounts(c, base, t, crop, clean);
      if CanReplant(c, t1.farm, i, crop) {
        SoundBoard(c, t1.farm);
        ReplantKeeps(c, t1, i, crop, matureAt);
        ReplantAccounts(c, base, t1, i, crop, matureAt, cleanSoFar);
        var t2 := Replant(c, t1, i, crop, matureAt);
        SettleAccounts(c, base, t2, i, crop, grow, matureAt + grow, cycles + 1, batches, to, cleanSoFar);
      } else {
        ClearAccounts(base, t1, i, cleanSoFar);
      }
    }
  }

  lemma TendPlotAccounts(c: Config, base: Farm, t: Tick, i: nat, from: int, to: int, online: bool, clean: bool)
    requires MoneyOk(base) && Sound(c, t.farm) && Accounted(base, t, clean) && i < |t.farm.plots|
    ensures Accounted(base, TendPlot(c, t, i, from, to, online), clean && PlotClean(c, t, i, to))
  {
    hide Sound, Settle, CritterVisit, Bump, MoneyOk, LoopClean;
    var plot := t.farm.plots[i];
    if Automatic(c, plot) {
      var crop := c.cropById[plot.crop];
      assert crop in c.crops;
      var grow := GrowSeconds(c, t.farm, crop);
      SettleAccounts(c, base, t, i, crop, grow, plot.plantedAt + grow, 0, 0, to, clean);
    }
  }

  lemma {:induction false} TendPlotsAccount(c: Config, base: Farm, t: Tick, i: nat, from: int, to: int, online: bool,
                                            clean: bool)
    requires MoneyOk(base) && Sound(c, t.farm) && Accounted(base, t, clean) && i <= |t.farm.plots|
    ensures Accounted(base, TendPlots(c, t, i, from, to, online), clean && PlotsClean(c, t, i, from, to, online))
    decreases |t.farm.plots| - i
  {
    hide Sound, TendPlot, Accounted, PlotClean, SameSetup, MoneyOk;
    if i < |t.farm.plots| {
      TendPlotKeeps(c, t, i, from, to, online);
      TendPlotAccounts(c, base, t, i, from, to, online, clean);
      TendPlotsAccount(c, base, TendPlot(c, t, i, from, to, online), i + 1, from, to, online,
                       clean && PlotClean(c, t, i, to));
    }
  }

  /** The report balances: for any content, any rolls and any mix of plots, if no counter met the ceiling, one catch-up
      changes the wallet by exactly the automatic net coins plus the discoveries it reports if and only if none of its
      automatic harvests met a multiplication that wraps below zero. If one did, the report claims too much. */
  lemma ReportBalancesIff(c: Config, f: Farm, to: int)
    requires Inv(c, f) && NoClip(f, Advance(c, f, to).farm)
    ensures var r := Advance(c, f, to); var reported := r.report.autoCoins + r.report.discoveryCoins;
            && (r.farm.coins - f.coins == reported <==> CatchUpClean(c, f, to))
            && r.farm.coins - f.coins <= reported
  {
    hide Sound, Prelude, TendPlots, Award, Awarded, EventKnown, PlotsClean;
    if to > f.updatedAt {
      SoundBoard(c, f);
      PreludeKeeps(c, f, to);
      TendPlotsAccount(c, f, Prelude(c, f, to), 0, f.updatedAt, to, Online(to - f.updatedAt), true);
    }
  }

  // ---------- a condition on the content ----------

  /** None of the unguarded multiplications of any harvest of `crop` leaves int64, whatever is rolled. */
  ghost predicate Fits(c: Config, f: Farm, crop: Crop) {
    && (crop.archetype.Risky? ==> crop.sellValue * 6 <= MAX)
    && (c.golden.chancePct > 0 ==> SellMultiplied(c, f, crop.sellValue, crop.id) * c.golden.multiplier <= MAX)
  }

  /** `Fits` for the crops of the automatic plots from `i` on. */
  ghost predicate PlantedFit(c: Config, f: Farm, i: nat) {
    forall k :: i <= k < |f.plots| && Automatic(c, f.plots[k]) ==> Fits(c, f, c.cropById[f.plots[k].crop])
  }

  /** `Fits` for the crops of the automatic plots, under no event and under every event there is. */
  ghost predicate AlwaysFit(c: Config, f: Farm) {
    PlantedFit(c, f.(eventId := ""), 0) && forall id <- c.eventById :: PlantedFit(c, f.(eventId := id), 0)
  }

  lemma SalvageBelowSale(f: Farm, crop: Crop)
    requires crop.sellValue >= 0 && crop.sellValue * 6 <= MAX
    ensures 0 <= Salvage(f, crop) <= crop.sellValue
  {
  }

  lemma FitsNeverWraps(c: Config, f: Farm, crop: Crop)
    requires ValidCrop(crop) && Fits(c, f, crop)
    ensures !PayoutWraps(c, f, crop)
  {
    hide Roll, Boost, Salvage, SellBonusPct, NextRng;
    var bonus := SellBonusPct(c, f, crop.id);
    BoostMonotone(crop.sellValue, crop.sellValue, bonus);
    MulMono(0, Boost(crop.sellValue, bonus), c.golden.multiplier);
    if crop.archetype.Risky? {
      SalvageBelowSale(f, crop);
      SalvageNegativeIff(f, crop);
      BoostMonotone(Salvage(f, crop), crop.sellValue, bonus);
      MulMono(Boost(Salvage(f, crop), bonus), Boost(crop.sellValue, bonus), c.golden.multiplier);
      MulMono(0, Boost(Salvage(f, crop), bonus), c.golden.multiplier);
    }
  }

  lemma FitsStays(c: Config, f: Farm, g: Farm, crop: Crop)
    requires Fits(c, f, crop) && SameSetup(f, g)
    ensures Fits(c, g, crop)
  {
    hide Valid, Boost, EffectSum, Wrap;
  }

  lemma {:induction false} FitsLoopClean(c: Config, t: Tick, i: nat, crop: Crop, grow: int, matureAt: int, cycles: nat,
                                         to: int)
    requires Sound(c, t.farm) && i < |t.farm.plots| && grow >= 1 && ValidCrop(crop) && Fits(c, t.farm, crop)
    ensures LoopClean(c, t, i, crop, grow, matureAt, cycles, to)
    decreases if matureAt <= to then to - matureAt + 1 else 0
  {
    hide Sound, Reap, Replant, CanReplant, SameBoard, SameSetup, PayoutWraps, Fits, Valid, ValidCrop;
    if matureAt <= to && cycles < AUTO_CYCLE_CAP {
      FitsNeverWraps(c, t.farm, crop);
      ReapKeeps(c, t, crop);
      var t1 := Reap(c, t, crop);
      if CanReplant(c, t1.farm, i, crop) {
        ReplantKeeps(c, t1, i, crop, matureAt);
        var t2 := Replant(c, t1, i, crop, matureAt);
        SameSetupTrans(t.farm, t1.farm, t2.farm);
        FitsStays(c, t.farm, t2.farm, crop);
        FitsLoopClean(c, t2, i, crop, grow, matureAt + grow, cycles + 1, to);
      }
    }
  }

  /** A plot's loop touches no other plot. */
  lemma {:induction false} SettleLocal(c: Config, t: Tick, i: nat, crop: Crop, grow: int, matureAt: int, cycles: nat,
                                       batches: nat, to: int, k: nat)
    requires i < |t.farm.plots| && grow >= 1 && k < |t.farm.plots| && k != i
    ensures Settle(c, t, i, crop, grow, matureAt, cycles, batches, to).tick.farm.plots[k] == t.farm.plots[k]
    decreases if matureAt <= to then to - matureAt + 1 else 0
  {
    hide Reap, Replant, Batch, CanBatch, CanReplant, Due;
    if matureAt > to {
    } else if cycles >= AUTO_CYCLE_CAP {
      if CanBatch(c, t.farm, i, crop) {
        var t1 := Batch(c, t, i, crop, grow, matureAt, to);
        DueReaches(matureAt, grow, to);
        SettleLocal(c, t1, i, crop, grow, t1.farm.plots[i].plantedAt + grow, cycles, batches + 1, to, k);
      }
    } else {
      var t1 := Reap(c, t, crop);
      if CanReplant(c, t1.farm, i, crop) {
        SettleLocal(c, Replant(c, t1, i, crop, matureAt), i, crop, grow, matureAt + grow, cycles + 1, batches, to, k);
      }
    }
  }

  lemma TendPlotLocal(c: Config, t: Tick, i: nat, from: int, to: int, online: bool, k: nat)
    requires i < |t.farm.plots| && k < |t.farm.plots| && k != i
    ensures TendPlot(c, t, i, from, to, online).farm.plots[k] == t.farm.plots[k]
  {
    hide Settle, CritterVisit, Bump;
    var plot := t.farm.plots[i];
    if plot.crop != "" && plot.crop in c.cropById && plot.autoHarvest {
      var crop := c.cropById[plot.crop];
      var grow := GrowSeconds(c, t.farm, crop);
      SettleLocal(c, t, i, crop, grow, plot.plantedAt + grow, 0, 0, to, k);
    }
  }

  lemma PlantedFitStays(c: Config, t: Tick, i: nat, from: int, to: int, online: bool)
    requires Sound(c, t.farm) && i < |t.farm.plots| && PlantedFit(c, t.farm, i)
    ensures PlantedFit(c, TendPlot(c, t, i, from, to, online).farm, i + 1)
  {
    hide Sound, TendPlot, SameSetup, Fits;
    var g := TendPlot(c, t, i, from, to, online).farm;
    TendPlotKeeps(c, t, i, from, to, online);
    forall k | i + 1 <= k < |g.plots| && Automatic(c, g.plots[k]) ensures Fits(c, g, c.cropById[g.plots[k].crop]) {
      TendPlotLocal(c, t, i, from, to, online, k);
      FitsStays(c, t.farm, g, c.cropById[g.plots[k].crop]);
    }
  }

  lemma {:induction false} PlantedFitClean(c: Config, t: Tick, i: nat, from: int, to: int, online: bool)
    requires Sound(c, t.farm) && i <= |t.farm.plots| && PlantedFit(c, t.farm, i)
    ensures PlotsClean(c, t, i, from, to, online)
    decreases |t.farm.plots| - i
  {
    hide Sound, TendPlot, SameSetup, LoopClean, Fits;
    if i < |t.farm.plots| {
      var p := t.farm.plots[i];
      if Automatic(c, p) {
        var crop := c.cropById[p.crop];
        assert crop in c.crops;
        FitsLoopClean(c, t, i, crop, GrowSeconds(c, t.farm, crop), p.plantedAt + GrowSeconds(c, t.farm, crop), 0, to);
      }
      TendPlotKeeps(c, t, i, from, to, online);
      PlantedFitStays(c, t, i, from, to, online);
      PlantedFitClean(c, TendPlot(c, t, i, from, to, online), i + 1, from, to, online);
    }
  }

  /** What a caller can check on the save before the catch-up, whatever will be rolled: if the crops of the automatic
      plots fit under every event, the report will balance. */
  lemma ReportBalances(c: Config, f: Farm, to: int)
    requires Inv(c, f) && AlwaysFit(c, f) && NoClip(f, Advance(c, f, to).farm)
    ensures var r := Advance(c, f, to); r.farm.coins - f.coins == r.report.autoCoins + r.report.discoveryCoins
  {
    hide Sound, EventKnown, AlwaysFit, NoClip, Advance, Prelude, PlotsClean, PlantedFit;
    if to > f.updatedAt {
      PreludeKeeps(c, f, to);
      PreludeFits(c, f, to);
      PlantedFitClean(c, Prelude(c, f, to), 0, f.updatedAt, to, Online(to - f.updatedAt));
    }
    ReportBalancesIff(c, f, to);
  }

  lemma PreludeFits(c: Config, f: Farm, to: int)
    requires AlwaysFit(c, f) && to > f.updatedAt && EventKnown(c, Prelude(c, f, to).farm)
    ensures PlantedFit(c, Prelude(c, f, to).farm, 0)
  {
    hide Prelude, Fits;
    var g := Prelude(c, f, to).farm;
    var h := f.(eventId := g.eventId);
    assert PlantedFit(c, h, 0);
    forall k | 0 <= k < |g.plots| && Automatic(c, g.plots[k]) ensures Fits(c, g, c.cropById[g.plots[k].crop]) {
      SameSale(c, h, g, c.cropById[g.plots[k].crop]);
    }
  }

  lemma SameSale(c: Config, f: Farm, g: Farm, crop: Crop)
    requires Fits(c, f, crop) && g.eventId == f.eventId && g.upgrades == f.upgrades && g.multipliers == f.multipliers
    requires g.updatedAt == f.updatedAt && g.moonEpoch == f.moonEpoch
    ensures Fits(c, g, crop)
  {
    hide Valid, Boost, EffectSum, Wrap;
  }

  // ---------- where it fails ----------

  const GOLDEN_CROP := Crop("gold", Fast, 0, 1, MAX, 0, AtStart)

  /** Content that passes validation: a crop that sells for the ceiling, and every harvest golden, times ten. */
  ghost function GoldenConfig(): (c: Content)
    ensures Accepted(c)
  {
    Sample(GOLDEN_CROP, Land(1, 100, 1), GoldenHarvest(100, 100), Moon(0, 0, ""))
  }

  /** The unguarded golden multiplication: a saturated sale times 100 / 10 wraps to -10 coins, nothing reaches the
      wallet, and the report claims the ceiling. */
  lemma GoldenOverflow(c: Config, rng: nat)
    requires c == GoldenConfig()
    ensures var t := Tick(New(c, rng, 0), QUIET); var r := Reap(c, t, GOLDEN_CROP);
            && HarvestYield(c, t.farm, GOLDEN_CROP).payout == -10 && PayoutWraps(c, t.farm, GOLDEN_CROP)
            && r.farm.coins == t.farm.coins && r.report.autoCoins == MAX
  {
    hide Roll, Bump, Accepted, Valid;
    assert Roll(c, rng, 100) < 100;
    assert Wrap(MAX * 100) == -100;
  }

  const GOLDEN_PLOT := Plot("gold", 0, true, false, "")

  /** No bonus of any kind applies. */
  lemma GoldenRates(c: Config, f: Farm)
    requires c == GoldenConfig() && f.eventId == ""
    ensures SellBonusPct(c, f, "gold") == 0 && GrowSeconds(c, f, GOLDEN_CROP) == 1
  {
    hide Accepted, Valid, MoonPhase;
  }

  lemma GoldenYield(c: Config, f: Farm)
    requires c == GoldenConfig() && SellBonusPct(c, f, "gold") == 0
    ensures PayoutWraps(c, f, GOLDEN_CROP) && HarvestYield(c, f, GOLDEN_CROP).payout == -10
    ensures HarvestYield(c, f, GOLDEN_CROP).discovery == 0
  {
    hide Accepted, Valid, Roll, SellBonusPct, NextRng;
    assert Roll(c, f.rng, 100) < 100;
    assert Wrap(MAX * 100) == -100;
  }

  /** The golden harvest of a save with money in it, whatever its stream. */
  lemma GoldenReap(c: Config, t: Tick)
    requires c == GoldenConfig() && MoneyOk(t.farm) && t.farm.eventId == ""
    ensures PayoutWraps(c, t.farm, GOLDEN_CROP) && GrowSeconds(c, t.farm, GOLDEN_CROP) == 1
    ensures var g := Reap(c, t, GOLDEN_CROP).farm;
            g.coins == Min(t.farm.coins, MAX) && g.runEarnings == Min(t.farm.runEarnings, MAX)
  {
    GoldenRates(c, t.farm);
    GoldenYield(c, t.farm);
    ReapMoves(c, t, GOLDEN_CROP);
  }

  /** The catch-up of one automatic, unsown plot that is mature: one harvest, and the plot is cleared. */
  lemma OneUnsownPlot(c: Config, t: Tick, crop: Crop, from: int, to: int)
    requires |t.farm.plots| == 1 && t.farm.plots[0].crop == crop.id && crop.id != "" && crop.id in c.cropById
    requires c.cropById[crop.id] == crop && t.farm.plots[0].autoHarvest && !t.farm.plots[0].autoSow
    requires t.farm.plots[0].plantedAt + GrowSeconds(c, t.farm, crop) <= to
    ensures TendPlots(c, t, 0, from, to, false) == ClearPlot(Reap(c, t, crop), 0)
    ensures PayoutWraps(c, t.farm, crop) ==> !PlotsClean(c, t, 0, from, to, false)
  {
    hide Reap, GrowSeconds, PayoutWraps, Valid;
    assert TendPlot(c, t, 0, from, to, false) == ClearPlot(Reap(c, t, crop), 0);
  }

  /** A whole catch-up that misreports: one automatic golden plot, left for 100 seconds. */
  lemma GoldenCatchUp(c: Config, rng: nat)
    requires c == GoldenConfig()
    ensures var f := New(c, rng, 0).(plots := [GOLDEN_PLOT]); var r := Advance(c, f, 100);
            && Inv(c, f) && NoClip(f, r.farm) && !CatchUpClean(c, f, 100)
            && r.farm.coins - f.coins < r.report.autoCoins + r.report.discoveryCoins
  {
    var f := New(c, rng, 0).(plots := [GOLDEN_PLOT]);
    var t := Prelude(c, f, 100);
    GoldenFarmIsInv(c, rng);
    GoldenPrelude(c, f);
    assert "gold" in c.cropById && c.cropById["gold"] == GOLDEN_CROP;
    GoldenStart(c);
    hide Prelude, Accepted, Award, Awarded, PayoutWraps, Reap, GrowSeconds, Inv, Valid, PlotsClean, TendPlots,
         GoldenConfig;
    GoldenReap(c, t);
    OneUnsownPlot(c, t, GOLDEN_CROP, 0, 100);
    ReportBalancesIff(c, f, 100);
  }

  lemma GoldenStart(c: Config)
    requires c == GoldenConfig()
    ensures c.start.coins == 0
  {
    hide Accepted, Valid;
  }

  lemma GoldenFarmIsInv(c: Config, rng: nat)
    requires c == GoldenConfig()
    ensures Inv(c, New(c, rng, 0).(plots := [GOLDEN_PLOT]))
  {
    hide Accepted, Valid;
  }

  lemma GoldenPrelude(c: Config, f: Farm)
    requires c == GoldenConfig() && f.eventId == "" && f.updatedAt == 0
    ensures Prelude(c, f, 100).farm.eventId == ""
  {
    hide Accepted, Valid;
  }
}
