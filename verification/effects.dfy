// What each action asks for and what it leaves, and how an intent is made of them.
module Effects {
  import opened Int64
  import opened Content
  import opened Farms
  import opened Derive
  import opened Actions
  import opened Advancing
  import opened Invariant
  import opened Reporting
  import opened Pricing
  import opened History
  import opened Intents

  // ---------- gates ----------

  /** A gate on earnings or rebirths is shut below its value and open from it on; a zone gate is open to its owner. */
  lemma GateOpensAt(f: Farm, value: int64, zone: string)
    ensures Unlocked(f, AtStart)
    ensures Unlocked(f, AtEarnings(value)) <==> value <= f.lifetimeEarnings
    ensures Unlocked(f, AtPrestige(value)) <==> value <= f.rebirths
    ensures Unlocked(f, InZone(zone)) <==> zone in f.zones && f.zones[zone]
  {
  }

  /** An achievement's condition is met from its value on. */
  lemma AchievementMetAt(f: Farm, value: int64)
    ensures Met(f, Harvests(value)) <==> value <= f.lifetimeHarvests
    ensures Met(f, Earnings(value)) <==> value <= f.lifetimeEarnings
    ensures Met(f, PlotCount(value)) <==> value <= |f.plots|
    ensures Met(f, Condition.Rebirths(value)) <==> value <= f.rebirths
    ensures Met(f, Balance(value)) <==> value <= f.coins
  {
  }

  // ---------- planting ----------

  /** `cropId` is the first, in content order, of the least seed price among the unlocked crops. */
  ghost predicate FirstCheapest(c: Config, f: Farm, cropId: string) {
    exists k :: 0 <= k < |c.crops| && c.crops[k].id == cropId && FirstAt(c, f, k)
  }

  ghost predicate FirstAt(c: Config, f: Farm, k: nat)
    requires k < |c.crops|
  {
    && Unlocked(f, c.crops[k].unlock)
    && forall j | 0 <= j < |c.crops| && Unlocked(f, c.crops[j].unlock) ::
         c.crops[k].seedCost <= c.crops[j].seedCost && (j < k ==> c.crops[k].seedCost < c.crops[j].seedCost)
  }

  /** The search finds the crop at that place, if any crop is unlocked. */
  lemma {:induction false} SearchFinds(c: Config, f: Farm, n: nat) returns (k: nat)
    requires n <= |c.crops| && CheapestUnlocked(c, f, n).Some?
    ensures k < n && CheapestUnlocked(c, f, n).value == c.crops[k] && Unlocked(f, c.crops[k].unlock)
    ensures forall j | 0 <= j < n && Unlocked(f, c.crops[j].unlock) ::
              c.crops[k].seedCost <= c.crops[j].seedCost && (j < k ==> c.crops[k].seedCost < c.crops[j].seedCost)
  {
    hide Unlocked, Valid;
    if CheapestUnlocked(c, f, n - 1).Some? {
      k := SearchFinds(c, f, n - 1);
      if CheapestUnlocked(c, f, n) != CheapestUnlocked(c, f, n - 1) { k := n - 1; }
    } else {
      k := n - 1;
    }
  }

  /** Who plants for nothing: a player whose plots are all empty and whose wallet is short, with the first cheapest
      crop. */
  lemma MercyIff(c: Config, f: Farm, cropId: string)
    requires cropId in c.cropById
    ensures MercyPlantEligible(c, f, cropId)
            <==> (forall i :: 0 <= i < |f.plots| ==> f.plots[i].crop == "") && FirstCheapest(c, f, cropId)
                 && f.coins < SeedCost(c, f, c.cropById[cropId])
  {
    if CheapestUnlocked(c, f, |c.crops|).Some? {
      var k := SearchFinds(c, f, |c.crops|);
      assert c.cropById[c.crops[k].id] == c.crops[k];
      hide Valid, Unlocked, SeedCost, CheapestUnlocked;
      assert FirstAt(c, f, k);
      if FirstCheapest(c, f, cropId) {
        var m :| 0 <= m < |c.crops| && c.crops[m].id == cropId && FirstAt(c, f, m);
        assert m == k;
      }
    } else {
      hide Valid, Unlocked, SeedCost;
    }
  }

  /** Planting is carried out on an empty plot with a known, unlocked crop when the wallet holds the seed's price, or
      when every plot is empty and the crop is the first cheapest; it takes the price exactly if the wallet holds it,
      and plants on that plot alone, whose automation stays. */
  lemma PlantIff(c: Config, f: Farm, i: int, cropId: string, now: int)
    ensures var r := PlantStep(c, f, i, cropId, now);
            && (r.Done? <==>
                  && 0 <= i < |f.plots| && f.plots[i].crop == "" && cropId in c.cropById
                  && Unlocked(f, c.cropById[cropId].unlock)
                  && (SeedCost(c, f, c.cropById[cropId]) <= f.coins
                      || ((forall k :: 0 <= k < |f.plots| ==> f.plots[k].crop == "") && FirstCheapest(c, f, cropId))))
            && (r.Done? ==>
                  var price := SeedCost(c, f, c.cropById[cropId]);
                  r.farm == f.(coins := if price <= f.coins then f.coins - price else f.coins,
                               plots := f.plots[i := f.plots[i].(crop := cropId, plantedAt := now, critter := "")]))
            && (r == Refused(CantAfford) ==> f.coins < SeedCost(c, f, c.cropById[cropId]))
  {
    hide MercyPlantEligible, Unlocked, SeedCost, FirstCheapest, Valid;
    if cropId in c.cropById { MercyIff(c, f, cropId); }
  }

  // ---------- harvesting and critters ----------

  /** A harvest that is carried out banks its yield and leaves on its plot nothing but the automation. */
  lemma HarvestLeaves(c: Config, f: Farm, i: int, now: int)
    requires MoneyOk(f) && HarvestStep(c, f, i, now).Done?
    ensures 0 <= i < |f.plots| && f.plots[i].crop in c.cropById
    ensures var y := HarvestYield(c, f, c.cropById[f.plots[i].crop]);
            var g := HarvestStep(c, f, i, now).farm;
            var gained := Positive(y.payout) + Positive(y.discovery);
            && HarvestStep(c, f, i, now).receipt == Yielded(y)
            && g.plots == f.plots[i := f.plots[i].(crop := "", plantedAt := 0, critter := "")]
            && g.coins == Min(f.coins + gained, MAX) && g.runEarnings == Min(f.runEarnings + gained, MAX)
            && g.lifetimeEarnings == Min(f.lifetimeEarnings + gained, MAX)
            && g.lifetimeHarvests == Min(f.lifetimeHarvests + 1, MAX)
  {
    hide HarvestYield, Ready, Credit, SatAdd, Valid;
    var y := HarvestYield(c, f, c.cropById[f.plots[i].crop]);
    var f0 := f.(rng := y.rng);
    CreditClips(f0, y.payout);
    CreditClips(Credit(f0, y.payout), y.discovery);
    SatAddClips(f.lifetimeHarvests, 1);
  }

  /** The player's switch: it changes nothing but itself, and while it is off no harvest discovers anything. */
  lemma FlavorSwitch(c: Config, f: Farm, on: bool, now: int, crop: Crop)
    ensures var g := f.(flavorEnabled := on);
            Act(c, f, SetFlavor(on), now) == Done(g, Plain) && (!on ==> HarvestYield(c, g, crop).discovery == 0)
  {
    hide Valid, SellMultiplied, Salvage, Gilded, Roll, NextRng;
  }

  /** Shooing takes the critter off its plot and credits a reward between the bounds. */
  lemma ShooIff(c: Config, f: Farm, i: int)
    ensures var r := ShooCritterStep(c, f, i);
            && (r.Done? <==> 0 <= i < |f.plots| && f.plots[i].critter != "")
            && (r.Done? ==>
                  && r.receipt.Reward? && r.farm.plots == f.plots[i := f.plots[i].(critter := "")]
                  && (c.critters.shooRewardMin <= c.critters.shooRewardMax ==>
                        c.critters.shooRewardMin <= r.receipt.reward <= c.critters.shooRewardMax))
  {
    hide RollRange, RangeRng, Credit, Valid;
  }

  lemma ShooPays(c: Config, f: Farm, i: int)
    requires MoneyOk(f) && ShooCritterStep(c, f, i).Done?
    ensures ShooCritterStep(c, f, i).receipt.Reward?
    ensures ShooCritterStep(c, f, i).farm.coins == Min(f.coins + Positive(ShooCritterStep(c, f, i).receipt.reward), MAX)
  {
    hide RollRange, RangeRng, Credit, Valid;
    var reward := RollRange(c, f.rng, c.critters.shooRewardMin, c.critters.shooRewardMax);
    CreditClips(f.(plots := f.plots[i := f.plots[i].(critter := "")],
                   rng := RangeRng(f.rng, c.critters.shooRewardMin, c.critters.shooRewardMax)), reward);
  }

  // ---------- purchases ----------

  /** A plot can be bought below the limit for its price; it comes empty, after the others. */
  lemma BuyPlotIff(c: Config, f: Farm)
    ensures var r := BuyPlotStep(c, f); var maxed := c.start.plots + f.purchasedPlots >= c.land.maxPlots;
            && (r == Refused(Maxed) <==> maxed) && (r.Done? <==> !maxed && PlotPrice(c, f) <= f.coins)
            && (r.Done? ==>
                  r == Done(f.(coins := f.coins - PlotPrice(c, f), purchasedPlots := f.purchasedPlots + 1,
                               plots := f.plots + [EMPTY_PLOT]), Cost(PlotPrice(c, f))))
  {
    hide Compound, Discounted, UpgradeSum, Valid;
  }

  /** A known, unlocked zone can be bought once for its price; it brings its plots, empty, after the others. */
  lemma BuyZoneIff(c: Config, f: Farm, id: string)
    ensures var r := BuyZoneStep(c, f, id);
            && (r.Done? <==> id in c.zoneById && !Owns(f.zones, id) && Unlocked(f, c.zoneById[id].unlock)
                             && c.zoneById[id].cost <= f.coins)
            && (r.Done? ==>
                  && r.farm == f.(coins := f.coins - c.zoneById[id].cost, zones := r.farm.zones, plots := r.farm.plots)
                  && (forall z :: Owns(r.farm.zones, z) <==> Owns(f.zones, z) || z == id)
                  && |r.farm.plots| == |f.plots| + c.zoneById[id].extraPlots
                  && (forall k | 0 <= k < |r.farm.plots| ::
                        r.farm.plots[k] == if k < |f.plots| then f.plots[k] else EMPTY_PLOT))
  {
    hide Unlocked;
    if id in c.zoneById { assert c.zoneById[id] in c.zones; }
  }

  /** `g` has one level more of `id` than `f`, and of no other. */
  ghost predicate Raised(f: map<string, int>, g: map<string, int>, id: string) {
    forall k :: Level(g, k) == Level(f, k) + if k == id then 1 else 0
  }

  /** Below its maximum a known multiplier can be bought for its price; it gains one level. */
  lemma BuyMultiplierIff(c: Config, f: Farm, id: string)
    requires Level(f.multipliers, id) >= 0
    ensures var r := BuyMultiplierStep(c, f, id);
            && (r == Refused(UnknownItem) <==> id !in c.multiplierById)
            && (id in c.multiplierById ==>
                  var m, level := c.multiplierById[id], Level(f.multipliers, id);
                  var price := Compound(m.cost, m.costGrowthPct, level);
                  && (r == Refused(Maxed) <==> level >= m.maxLevel)
                  && (r.Done? <==> level < m.maxLevel && price <= f.coins)
                  && (r.Done? ==> r.farm == f.(coins := f.coins - price, multipliers := r.farm.multipliers)
                                  && Raised(f.multipliers, r.farm.multipliers, id)))
  {
    hide Compound, LevelPrice, Raised, Indexed, ValidPerk, Level, Wrap;
    if id in c.multiplierById {
      var m, level := c.multiplierById[id], Level(f.multipliers, id);
      MultiplierIsPriced(c, id);
      LevelPriceIs(m.cost, m.costGrowthPct, m.maxLevel, level);
      RaisedByOne(f.multipliers, id);
      if level < m.maxLevel { PaidFits(f.coins, Compound(m.cost, m.costGrowthPct, level)); }
    }
  }

  lemma MultiplierIsPriced(c: Config, id: string)
    requires id in c.multiplierById
    ensures var m := c.multiplierById[id]; m.id == id && m.cost >= 1 && m.costGrowthPct >= 100
  {
    assert c.multiplierById[id] in c.multipliers;
  }

  lemma UpgradeIsPriced(c: Config, id: string)
    requires id in c.upgradeById
    ensures var u := c.upgradeById[id]; u.id == id && u.cost >= 1 && u.costGrowthPct >= 100
  {
    assert c.upgradeById[id] in c.upgrades;
  }

  /** Below the maximum a level costs its point of the curve, at least 1; at the maximum there is no price. */
  lemma LevelPriceIs(cost: int64, growthPct: int64, maxLevel: int64, level: int)
    requires cost >= 1 && growthPct >= 100 && level >= 0
    ensures LevelPrice(cost, growthPct, maxLevel, level)
            == if level >= maxLevel then -1 else Compound(cost, growthPct, level)
    ensures Compound(cost, growthPct, level) >= 1
  {
    hide Compound;
    CompoundPositive(cost, growthPct, level);
  }

  lemma RaisedByOne(levels: map<string, int>, id: string)
    ensures Raised(levels, levels[id := Level(levels, id) + 1], id)
  {
  }

  lemma PaidFits(coins: int64, price: int)
    requires price >= 1
    ensures price <= coins ==> Wrap(coins - price) == coins - price
  {
  }

  /** Below its maximum a known upgrade can be bought for its price in Starseeds; it gains one level. */
  lemma BuyUpgradeIff(c: Config, f: Farm, id: string)
    requires Level(f.upgrades, id) >= 0
    ensures var r := BuyUpgradeStep(c, f, id);
            && (r == Refused(UnknownItem) <==> id !in c.upgradeById)
            && (id in c.upgradeById ==>
                  var u, level := c.upgradeById[id], Level(f.upgrades, id);
                  var price := Compound(u.cost, u.costGrowthPct, level);
                  && (r == Refused(Maxed) <==> level >= u.maxLevel)
                  && (r.Done? <==> level < u.maxLevel && price <= f.prestige)
                  && (r.Done? ==> r.farm == f.(prestige := f.prestige - price, upgrades := r.farm.upgrades)
                                  && Raised(f.upgrades, r.farm.upgrades, id)))
  {
    hide Compound, LevelPrice, Raised, Indexed, ValidPerk, Level, Wrap;
    if id in c.upgradeById {
      var u, level := c.upgradeById[id], Level(f.upgrades, id);
      UpgradeIsPriced(c, id);
      LevelPriceIs(u.cost, u.costGrowthPct, u.maxLevel, level);
      RaisedByOne(f.upgrades, id);
      if level < u.maxLevel { PaidFits(f.prestige, Compound(u.cost, u.costGrowthPct, level)); }
    }
  }

  /** Below its maximum a known strain of a known, unlocked crop can be bought for its price; the crop gains one
      level. */
  lemma BuySeedUpgradeIff(c: Config, f: Farm, id: string)
    requires id in c.seedUpgradeById && Level(f.seedUpgrades, c.seedUpgradeById[id].cropId) >= 0
    ensures var r := BuySeedUpgradeStep(c, f, id);
            var su := c.seedUpgradeById[id]; var level := Level(f.seedUpgrades, su.cropId);
            assert su in c.seedUpgrades; var price := Compound(su.cost, su.costGrowthPct, level);
            var open := su.cropId in c.cropById && Unlocked(f, c.cropById[su.cropId].unlock);
            && (r == Refused(Locked) <==> !open) && (r == Refused(Maxed) <==> open && level >= su.maxLevel)
            && (r.Done? <==> open && level < su.maxLevel && price <= f.coins)
            && (r.Done? ==> r.farm == f.(coins := f.coins - price, seedUpgrades := r.farm.seedUpgrades)
                            && Raised(f.seedUpgrades, r.farm.seedUpgrades, su.cropId))
  {
    hide Compound, LevelPrice, Raised, Unlocked, Level, Wrap;
    var su := c.seedUpgradeById[id];
    assert su in c.seedUpgrades;
    hide Valid;
    var level := Level(f.seedUpgrades, su.cropId);
    LevelPriceIs(su.cost, su.costGrowthPct, su.maxLevel, level);
    RaisedByOne(f.seedUpgrades, su.cropId);
    if level < su.maxLevel { PaidFits(f.coins, Compound(su.cost, su.costGrowthPct, level)); }
  }

  /** Auto-harvest can be bought for a plot that has none. The plot gains just that flag. */
  lemma AutoHarvestIff(c: Config, f: Farm, i: int)
    ensures var r := UpgradePlotAutoStep(c, f, i, AutoHarvest);
            && (r.Done? <==> 0 <= i < |f.plots| && !f.plots[i].autoHarvest && AutoHarvestPrice(c, f) <= f.coins)
            && (r.Done? ==> r.farm == f.(coins := f.coins - AutoHarvestPrice(c, f),
                                         plots := f.plots[i := f.plots[i].(autoHarvest := true)]))
    ensures !UpgradePlotAutoStep(c, f, i, OtherKind).Done?
  {
    hide AutoHarvestPrice, Valid, Wrap;
    PaidFits(f.coins, AutoHarvestPrice(c, f));
  }

  /** Auto-sow can be bought, from its earnings on, for a plot that has auto-harvest and no auto-sow. The plot gains
      just that flag. */
  lemma AutoSowIff(c: Config, f: Farm, i: int)
    ensures var r := UpgradePlotAutoStep(c, f, i, AutoSow); var price := c.plotAutomation.autoSowCost;
            && (r.Done? <==>
                  && 0 <= i < |f.plots| && f.plots[i].autoHarvest && !f.plots[i].autoSow
                  && c.plotAutomation.autoSowMinEarnings <= f.lifetimeEarnings && price <= f.coins)
            && (r.Done? ==> r.farm == f.(coins := f.coins - price, plots := f.plots[i := f.plots[i].(autoSow := true)]))
  {
    hide AutoHarvestPrice, Indexed, ValidCrop, ValidPerk, Wrap;
    PaidFits(f.coins, c.plotAutomation.autoSowCost);
  }

  // ---------- intents ----------

  /** An intent is a stretch of history: a catch-up to its instant, and, if the action is then allowed, the action and a
      look at the achievements. */
  lemma IntentIsHistory(c: Config, f: Farm, now: int, a: Action)
    ensures AfterIntent(c, f, now, a)
            == if IntentError(c, f, now, a).None? then Play(c, f, [Pass(now), Do(a, now), Check(now)])
               else Play(c, f, [Pass(now)])
  {
    hide Advance, Act, Award;
    PlaysOne(c, f, Pass(now));
    assert [Pass(now), Do(a, now)][..1] == [Pass(now)];
    assert [Pass(now), Do(a, now), Check(now)][..2] == [Pass(now), Do(a, now)];
  }

  lemma PlaysOne(c: Config, f: Farm, m: Move)
    ensures Play(c, f, [m]) == After(c, f, m)
  {
    hide After;
    assert [m][..0] == [];
  }

  /** It marks the save dirty exactly when time passed or the action was allowed. */
  lemma DirtiesIff(c: Config, f: Farm, now: int, a: Action)
    ensures IntentDirties(c, f, now, a) <==> now > f.updatedAt || IntentError(c, f, now, a).None?
  {
    hide Advance, Act;
    CleanAdvance(c, f, now);
  }
}
