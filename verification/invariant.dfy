// What every reachable save satisfies, and that no action and no catch-up breaks it.
module Invariant {
  import opened Int64
  import opened Content
  import opened Farms
  import opened Derive
  import opened Actions
  import opened Advancing

  // ---------- the invariant ----------

  ghost predicate PlotOk(c: Config, f: Farm, p: Plot) {
    && (p.crop != "" ==> p.crop in c.cropById && Unlocked(f, c.cropById[p.crop].unlock) && p.critter == "")
    && (p.autoSow ==> p.autoHarvest)
  }

  ghost predicate PlotsOk(c: Config, f: Farm) {
    forall i :: 0 <= i < |f.plots| ==> PlotOk(c, f, f.plots[i])
  }

  /** Extra plots of the owned zones among the first `n`. */
  function ZonePlots(c: Config, zones: map<string, bool>, n: nat): int
    requires n <= |c.zones|
  {
    if n == 0 then 0
    else ZonePlots(c, zones, n - 1) + if Owns(zones, c.zones[n - 1].id) then c.zones[n - 1].extraPlots else 0
  }

  ghost predicate PerksWithin(perks: seq<Perk>, levels: map<string, int>) {
    && (forall u <- perks :: 0 <= Level(levels, u.id) <= u.maxLevel)
    && (forall id <- levels :: exists u <- perks :: u.id == id)
  }

  ghost predicate StrainsWithin(c: Config, levels: map<string, int>) {
    && (forall su <- c.seedUpgrades :: 0 <= Level(levels, su.cropId) <= su.maxLevel)
    && (forall id <- levels :: exists su <- c.seedUpgrades :: su.cropId == id)
  }

  ghost predicate MoneyOk(f: Farm) {
    0 <= f.coins && 0 <= f.runEarnings <= f.lifetimeEarnings && 0 <= f.prestige && 0 <= f.lifetimeHarvests
        && 0 <= f.rebirths
  }

  ghost predicate LandOk(c: Config, f: Farm) {
    && 0 <= f.purchasedPlots && c.start.plots + f.purchasedPlots <= c.land.maxPlots
    && |f.plots| == c.start.plots + f.purchasedPlots + ZonePlots(c, f.zones, |c.zones|)
  }

  ghost predicate LevelsOk(c: Config, f: Farm) {
    PerksWithin(c.upgrades, f.upgrades) && PerksWithin(c.multipliers, f.multipliers) && StrainsWithin(c, f.seedUpgrades)
  }

  /** A set event is a known one. */
  ghost predicate EventKnown(c: Config, f: Farm) { f.eventId != "" ==> f.eventId in c.eventById }

  ghost predicate Sound(c: Config, f: Farm) {
    MoneyOk(f) && PlotsOk(c, f) && LandOk(c, f) && LevelsOk(c, f)
  }

  ghost predicate Inv(c: Config, f: Farm) {
    Sound(c, f) && EventKnown(c, f)
  }

  // ---------- frames ----------

  /** `g` has everything `f` has on the board, and no gate of `f` has closed. */
  ghost predicate SameBoard(f: Farm, g: Farm) {
    && g.plots == f.plots && g.purchasedPlots == f.purchasedPlots && g.zones == f.zones
    && g.upgrades == f.upgrades && g.multipliers == f.multipliers && g.seedUpgrades == f.seedUpgrades
    && g.lifetimeEarnings >= f.lifetimeEarnings && g.rebirths >= f.rebirths
  }

  lemma SameBoardKeeps(c: Config, f: Farm, g: Farm)
    requires Sound(c, f) && SameBoard(f, g) && MoneyOk(g)
    ensures Sound(c, g)
  {
    forall i | 0 <= i < |g.plots| ensures PlotOk(c, g, g.plots[i]) { assert PlotOk(c, f, f.plots[i]); }
  }

  lemma PlotsStay(c: Config, f: Farm, g: Farm)
    requires PlotsOk(c, f) && g.plots == f.plots && g.zones == f.zones
    requires g.lifetimeEarnings >= f.lifetimeEarnings && g.rebirths >= f.rebirths
    ensures PlotsOk(c, g)
  {
    forall i | 0 <= i < |g.plots| ensures PlotOk(c, g, g.plots[i]) { assert PlotOk(c, f, f.plots[i]); }
  }

  lemma OnePlotKeeps(c: Config, f: Farm, i: nat, p: Plot)
    requires Sound(c, f) && i < |f.plots| && PlotOk(c, f, p)
    ensures Sound(c, f.(plots := f.plots[i := p]))
  {
    var g := f.(plots := f.plots[i := p]);
    forall k | 0 <= k < |g.plots| ensures PlotOk(c, g, g.plots[k]) { assert PlotOk(c, f, f.plots[k]); }
  }

  /** The exact effect of a credit on the three counters, ceiling included. */
  lemma CreditClips(f: Farm, amount: int64)
    requires MoneyOk(f)
    ensures Credit(f, amount) == f.(coins := Credit(f, amount).coins, runEarnings := Credit(f, amount).runEarnings,
                                    lifetimeEarnings := Credit(f, amount).lifetimeEarnings)
    ensures var paid := if amount > 0 then amount else 0;
            && Credit(f, amount).coins == Min(f.coins + paid, MAX)
            && Credit(f, amount).runEarnings == Min(f.runEarnings + paid, MAX)
            && Credit(f, amount).lifetimeEarnings == Min(f.lifetimeEarnings + paid, MAX)
  {
    if amount > 0 {
      SatAddClips(f.coins, amount);
      SatAddClips(f.runEarnings, amount);
      SatAddClips(f.lifetimeEarnings, amount);
    }
  }

  lemma CreditKeeps(c: Config, f: Farm, amount: int64)
    requires Sound(c, f)
    ensures Sound(c, Credit(f, amount)) && SameBoard(f, Credit(f, amount)) && Credit(f, amount).coins >= f.coins
  {
    CreditClips(f, amount);
    SameBoardKeeps(c, f, Credit(f, amount));
  }

  lemma BankKeeps(c: Config, f: Farm, y: Yield)
    requires Sound(c, f)
    ensures Sound(c, Bank(f, y)) && SameBoard(f, Bank(f, y)) && Bank(f, y).coins >= f.coins
  {
    hide Valid, Sound, SatAdd, Credit;
    var f0 := f.(rng := y.rng);
    StreamKeeps(c, f, y.rng);
    CreditKeeps(c, f0, y.payout);
    var f1 := Credit(f0, y.payout);
    CreditKeeps(c, f1, y.discovery);
    var f2 := if y.discovery > 0 then Credit(f1, y.discovery) else f1;
    CountKeeps(c, f2);
  }

  lemma StreamKeeps(c: Config, f: Farm, rng: nat)
    requires Sound(c, f)
    ensures Sound(c, f.(rng := rng))
  {
    hide Valid, PlotsOk, LandOk, LevelsOk;
    SameBoardKeeps(c, f, f.(rng := rng));
  }

  lemma CountKeeps(c: Config, f: Farm)
    requires Sound(c, f)
    ensures Sound(c, f.(lifetimeHarvests := SatAdd(f.lifetimeHarvests, 1)))
  {
    hide Valid, PlotsOk, LandOk, LevelsOk;
    SameBoardKeeps(c, f, f.(lifetimeHarvests := SatAdd(f.lifetimeHarvests, 1)));
  }

  /** Spending what the wallet holds keeps the rest of the save as it was. */
  lemma SpendKeeps(c: Config, f: Farm, cost: int64)
    requires Sound(c, f) && 0 <= cost <= f.coins
    ensures Sound(c, f.(coins := Wrap(f.coins - cost))) && Wrap(f.coins - cost) == f.coins - cost
  {
    SameBoardKeeps(c, f, f.(coins := Wrap(f.coins - cost)));
  }

  // ---------- actions ----------

  lemma PlantKeeps(c: Config, f: Farm, i: int, cropId: string, now: int)
    requires Sound(c, f) && PlantStep(c, f, i, cropId, now).Done?
    ensures Sound(c, PlantStep(c, f, i, cropId, now).farm)
  {
    assert PlotOk(c, f, f.plots[i]);
    var p := Plot(cropId, now, f.plots[i].autoHarvest, f.plots[i].autoSow, "");
    OnePlotKeeps(c, f, i, p);
    var planted := f.(plots := f.plots[i := p]);
    if !MercyPlantEligible(c, f, cropId) { SpendKeeps(c, planted, SeedCost(c, f, c.cropById[cropId])); }
  }

  lemma HarvestKeeps(c: Config, f: Farm, i: int, now: int)
    requires Sound(c, f) && HarvestStep(c, f, i, now).Done?
    ensures Sound(c, HarvestStep(c, f, i, now).farm)
  {
    assert PlotOk(c, f, f.plots[i]);
    var y := HarvestYield(c, f, c.cropById[f.plots[i].crop]);
    BankKeeps(c, f, y);
    OnePlotKeeps(c, Bank(f, y), i, Plot("", 0, f.plots[i].autoHarvest, f.plots[i].autoSow, ""));
  }

  /** Appending `n` empty plots. */
  lemma GrowKeepsPlots(c: Config, f: Farm, g: Farm, n: nat)
    requires PlotsOk(c, f) && g.plots == f.plots + EmptyPlots(n)
    requires g.lifetimeEarnings == f.lifetimeEarnings && g.rebirths == f.rebirths
    requires forall z :: Owns(f.zones, z) ==> Owns(g.zones, z)
    ensures PlotsOk(c, g)
  {
    forall i | 0 <= i < |g.plots| ensures PlotOk(c, g, g.plots[i]) {
      if i < |f.plots| { assert PlotOk(c, f, f.plots[i]); } else { assert g.plots[i] == EMPTY_PLOT; }
    }
  }

  lemma BuyPlotKeeps(c: Config, f: Farm)
    requires Sound(c, f) && BuyPlotStep(c, f).Done?
    ensures Sound(c, BuyPlotStep(c, f).farm)
  {
    var g := BuyPlotStep(c, f).farm;
    assert EmptyPlots(1) == [EMPTY_PLOT];
    GrowKeepsPlots(c, f, g, 1);
  }

  lemma {:induction false} ZonePlotsBuy(c: Config, zones: map<string, bool>, k: nat, n: nat)
    requires k < |c.zones| && n <= |c.zones| && !Owns(zones, c.zones[k].id)
    ensures ZonePlots(c, zones[c.zones[k].id := true], n)
            == ZonePlots(c, zones, n) + if k < n then c.zones[k].extraPlots else 0
  {
    if n > 0 {
      ZonePlotsBuy(c, zones, k, n - 1);
      if n - 1 < k { assert c.zones[n - 1].id != c.zones[k].id; }
      if k < n - 1 { assert c.zones[k].id != c.zones[n - 1].id; }
    }
  }

  lemma BuyZoneKeeps(c: Config, f: Farm, id: string)
    requires Sound(c, f) && BuyZoneStep(c, f, id).Done?
    ensures Sound(c, BuyZoneStep(c, f, id).farm)
  {
    var g := BuyZoneStep(c, f, id).farm;
    var zone := c.zoneById[id];
    assert zone in c.zones;
    var k :| 0 <= k < |c.zones| && c.zones[k] == zone;
    ZonePlotsBuy(c, f.zones, k, |c.zones|);
    GrowKeepsPlots(c, f, g, zone.extraPlots);
  }

  lemma RaiseKeepsWithin(perks: seq<Perk>, levels: map<string, int>, u: Perk)
    requires PerksWithin(perks, levels) && u in perks && Level(levels, u.id) < u.maxLevel
    requires forall v <- perks :: v.id == u.id ==> v == u
    ensures PerksWithin(perks, levels[u.id := Level(levels, u.id) + 1])
  {
    var raised := levels[u.id := Level(levels, u.id) + 1];
    forall id | id in raised ensures exists v <- perks :: v.id == id {
      if id != u.id { assert id in levels; }
    }
  }

  lemma BuyMultiplierKeeps(c: Config, f: Farm, id: string)
    requires Sound(c, f) && BuyMultiplierStep(c, f, id).Done?
    ensures Sound(c, BuyMultiplierStep(c, f, id).farm)
  {
    hide Compound, ZonePlots, StrainsWithin, PerksWithin, PlotsOk, ValidCrop, Unlocked, Owns;
    var m := c.multiplierById[id];
    forall v | v in c.multipliers && v.id == m.id ensures v == m {
      var k :| 0 <= k < |c.multipliers| && c.multipliers[k] == v;
    }
    RaiseKeepsWithin(c.multipliers, f.multipliers, m);
    PlotsStay(c, f, BuyMultiplierStep(c, f, id).farm);
  }

  lemma UpgradeIdsDiffer(c: Config, u: Perk)
    requires u in c.upgrades
    ensures forall v <- c.upgrades :: v.id == u.id ==> v == u
  {
    forall v | v in c.upgrades && v.id == u.id ensures v == u {
      var k :| 0 <= k < |c.upgrades| && c.upgrades[k] == v;
    }
  }

  lemma BuyUpgradeKeeps(c: Config, f: Farm, id: string)
    requires Sound(c, f) && BuyUpgradeStep(c, f, id).Done?
    ensures Sound(c, BuyUpgradeStep(c, f, id).farm)
  {
    hide Compound, ZonePlots, StrainsWithin, PerksWithin, PlotsOk, ValidCrop, Unlocked, Owns;
    var u := c.upgradeById[id];
    UpgradeIdsDiffer(c, u);
    RaiseKeepsWithin(c.upgrades, f.upgrades, u);
    PlotsStay(c, f, BuyUpgradeStep(c, f, id).farm);
  }

  lemma BuySeedUpgradeKeeps(c: Config, f: Farm, id: string)
    requires Sound(c, f) && BuySeedUpgradeStep(c, f, id).Done?
    ensures Sound(c, BuySeedUpgradeStep(c, f, id).farm)
  {
    hide Compound, ZonePlots, PerksWithin, PlotsOk, Unlocked, ValidCrop;
    var su := c.seedUpgradeById[id];
    var g := BuySeedUpgradeStep(c, f, id).farm;
    forall s | s in c.seedUpgrades ensures 0 <= Level(g.seedUpgrades, s.cropId) <= s.maxLevel { }
    forall k | k in g.seedUpgrades ensures exists s <- c.seedUpgrades :: s.cropId == k {
      if k != su.cropId { assert k in f.seedUpgrades; }
    }
    PlotsStay(c, f, g);
  }

  lemma UpgradePlotAutoKeeps(c: Config, f: Farm, i: int, kind: AutoKind)
    requires Sound(c, f) && UpgradePlotAutoStep(c, f, i, kind).Done?
    ensures Sound(c, UpgradePlotAutoStep(c, f, i, kind).farm)
  {
    hide Indexed, LandOk, LevelsOk, AutoHarvestPrice;
    assert PlotOk(c, f, f.plots[i]);
    var g := UpgradePlotAutoStep(c, f, i, kind).farm;
    OnePlotKeeps(c, f, i, g.plots[i]);
    SpendKeeps(c, f.(plots := g.plots), if kind.AutoSow? then c.plotAutomation.autoSowCost else AutoHarvestPrice(c, f));
  }

  lemma StarseedParcelKeeps(c: Config, f: Farm, seeds: int64)
    requires Sound(c, f)
    ensures Sound(c, Unwrapped(f).(prestige := SatAdd(f.prestige, seeds)))
  {
    SeedsKeepPrestige(f.prestige, seeds);
    SameBoardKeeps(c, f, Unwrapped(f).(prestige := SatAdd(f.prestige, seeds)));
  }

  lemma CoinParcelKeeps(c: Config, f: Farm, rng: nat, coins: int64)
    requires Sound(c, f)
    ensures Sound(c, Credit(Unwrapped(f).(rng := rng), coins))
  {
    var taken := Unwrapped(f).(rng := rng);
    SameBoardKeeps(c, f, taken);
    CreditKeeps(c, taken, coins);
  }

  lemma RedeemGiftKeeps(c: Config, f: Farm)
    requires Sound(c, f) && RedeemGiftStep(c, f).Done?
    ensures Sound(c, RedeemGiftStep(c, f).farm)
  {
    if HoldsStarseeds(c, f) {
      StarseedParcelKeeps(c, f, GiftSeeds(c, f));
    } else {
      CoinParcelKeeps(c, f, GiftRng(c, f), GiftCoins(c, f, Unwrapped(f).rng));
    }
  }

  lemma SeedsKeepPrestige(prestige: int64, seeds: int64)
    requires prestige >= 0
    ensures SatAdd(prestige, seeds) >= 0
  {
    if seeds >= 0 { SatAddClips(prestige, seeds); } else { SatAddNegative(prestige, seeds); }
  }

  lemma ShooCritterKeeps(c: Config, f: Farm, i: int)
    requires Sound(c, f) && ShooCritterStep(c, f, i).Done?
    ensures Sound(c, ShooCritterStep(c, f, i).farm)
  {
    assert PlotOk(c, f, f.plots[i]);
    OnePlotKeeps(c, f, i, f.plots[i].(critter := ""));
    var shooed := f.(plots := f.plots[i := f.plots[i].(critter := "")], rng := ShooCritterStep(c, f, i).farm.rng);
    SameBoardKeeps(c, f.(plots := shooed.plots), shooed);
    CreditKeeps(c, shooed, ShooCritterStep(c, f, i).receipt.reward);
  }

  lemma {:induction false} ZonePlotsNone(c: Config, n: nat)
    requires n <= |c.zones|
    ensures ZonePlots(c, map[], n) == 0
  {
    if n > 0 { ZonePlotsNone(c, n - 1); }
  }

  lemma {:induction false} OpeningCoinsAtLeast(c: Config, upgrades: map<string, int>, n: nat)
    requires PerksWithin(c.upgrades, upgrades) && n <= |c.upgrades|
    ensures OpeningCoins(c, upgrades, n) >= 0
  {
    if n > 0 {
      OpeningCoinsAtLeast(c, upgrades, n - 1);
    }
  }

  lemma RebirthKeeps(c: Config, f: Farm, now: int)
    requires Sound(c, f) && RebirthStep(c, f, now).Done?
    ensures Inv(c, RebirthStep(c, f, now).farm)
  {
    hide Isqrt, CanRebirth, PrestigeGain, OpeningCoins, Unlocked;
    var g := RebirthStep(c, f, now).farm;
    SeedsKeepPrestige(f.prestige, Wrap(PrestigeGain(c, f)));
    OpeningCoinsAtLeast(c, f.upgrades, |c.upgrades|);
    ZonePlotsNone(c, |c.zones|);
    assert forall i :: 0 <= i < |g.plots| ==> g.plots[i] == EMPTY_PLOT;
  }

  lemma SetFarmNameKeeps(c: Config, f: Farm, name: string)
    requires Sound(c, f) && SetFarmNameStep(f, name).Done?
    ensures Sound(c, SetFarmNameStep(f, name).farm)
  {
    SameBoardKeeps(c, f, SetFarmNameStep(f, name).farm);
  }

  lemma SetFlavorKeeps(c: Config, f: Farm, enabled: bool)
    requires Sound(c, f)
    ensures Sound(c, f.(flavorEnabled := enabled))
  {
    SameBoardKeeps(c, f, f.(flavorEnabled := enabled));
  }

  /** Only a rebirth touches the clock or the event. */
  lemma ActKeepsEvent(c: Config, f: Farm, a: Action, now: int)
    requires Act(c, f, a, now).Done? && !a.Rebirth?
    ensures var g := Act(c, f, a, now).farm;
            g.updatedAt == f.updatedAt && g.eventId == f.eventId && g.eventEndsAt == f.eventEndsAt
  {
    hide PlantStep, HarvestStep, BuyPlotStep, BuyZoneStep, BuyMultiplierStep, BuySeedUpgradeStep,
         UpgradePlotAutoStep, BuyUpgradeStep, RedeemGiftStep, ShooCritterStep, SetFarmNameStep, RebirthStep;
  }

  lemma ActKeeps(c: Config, f: Farm, a: Action, now: int)
    requires Inv(c, f) && Act(c, f, a, now).Done?
    ensures Inv(c, Act(c, f, a, now).farm)
  {
    hide Sound, PlantStep, HarvestStep, BuyPlotStep, BuyZoneStep, BuyMultiplierStep, BuySeedUpgradeStep,
         UpgradePlotAutoStep, BuyUpgradeStep, RedeemGiftStep, ShooCritterStep, SetFarmNameStep, RebirthStep;
    if !a.Rebirth? { ActKeepsEvent(c, f, a, now); }
    match a
    case Plant(i, cropId) => PlantKeeps(c, f, i, cropId, now);
    case Harvest(i) => HarvestKeeps(c, f, i, now);
    case BuyPlot => BuyPlotKeeps(c, f);
    case BuyZone(id) => BuyZoneKeeps(c, f, id);
    case BuyMultiplier(id) => BuyMultiplierKeeps(c, f, id);
    case BuySeedUpgrade(id) => BuySeedUpgradeKeeps(c, f, id);
    case UpgradePlotAuto(i, kind) => UpgradePlotAutoKeeps(c, f, i, kind);
    case BuyUpgrade(id) => BuyUpgradeKeeps(c, f, id);
    case RedeemGift => RedeemGiftKeeps(c, f);
    case ShooCritter(i) => ShooCritterKeeps(c, f, i);
    case SetFarmName(name) => SetFarmNameKeeps(c, f, name);
    case Rebirth => RebirthKeeps(c, f, now);
    case SetFlavor(enabled) => SetFlavorKeeps(c, f, enabled);
  }

  // ---------- catch-up ----------

  /** What the plot loops never touch. */
  ghost predicate SameSetup(f: Farm, g: Farm) {
    && g.purchasedPlots == f.purchasedPlots && g.zones == f.zones && g.tools == f.tools
    && g.upgrades == f.upgrades && g.multipliers == f.multipliers && g.seedUpgrades == f.seedUpgrades
    && g.rebirths == f.rebirths && g.prestige == f.prestige && g.flavorEnabled == f.flavorEnabled
    && g.eventId == f.eventId && g.eventEndsAt == f.eventEndsAt && g.updatedAt == f.updatedAt
    && g.moonEpoch == f.moonEpoch
    && g.version == f.version && g.achievements == f.achievements && |g.plots| == |f.plots|
    && g.giftPending == f.giftPending && g.giftArrivedAt == f.giftArrivedAt && g.farmName == f.farmName
  }

  lemma SameSetupSelf(f: Farm)
    ensures SameSetup(f, f)
  {
  }

  lemma SameSetupTrans(f: Farm, g: Farm, h: Farm)
    requires SameSetup(f, g) && SameSetup(g, h)
    ensures SameSetup(f, h)
  {
  }

  lemma ReapKeeps(c: Config, t: Tick, crop: Crop)
    requires Sound(c, t.farm)
    ensures var r := Reap(c, t, crop); Sound(c, r.farm) && SameBoard(t.farm, r.farm) && SameSetup(t.farm, r.farm)
  {
    BankKeeps(c, t.farm, HarvestYield(c, t.farm, crop));
  }

  lemma ReplantKeeps(c: Config, t: Tick, i: nat, crop: Crop, matureAt: int)
    requires Sound(c, t.farm) && i < |t.farm.plots| && CanReplant(c, t.farm, i, crop)
    ensures var r := Replant(c, t, i, crop, matureAt); Sound(c, r.farm) && SameSetup(t.farm, r.farm)
  {
    hide Valid, LandOk, LevelsOk, SeedCost, Unlocked;
    var f := t.farm;
    assert PlotOk(c, f, f.plots[i]);
    OnePlotKeeps(c, f, i, f.plots[i].(plantedAt := matureAt));
    SpendKeeps(c, f.(plots := f.plots[i := f.plots[i].(plantedAt := matureAt)]), SeedCost(c, f, crop));
  }

  lemma ClearKeeps(c: Config, t: Tick, i: nat)
    requires Sound(c, t.farm) && i < |t.farm.plots|
    ensures Sound(c, ClearPlot(t, i).farm) && SameSetup(t.farm, ClearPlot(t, i).farm)
  {
    assert PlotOk(c, t.farm, t.farm.plots[i]);
    OnePlotKeeps(c, t.farm, i, t.farm.plots[i].(crop := "", plantedAt := 0));
  }

  lemma BatchKeeps(c: Config, t: Tick, i: nat, crop: Crop, grow: int, matureAt: int, to: int)
    requires Sound(c, t.farm) && i < |t.farm.plots| && grow >= 1 && matureAt <= to && CanBatch(c, t.farm, i, crop)
    ensures var r := Batch(c, t, i, crop, grow, matureAt, to); Sound(c, r.farm) && SameSetup(t.farm, r.farm)
  {
    hide HarvestYield, ExpectedPayout, SeedCost, Unlocked, Wrap, SatAdd, SatMul, Credit, Level, Bump, ZonePlots;
    var f := t.farm;
    var n := Due(matureAt, grow, to);
    QuotientBound(to - matureAt, grow);
    var paid := Credit(f, SatMul(ExpectedPayout(c, f, crop), n));
    CreditKeeps(c, f, SatMul(ExpectedPayout(c, f, crop), n));
    var seeds := Min(SatMul(SeedCost(c, f, crop), n), paid.coins);
    SatMulNonNegative(SeedCost(c, f, crop), n);
    SpendKeeps(c, paid, seeds);
    var spent := paid.(coins := Wrap(paid.coins - seeds));
    assert PlotOk(c, spent, spent.plots[i]);
    OnePlotKeeps(c, spent, i, f.plots[i].(plantedAt := matureAt + (n - 1) * grow));
    var done := spent.(plots := f.plots[i := f.plots[i].(plantedAt := matureAt + (n - 1) * grow)]);
    HarvestsStay(f.lifetimeHarvests, n);
    SameBoardKeeps(c, done, done.(lifetimeHarvests := SatAdd(paid.lifetimeHarvests, Min(n, MAX))));
  }

  lemma SatMulNonNegative(a: int, b: int)
    requires a >= 0 && b >= 0
    ensures SatMul(a, b) >= 0
  {
    if a > 0 && b > 0 { MulMono(0, a, b); }
  }

  lemma HarvestsStay(a: int64, n: int)
    requires a >= 0 && n >= 0
    ensures SatAdd(a, Min(n, MAX)) == Min(a + n, MAX)
  {
  }

  lemma {:induction false} SettleKeeps(c: Config, t: Tick, i: nat, crop: Crop, grow: int, matureAt: int, cycles: nat,
                                       batches: nat, to: int)
    requires Sound(c, t.farm) && i < |t.farm.plots| && grow >= 1
    ensures var r := Settle(c, t, i, crop, grow, matureAt, cycles, batches, to).tick;
            Sound(c, r.farm) && SameSetup(t.farm, r.farm)
    decreases if matureAt <= to then to - matureAt + 1 else 0
  {
    hide Sound, Reap, Replant, ClearPlot, Batch, CanBatch, CanReplant, SameBoard, SameSetup, Due;
    if matureAt > to {
      SameSetupSelf(t.farm);
    } else if cycles >= AUTO_CYCLE_CAP {
      SameSetupSelf(t.farm);
      if CanBatch(c, t.farm, i, crop) {
        BatchKeeps(c, t, i, crop, grow, matureAt, to);
        DueReaches(matureAt, grow, to);
        var t1 := Batch(c, t, i, crop, grow, matureAt, to);
        SettleKeeps(c, t1, i, crop, grow, t1.farm.plots[i].plantedAt + grow, cycles, batches + 1, to);
        SameSetupTrans(t.farm, t1.farm,
            Settle(c, t1, i, crop, grow, t1.farm.plots[i].plantedAt + grow, cycles, batches + 1, to).tick.farm);
      }
    } else {
      ReapKeeps(c, t, crop);
      var t1 := Reap(c, t, crop);
      if CanReplant(c, t1.farm, i, crop) {
        ReplantKeeps(c, t1, i, crop, matureAt);
        var t2 := Replant(c, t1, i, crop, matureAt);
        SettleKeeps(c, t2, i, crop, grow, matureAt + grow, cycles + 1, batches, to);
        SameSetupTrans(t.farm, t1.farm, t2.farm);
        SameSetupTrans(t.farm, t2.farm,
            Settle(c, t2, i, crop, grow, matureAt + grow, cycles + 1, batches, to).tick.farm);
      } else {
        ClearKeeps(c, t1, i);
        SameSetupTrans(t.farm, t1.farm, ClearPlot(t1, i).farm);
      }
    }
  }

  lemma CritterKeeps(c: Config, t: Tick, i: nat)
    requires Sound(c, t.farm) && i < |t.farm.plots| && t.farm.plots[i].crop == ""
    ensures var r := MaybeCritterVisit(c, t, i); Sound(c, r.farm) && SameSetup(t.farm, r.farm)
  {
    hide Sound, CritterVisit, Unlocked;
    var g := MaybeCritterVisit(c, t, i).farm;
    SoundHas(c, t.farm, i);
    OnePlotKeeps(c, t.farm, i, g.plots[i]);
    SoundHas(c, t.farm.(plots := g.plots), i);
    SameBoardKeeps(c, t.farm.(plots := g.plots), g);
  }

  lemma SoundHas(c: Config, f: Farm, i: nat)
    requires Sound(c, f) && i < |f.plots|
    ensures PlotOk(c, f, f.plots[i]) && MoneyOk(f)
  {
  }

  lemma TendPlotKeeps(c: Config, t: Tick, i: nat, from: int, to: int, online: bool)
    requires Sound(c, t.farm) && i < |t.farm.plots|
    ensures var r := TendPlot(c, t, i, from, to, online); Sound(c, r.farm) && SameSetup(t.farm, r.farm)
  {
    hide Sound, MaybeCritterVisit, Settle, Bump;
    SameSetupSelf(t.farm);
    var plot := t.farm.plots[i];
    if plot.crop == "" {
      if online { CritterKeeps(c, t, i); }
    } else if plot.crop in c.cropById && plot.autoHarvest {
      var crop := c.cropById[plot.crop];
      var grow := GrowSeconds(c, t.farm, crop);
      SettleKeeps(c, t, i, crop, grow, plot.plantedAt + grow, 0, 0, to);
    }
  }

  lemma {:induction false} TendPlotsKeeps(c: Config, t: Tick, i: nat, from: int, to: int, online: bool)
    requires Sound(c, t.farm) && i <= |t.farm.plots|
    ensures var r := TendPlots(c, t, i, from, to, online); Sound(c, r.farm) && SameSetup(t.farm, r.farm)
    decreases |t.farm.plots| - i
  {
    if i < |t.farm.plots| {
      TendPlotKeeps(c, t, i, from, to, online);
      TendPlotsKeeps(c, TendPlot(c, t, i, from, to, online), i + 1, from, to, online);
    }
  }

  lemma SoundBoard(c: Config, f: Farm)
    requires Sound(c, f)
    ensures MoneyOk(f) && LevelsOk(c, f)
  {
  }

  lemma StartedEventIsKnown(c: Config, t: Tick, to: int)
    requires |c.events| > 0
    ensures EventKnown(c, StartEvent(c, t, to).farm)
  {
    hide RangeRng, RolledDuration, Durations;
  }

  lemma RolledEventIsKnown(c: Config, t: Tick, elapsed: int, to: int)
    requires elapsed >= 0 && EventKnown(c, t.farm)
    ensures EventKnown(c, RollOnlineEvent(c, t, elapsed, to).farm)
  {
    hide StartEvent, EventRoll, Valid;
    if |c.events| > 0 && !EventActive(t.farm, to) {
      StartedEventIsKnown(c, Tick(t.farm.(rng := EventRoll(c, t.farm, elapsed).1), t.report), to);
    }
  }

  lemma PreludeEventIsKnown(c: Config, f: Farm, to: int)
    requires EventKnown(c, f) && to > f.updatedAt
    ensures EventKnown(c, Prelude(c, f, to).farm)
  {
    hide RollOnlineEvent, RollGiftArrival, Untouched, EventActive, Valid;
    var elapsed := to - f.updatedAt;
    RolledEventIsKnown(c, ExpireEvent(Tick(f, QUIET.(elapsed := elapsed)), to), elapsed, to);
  }

  lemma PreludeKeeps(c: Config, f: Farm, to: int)
    requires Inv(c, f) && to > f.updatedAt
    ensures Inv(c, Prelude(c, f, to).farm)
  {
    hide Prelude, Sound, LevelsOk, EventKnown;
    SoundBoard(c, f);
    PreludeEventIsKnown(c, f, to);
    SameBoardKeeps(c, f, Prelude(c, f, to).farm);
  }

  lemma AdvanceKeeps(c: Config, f: Farm, to: int)
    requires Inv(c, f)
    ensures Inv(c, Advance(c, f, to).farm)
  {
    hide Sound, Prelude, TendPlots, Award, Awarded, LevelsOk, EventKnown;
    if to > f.updatedAt {
      PreludeKeeps(c, f, to);
      var t := Prelude(c, f, to);
      TendPlotsKeeps(c, t, 0, f.updatedAt, to, Online(to - f.updatedAt));
      var g := TendPlots(c, t, 0, f.updatedAt, to, Online(to - f.updatedAt)).farm;
      ClosingKeeps(c, t.farm, g, to);
    }
  }

  /** Moving the clock and recording achievements. */
  lemma ClosingKeeps(c: Config, f: Farm, g: Farm, to: int)
    requires Sound(c, g) && EventKnown(c, f) && SameSetup(f, g)
    ensures Inv(c, CheckAchievements(c, g.(updatedAt := to), to))
  {
    hide Sound, Award;
    SoundBoard(c, g);
    SameBoardKeeps(c, g, CheckAchievements(c, g.(updatedAt := to), to));
  }

  lemma NewIsInv(c: Config, seed: nat, now: int)
    ensures Inv(c, New(c, seed, now))
  {
    ZonePlotsNone(c, |c.zones|);
    var f := New(c, seed, now);
    assert forall i :: 0 <= i < |f.plots| ==> f.plots[i] == EMPTY_PLOT;
  }
}
