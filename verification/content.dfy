// The immutable game configuration: what `content.Load` builds, indexes and validates.
module Content {
  import opened Int64

  datatype Unlock = AtStart | AtEarnings(value: int64) | AtPrestige(value: int64) | InZone(zone: string)

  datatype Archetype = Fast | Slow | Risky

  datatype Crop = Crop(id: string, archetype: Archetype, seedCost: int64, growSeconds: int64,
                       sellValue: int64, failChancePct: int64, unlock: Unlock)

  datatype Effect =
    | GrowSpeed | SellBonus | StartCoins | PlotDiscount | GiftRate | EventRate | EventDuration | SeedDiscount

  /** Permanent upgrades and run-scoped multipliers are two Go structs with these same fields. */
  datatype Perk = Perk(id: string, cost: int64, costGrowthPct: int64, maxLevel: int64,
                       effect: Effect, effectValue: int64)

  datatype SeedUpgrade = SeedUpgrade(id: string, cropId: string, cost: int64, costGrowthPct: int64, maxLevel: int64)

  datatype Zone = Zone(id: string, cost: int64, extraPlots: int64, unlock: Unlock)

  datatype Event = Event(id: string, effect: Effect, effectValue: int64)

  datatype EventsConfig = EventsConfig(minIntervalSec: int64, maxIntervalSec: int64,
                                       minDurationSec: int64, maxDurationSec: int64)

  datatype PlotAutomation = PlotAutomation(autoHarvestBaseCost: int64, autoHarvestGrowthPct: int64,
                                           autoSowCost: int64, autoSowMinEarnings: int64)

  datatype GiftTuning = GiftTuning(onlineIntervalSec: int64, offlineIntervalSec: int64, starseedChancePct: int64,
                                   coinRewardFloor: int64, coinRewardCeiling: int64)

  datatype GoldenHarvest = GoldenHarvest(chancePct: int64, multiplier: int64)

  datatype Moon = Moon(cycleDays: int64, fullMoonSellBonusPct: int64, moonberryCropId: string)

  datatype Critters = Critters(visitChancePct: int64, shooRewardMin: int64, shooRewardMax: int64, kinds: seq<string>)

  datatype Condition =
    | Harvests(value: int64) | Earnings(value: int64) | PlotCount(value: int64) | Rebirths(value: int64)
    | Balance(value: int64)

  datatype Achievement = Achievement(id: string, condition: Condition)

  datatype Flavor = Flavor(enabled: bool, discoveryChancePct: int64, discoveryMin: int64, discoveryMax: int64)

  datatype Start = Start(coins: int64, plots: int64)

  datatype Land = Land(basePlotCost: int64, growthPct: int64, maxPlots: int64)

  datatype Prestige = Prestige(divisor: int64, minEarnings: int64)

  /** `mix` is the output function of the save's random stream. It is a parameter, so every
      theorem holds whatever the stream produces. */
  datatype Content = Content(
    crops: seq<Crop>, upgrades: seq<Perk>, multipliers: seq<Perk>, seedUpgrades: seq<SeedUpgrade>,
    zones: seq<Zone>, events: seq<Event>, achievements: seq<Achievement>,
    start: Start, land: Land, prestige: Prestige, eventsConfig: EventsConfig, plotAutomation: PlotAutomation,
    gifts: GiftTuning, golden: GoldenHarvest, moon: Moon, critters: Critters, flavor: Flavor,
    cropById: map<string, Crop>, upgradeById: map<string, Perk>, multiplierById: map<string, Perk>,
    seedUpgradeById: map<string, SeedUpgrade>, zoneById: map<string, Zone>, eventById: map<string, Event>,
    mix: nat -> nat)

  /** What `buildIndexes` establishes over the duplicate-free definition lists. */
  ghost predicate Indexed(c: Content) {
    && (forall i :: 0 <= i < |c.crops| ==> c.crops[i].id in c.cropById && c.cropById[c.crops[i].id] == c.crops[i])
    && (forall id <- c.cropById :: c.cropById[id].id == id && c.cropById[id] in c.crops)
    && (forall i :: 0 <= i < |c.upgrades| ==>
          c.upgrades[i].id in c.upgradeById && c.upgradeById[c.upgrades[i].id] == c.upgrades[i])
    && (forall id <- c.upgradeById :: c.upgradeById[id].id == id && c.upgradeById[id] in c.upgrades)
    && (forall i, j :: 0 <= i < j < |c.upgrades| ==> c.upgrades[i].id != c.upgrades[j].id)
    && (forall i :: 0 <= i < |c.multipliers| ==>
          c.multipliers[i].id in c.multiplierById && c.multiplierById[c.multipliers[i].id] == c.multipliers[i])
    && (forall id <- c.multiplierById :: c.multiplierById[id].id == id && c.multiplierById[id] in c.multipliers)
    && (forall id <- c.seedUpgradeById :: c.seedUpgradeById[id].id == id && c.seedUpgradeById[id] in c.seedUpgrades)
    && (forall i :: 0 <= i < |c.zones| ==> c.zones[i].id in c.zoneById && c.zoneById[c.zones[i].id] == c.zones[i])
    && (forall id <- c.zoneById :: c.zoneById[id].id == id && c.zoneById[id] in c.zones)
    && (forall i, j :: 0 <= i < j < |c.zones| ==> c.zones[i].id != c.zones[j].id)
    && (forall i :: 0 <= i < |c.events| ==> c.events[i].id in c.eventById && c.eventById[c.events[i].id] == c.events[i])
    && (forall id <- c.eventById :: c.eventById[id].id == id && c.eventById[id] in c.events)
  }

  ghost predicate ValidCrop(cr: Crop) {
    && cr.id != "" && cr.seedCost >= 0 && cr.sellValue >= 0 && cr.growSeconds >= 1
    && (if cr.archetype.Risky? then 1 <= cr.failChancePct <= 99 else cr.failChancePct == 0)
  }

  ghost predicate ValidPerk(u: Perk) {
    u.cost >= 1 && u.costGrowthPct >= 100 && u.maxLevel >= 1 && u.effectValue >= 1
  }

  /** The part of `Content.validate` the engine relies on, with the indexes it builds next. */
  ghost predicate Valid(c: Content) {
    && Indexed(c)
    && c.start.coins >= 0 && c.start.plots >= 1
    && c.land.basePlotCost >= 1 && c.land.growthPct >= 100 && c.land.maxPlots >= c.start.plots
    && c.prestige.divisor >= 1 && c.prestige.minEarnings >= 1
    && (forall cr <- c.crops :: ValidCrop(cr))
    && (forall u <- c.upgrades :: ValidPerk(u))
    && (forall m <- c.multipliers :: ValidPerk(m))
    && (forall su <- c.seedUpgrades :: su.cost >= 1 && su.costGrowthPct >= 100 && su.maxLevel == 3)
    && (forall z <- c.zones :: z.cost >= 0 && z.extraPlots >= 1)
    && (forall e <- c.events :: e.id != "" && e.effectValue >= 1)
    && c.eventsConfig.minIntervalSec >= 1 && c.eventsConfig.maxIntervalSec >= c.eventsConfig.minIntervalSec
    && c.eventsConfig.minDurationSec >= 1 && c.eventsConfig.maxDurationSec >= c.eventsConfig.minDurationSec
    && c.plotAutomation.autoHarvestBaseCost >= 1 && c.plotAutomation.autoHarvestGrowthPct >= 100
    && c.plotAutomation.autoSowCost >= 1 && c.plotAutomation.autoSowMinEarnings >= 1
    && c.gifts.onlineIntervalSec >= 1 && c.gifts.offlineIntervalSec >= 1
    && 0 <= c.golden.chancePct <= 100 && c.golden.multiplier >= 10
    && (c.flavor.enabled ==> 0 <= c.flavor.discoveryMin <= c.flavor.discoveryMax)
  }

  // ---------- all of `validate` ----------

  ghost predicate UnlockAccepted(c: Content, u: Unlock) {
    match u
    case AtStart => true
    case AtEarnings(value) => value >= 1
    case AtPrestige(value) => value >= 1
    case InZone(zone) => exists z <- c.zones :: z.id == zone
  }

  /** A reduction stays below 100% at the top level, as far as its int64 product can tell. */
  predicate ReductionAccepted(u: Perk) { Wrap(u.effectValue * u.maxLevel) < 100 }

  ghost predicate PerksAccepted(c: Content) {
    && (forall i | 0 <= i < |c.upgrades| :: c.upgrades[i].id != "" && c.upgrades[i].effect != Effect.SeedDiscount
          && (c.upgrades[i].effect in {Effect.GrowSpeed, Effect.PlotDiscount} ==> ReductionAccepted(c.upgrades[i])))
    && (forall i | 0 <= i < |c.multipliers| ::
          && c.multipliers[i].id != "" && c.multipliers[i].effect in {Effect.GrowSpeed, Effect.SellBonus}
          && (c.multipliers[i].effect == Effect.GrowSpeed ==> ReductionAccepted(c.multipliers[i])))
    && (forall i, j | 0 <= i < j < |c.multipliers| :: c.multipliers[i].id != c.multipliers[j].id)
    && (forall i | 0 <= i < |c.seedUpgrades| :: c.seedUpgrades[i].id != ""
          && exists cr <- c.crops :: cr.id == c.seedUpgrades[i].cropId && cr.archetype.Risky?)
    && (forall i, j | 0 <= i < j < |c.seedUpgrades| :: c.seedUpgrades[i].id != c.seedUpgrades[j].id)
  }

  ghost predicate HasArchetype(c: Content, a: Archetype) { exists cr <- c.crops :: cr.archetype == a }

  ghost predicate CropsAccepted(c: Content) {
    && HasArchetype(c, Fast) && HasArchetype(c, Slow) && HasArchetype(c, Risky)
    && (forall i, j | 0 <= i < j < |c.crops| :: c.crops[i].id != c.crops[j].id)
    && (forall cr <- c.crops :: UnlockAccepted(c, cr.unlock))
    && (forall z <- c.zones :: z.id != "" && UnlockAccepted(c, z.unlock) && z.unlock != InZone(z.id))
  }

  /** Everything `Content.validate` asks of the content modelled here, with the indexes built next. The theorems need
      only `Valid`; the failing inputs below each pass this whole test. */
  ghost predicate Accepted(c: Content) {
    && Valid(c) && CropsAccepted(c) && PerksAccepted(c)
    && (forall i | 0 <= i < |c.events| ::
        c.events[i].effect in {Effect.SeedDiscount, Effect.SellBonus, Effect.GrowSpeed})
    && (forall i, j | 0 <= i < j < |c.events| :: c.events[i].id != c.events[j].id)
    && 0 <= c.gifts.starseedChancePct <= 100
    && (forall i | 0 <= i < |c.achievements| :: c.achievements[i].id != "" && c.achievements[i].condition.value >= 1)
    && (forall i, j | 0 <= i < j < |c.achievements| :: c.achievements[i].id != c.achievements[j].id)
    && (c.flavor.enabled ==> 0 <= c.flavor.discoveryChancePct <= 100)
  }

  /** The least content `validate` lets through but for its crops. */
  ghost function Smallest(): (c: Content)
    ensures Valid(c)
  {
    Content([], [], [], [], [], [], [], Start(0, 1), Land(1, 100, 1), Prestige(1, 1), EventsConfig(1, 1, 1, 1),
            PlotAutomation(1, 100, 1, 1), GiftTuning(1, 1, 0, 0, 0), GoldenHarvest(0, 10), Moon(0, 0, ""),
            Critters(0, 0, 0, []), Flavor(false, 0, 0, 0), map[], map[], map[], map[], map[], map[], (n: nat) => n)
  }

  const SAMPLE_CROP := Crop("fast", Fast, 1, 1, 1, 0, AtStart)
  const SLOW_CROP := Crop("slow", Slow, 1, 1, 1, 0, AtStart)
  const RISKY_CROP := Crop("risky", Risky, 1, 1, 1, 50, AtStart)

  /** A small content with `fast` and one crop of each other archetype. */
  ghost function Sample(fast: Crop, land: Land, golden: GoldenHarvest, moon: Moon): (c: Content)
    requires ValidCrop(fast) && fast.archetype.Fast? && fast.id !in {"slow", "risky"} && fast.unlock.AtStart?
    requires land.basePlotCost >= 1 && land.growthPct >= 100 && land.maxPlots >= 1
    requires 0 <= golden.chancePct <= 100 && golden.multiplier >= 10
    ensures Accepted(c) && Valid(c)
    ensures c == Smallest().(crops := [fast, SLOW_CROP, RISKY_CROP], land := land, golden := golden, moon := moon,
                             cropById := map[fast.id := fast, "slow" := SLOW_CROP, "risky" := RISKY_CROP])
  {
    hide Accepted, Valid, ValidCrop;
    var c := Smallest().(crops := [fast, SLOW_CROP, RISKY_CROP], land := land, golden := golden, moon := moon,
                         cropById := map[fast.id := fast, "slow" := SLOW_CROP, "risky" := RISKY_CROP]);
    SampleIsValid(c, fast, land, golden, moon);
    SampleIsAccepted(c, fast, land, golden, moon);
    c
  }

  lemma SampleIsValid(c: Content, fast: Crop, land: Land, golden: GoldenHarvest, moon: Moon)
    requires ValidCrop(fast) && fast.archetype.Fast? && fast.id !in {"slow", "risky"}
    requires land.basePlotCost >= 1 && land.growthPct >= 100 && land.maxPlots >= 1
    requires 0 <= golden.chancePct <= 100 && golden.multiplier >= 10
    requires c == Smallest().(crops := [fast, SLOW_CROP, RISKY_CROP], land := land, golden := golden, moon := moon,
                              cropById := map[fast.id := fast, "slow" := SLOW_CROP, "risky" := RISKY_CROP])
    ensures Valid(c)
  {
    hide Indexed;
    SampleIsIndexed(c, fast);
  }

  lemma SampleIsIndexed(c: Content, fast: Crop)
    requires fast.id !in {"slow", "risky"} && c.crops == [fast, SLOW_CROP, RISKY_CROP]
    requires c == Smallest().(crops := c.crops, land := c.land, golden := c.golden, moon := c.moon,
                              cropById := map[fast.id := fast, "slow" := SLOW_CROP, "risky" := RISKY_CROP])
    ensures Indexed(c)
  {
    hide Valid, ValidCrop;
  }

  lemma SampleIsAccepted(c: Content, fast: Crop, land: Land, golden: GoldenHarvest, moon: Moon)
    requires Valid(c) && fast.archetype.Fast? && fast.id !in {"slow", "risky"} && fast.unlock.AtStart?
    requires c == Smallest().(crops := [fast, SLOW_CROP, RISKY_CROP], land := land, golden := golden, moon := moon,
                              cropById := map[fast.id := fast, "slow" := SLOW_CROP, "risky" := RISKY_CROP])
    ensures Accepted(c)
  {
    hide Valid;
    assert fast in c.crops && SLOW_CROP in c.crops && RISKY_CROP in c.crops;
  }

  /** `c`, which has none, with one permanent upgrade. */
  ghost function WithUpgrade(c: Content, u: Perk): (d: Content)
    requires Accepted(c) && c.upgrades == [] && ValidPerk(u) && u.id != "" && u.effect != Effect.SeedDiscount
    requires u.effect in {Effect.GrowSpeed, Effect.PlotDiscount} ==> ReductionAccepted(u)
    ensures Accepted(d) && Valid(d) && d == c.(upgrades := [u], upgradeById := map[u.id := u])
  {
    var d := c.(upgrades := [u], upgradeById := map[u.id := u]);
    OneUpgradeIsIndexed(c, u);
    hide Indexed, ValidPerk, ValidCrop;
    OneUpgradeIsValid(c, d);
    OneUpgradeIsAccepted(c, d, u);
    d
  }

  lemma OneUpgradeIsIndexed(c: Content, u: Perk)
    requires Indexed(c)
    ensures Indexed(c.(upgrades := [u], upgradeById := map[u.id := u]))
  {
  }

  lemma OneUpgradeIsValid(c: Content, d: Content)
    requires Valid(c) && d == c.(upgrades := d.upgrades, upgradeById := d.upgradeById) && Indexed(d)
    requires forall u <- d.upgrades :: ValidPerk(u)
    ensures Valid(d)
  {
    hide Indexed, ValidPerk, ValidCrop;
  }

  lemma OneUpgradeIsAccepted(c: Content, d: Content, u: Perk)
    requires Accepted(c) && Valid(d) && d == c.(upgrades := [u], upgradeById := d.upgradeById)
    requires u.id != "" && u.effect != Effect.SeedDiscount
    requires u.effect in {Effect.GrowSpeed, Effect.PlotDiscount} ==> ReductionAccepted(u)
    ensures Accepted(d)
  {
    hide Valid, ReductionAccepted;
    forall unlock: Unlock ensures UnlockAccepted(d, unlock) == UnlockAccepted(c, unlock) { }
    hide UnlockAccepted;
  }

  /** `c`, which has none, with one event. */
  ghost function WithEvent(c: Content, e: Event, times: EventsConfig): (d: Content)
    requires Accepted(c) && c.events == [] && e.id != "" && e.effectValue >= 1
    requires e.effect in {Effect.SeedDiscount, Effect.SellBonus, Effect.GrowSpeed}
    requires 1 <= times.minIntervalSec <= times.maxIntervalSec && 1 <= times.minDurationSec <= times.maxDurationSec
    ensures Accepted(d) && Valid(d) && d == c.(events := [e], eventById := map[e.id := e], eventsConfig := times)
  {
    var d := c.(events := [e], eventById := map[e.id := e], eventsConfig := times);
    OneEventIsIndexed(c, e, times);
    hide Indexed, ValidPerk, ValidCrop;
    OneEventIsValid(c, d, e);
    OneEventIsAccepted(c, d, e);
    d
  }

  lemma OneEventIsIndexed(c: Content, e: Event, times: EventsConfig)
    requires Indexed(c)
    ensures Indexed(c.(events := [e], eventById := map[e.id := e], eventsConfig := times))
  {
  }

  lemma OneEventIsValid(c: Content, d: Content, e: Event)
    requires Valid(c) && Indexed(d) && e.id != "" && e.effectValue >= 1
    requires d == c.(events := [e], eventById := d.eventById, eventsConfig := d.eventsConfig)
    requires 1 <= d.eventsConfig.minIntervalSec <= d.eventsConfig.maxIntervalSec
    requires 1 <= d.eventsConfig.minDurationSec <= d.eventsConfig.maxDurationSec
    ensures Valid(d)
  {
    hide Indexed, ValidPerk, ValidCrop;
  }

  lemma OneEventIsAccepted(c: Content, d: Content, e: Event)
    requires Accepted(c) && Valid(d) && e.effect in {Effect.SeedDiscount, Effect.SellBonus, Effect.GrowSpeed}
    requires d == c.(events := [e], eventById := d.eventById, eventsConfig := d.eventsConfig)
    ensures Accepted(d)
  {
    hide Valid, ReductionAccepted;
    forall unlock: Unlock ensures UnlockAccepted(d, unlock) == UnlockAccepted(c, unlock) { }
    hide UnlockAccepted;
  }

  /** Content the engine runs on: the server refuses to start on anything else. */
  type Config = c: Content | Valid(c) ghost witness Smallest()
}
