// What the numbers the engine derives are, said from the content and the rolls: the event's part, the moon, prices,
// growth, salvage, the expected payout of a risky crop, and the coins a run opens with.
module Values {
  import opened Int64
  import opened Content
  import opened Farms
  import opened Derive
  import opened Actions
  import opened Advancing
  import opened Invariant
  import opened Bonuses
  import opened Reporting
  import opened CatchUp

  /** `q` is `a / b` rounded down. */
  predicate FloorOf(q: int, a: int, b: int) { b * q <= a < b * (q + 1) }

  lemma QuoIsFloor(a: int, b: int)
    requires a >= 0 && b > 0
    ensures FloorOf(Quo(a, b), a, b)
  {
    QuotientFloor(a, b);
  }

  // ---------- a new game ----------

  /** A new game has the start coins and as many empty plots as the content says, owns and has earned nothing, and is
      of its instant: simulated up to it, with the moon counted from its day. */
  lemma NewGameIs(c: Config, seed: nat, now: int)
    requires now >= 0
    ensures var f := New(c, seed, now);
            && f.version == STATE_VERSION && f.rng == seed && f.updatedAt == now
            && 86400 * f.moonEpoch <= now < 86400 * (f.moonEpoch + 1)
            && f.coins == c.start.coins && f.purchasedPlots == 0 && |f.plots| == c.start.plots
            && (forall i | 0 <= i < |f.plots| :: f.plots[i] == Plot("", 0, false, false, ""))
            && f.tools == map[] && f.zones == map[] && f.multipliers == map[] && f.seedUpgrades == map[]
            && f.upgrades == map[] && f.achievements == map[] && f.prestige == 0 && f.rebirths == 0
            && f.runEarnings == 0 && f.lifetimeEarnings == 0 && f.lifetimeHarvests == 0
            && !f.giftPending && f.eventId == "" && f.flavorEnabled && f.farmName == ""
  {
    QuoIsFloor(now, 86400);
    var f := New(c, seed, now);
    forall i | 0 <= i < |f.plots| ensures f.plots[i] == Plot("", 0, false, false, "") { assert f.plots[i] in f.plots; }
  }

  // ---------- the running event ----------

  /** The running event adds its value to its own effect and to no other. */
  lemma EventBonusIs(c: Config, f: Farm, e: Event, effect: Effect)
    requires e in c.events && f.eventId == e.id
    ensures EventBonus(c, f, effect) == if e.effect == effect then e.effectValue else 0
    ensures HasEvent(c, f) && c.eventById[f.eventId] == e
  {
    var k :| 0 <= k < |c.events| && c.events[k] == e;
    assert c.events[k].id in c.eventById && c.eventById[c.events[k].id] == c.events[k];
  }

  lemma NoEventBonus(c: Config, f: Farm, effect: Effect)
    requires f.eventId == ""
    ensures EventBonus(c, f, effect) == 0
  {
  }

  /** A seed costs its price, less the running event's discount, at most 99%, rounded down. */
  lemma SeedCostIs(c: Config, f: Farm, crop: Crop, e: Event)
    requires e in c.events && f.eventId == e.id && ValidCrop(crop) && crop.seedCost * 100 <= MAX
    ensures if e.effect.SeedDiscount? then FloorOf(SeedCost(c, f, crop), crop.seedCost * (100 - Min(e.effectValue, 99)),
        100)
            else SeedCost(c, f, crop) == crop.seedCost
  {
    EventBonusIs(c, f, e, SeedDiscount);
    assert e.effectValue >= 1;
    hide Valid;
    if e.effect.SeedDiscount? {
      var keep: int, price: int := 100 - Min(e.effectValue, 99), crop.seedCost;
      MulMono(keep, 100, price);
      MulMono(0, price, keep);
      QuoIsFloor(price * keep, 100);
    }
  }

  lemma PlainSeedCost(c: Config, f: Farm, crop: Crop)
    requires f.eventId == "" && ValidCrop(crop)
    ensures SeedCost(c, f, crop) == crop.seedCost
  {
  }

  // ---------- the moon ----------

  /** The phase of a save is 0 without an epoch, else the days since the epoch modulo 28. */
  lemma MoonPhaseIs(f: Farm, day: int) returns (cycles: int)
    requires 0 <= f.updatedAt && 86400 * day <= f.updatedAt < 86400 * (day + 1)
    ensures f.moonEpoch == 0 ==> MoonPhase(f) == 0
    ensures f.moonEpoch != 0 && f.moonEpoch <= day ==>
              day - f.moonEpoch == 28 * cycles + MoonPhase(f) && 0 <= MoonPhase(f) < 28 && cycles >= 0
  {
    QuotientUnique(f.updatedAt, 86400, day, f.updatedAt - 86400 * day);
    cycles := if f.moonEpoch <= day then (day - f.moonEpoch) / 28 else 0;
  }

  /** The bonus crop is under a full moon on the middle day of a cycle of the content's length. */
  lemma FullMoonIff(c: Config, f: Farm, cropId: string)
    ensures IsFullMoon(c, f, cropId)
            <==> cropId == c.moon.moonberryCropId && c.moon.cycleDays >= 1 && FloorOf(MoonPhase(f), c.moon.cycleDays, 2)
  {
    hide MoonPhase, Valid;
    if c.moon.cycleDays >= 1 { QuoIsFloor(c.moon.cycleDays, 2); }
  }

  // ---------- growth ----------

  /** `g` is `grow` shortened by `b` percent, rounded down, and one second at least. */
  predicate ShortenedTo(g: int, grow: int, b: int) {
    (g >= 1 && FloorOf(g, grow * (100 - b), 100)) || (g == 1 && grow * (100 - b) < 100)
  }

  /** Growth is the crop's time shortened by all growth bonuses together, by 99% at most. */
  lemma GrowthIs(c: Config, f: Farm, crop: Crop)
    requires Sound(c, f) && BonusFits(c, GrowSpeed) && 1 <= crop.growSeconds <= MAX / 100
    ensures ShortenedTo(GrowSeconds(c, f, crop), crop.growSeconds, Min(PlainBonus(c, f, GrowSpeed), 99))
  {
    hide Sound, BonusFits, PlainBonus, Bonus, Valid;
    BonusIsPlain(c, f, GrowSpeed);
    var keep: int, grow: int := 100 - Min(PlainBonus(c, f, GrowSpeed), 99), crop.growSeconds;
    MulMono(keep, 100, grow);
    MulMono(0, grow, keep);
    QuoIsFloor(grow * keep, 100);
  }

  /** There is one such number. */
  lemma ShortenedOnce(g: int, h: int, grow: int, b: int)
    requires ShortenedTo(g, grow, b) && ShortenedTo(h, grow, b)
    ensures g == h
  {
  }

  /** A planted crop is refused as not mature exactly before its planting instant plus the shortened time. */
  lemma HarvestWaits(c: Config, f: Farm, i: nat, now: int, g: int)
    requires Sound(c, f) && BonusFits(c, GrowSpeed) && i < |f.plots| && f.plots[i].crop in c.cropById
        && f.plots[i].crop != ""
    requires c.cropById[f.plots[i].crop].growSeconds <= MAX / 100
    requires ShortenedTo(g, c.cropById[f.plots[i].crop].growSeconds, Min(PlainBonus(c, f, GrowSpeed), 99))
    ensures HarvestStep(c, f, i, now) == Refused(NotMature) <==> now < f.plots[i].plantedAt + g
    ensures HarvestStep(c, f, i, now).Done? <==> now >= f.plots[i].plantedAt + g
  {
    var crop := c.cropById[f.plots[i].crop];
    assert crop in c.crops;
    assert crop.growSeconds >= 1;
    hide Sound, BonusFits, PlainBonus, Valid, HarvestYield, Bank, GrowSeconds, ShortenedTo;
    GrowthIs(c, f, crop);
    ShortenedOnce(g, GrowSeconds(c, f, crop), crop.growSeconds, Min(PlainBonus(c, f, GrowSpeed), 99));
  }

  // ---------- sales ----------

  /** A price with a bonus: the price itself without one, else the hundredths rounded down, or the ceiling. */
  lemma BoostIs(base: int64, bonus: int64)
    requires base >= 0 && Divisor(bonus) > 0
    ensures var d := Divisor(bonus);
            if bonus == 0 then Boost(base, bonus) == base
            else if base * d > MAX then Boost(base, bonus) == MAX
            else FloorOf(Boost(base, bonus), base * d, 100)
  {
    var d: int, b: int := Divisor(bonus), base;
    hide Divisor;
    QuotientTest(b, d, MAX);
    MulMono(0, b, d);
    QuoIsFloor(b * d, 100);
  }

  /** A sale is boosted by everything owned, the running event and the full moon together. */
  lemma SaleIs(c: Config, f: Farm, base: int64, cropId: string)
    requires Sound(c, f) && Sellable(c) && base >= 0
    ensures var b := PlainBonus(c, f, SellBonus) + MoonBonus(c, f, cropId);
            var sale := SellMultiplied(c, f, base, cropId);
            if b == 0 then sale == base
            else if base * (100 + b) > MAX then sale == MAX
            else FloorOf(sale, base * (100 + b), 100)
  {
    SaleBonusIsPlain(c, f, cropId);
    hide Sound, Sellable, PlainBonus, MoonBonus, SellBonusPct, Boost, Valid;
    var b := PlainBonus(c, f, SellBonus) + MoonBonus(c, f, cropId);
    BoostIs(base, SellBonusPct(c, f, cropId));
  }

  lemma SaleBonusIsPlain(c: Config, f: Farm, cropId: string)
    requires Sound(c, f) && Sellable(c)
    ensures SellBonusPct(c, f, cropId) == PlainBonus(c, f, SellBonus) + MoonBonus(c, f, cropId)
    ensures Divisor(SellBonusPct(c, f, cropId)) == 100 + PlainBonus(c, f, SellBonus) + MoonBonus(c, f, cropId) > 0
  {
    BonusIsPlain(c, f, SellBonus);
    hide Sound, Bonus, PlainBonus, TopBonus, IsFullMoon;
  }

  /** A failed risky harvest salvages an eighth of the sale, a quarter, a half or three quarters, by strain level. */
  lemma SalvageIs(f: Farm, crop: Crop)
    requires crop.sellValue >= 0 && crop.sellValue * 6 <= MAX
    ensures var level := Level(f.seedUpgrades, crop.id);
            && (level == 0 ==> FloorOf(Salvage(f, crop), crop.sellValue, 8))
            && (level == 1 ==> FloorOf(Salvage(f, crop), crop.sellValue, 4))
            && (level == 2 ==> FloorOf(Salvage(f, crop), crop.sellValue, 2))
            && (level >= 3 ==> FloorOf(Salvage(f, crop), crop.sellValue * 3, 4))
  {
    QuoIsFloor(crop.sellValue * SalvageNumerator(Level(f.seedUpgrades, crop.id)), 8);
  }

  /** What one harvest yields: the roll of its crop, the golden roll, and the discovery roll, in this order. */
  lemma YieldIs(c: Config, f: Farm, crop: Crop)
    ensures var y := HarvestYield(c, f, crop);
            var plain := SellMultiplied(c, f, if Fails(c, f, crop) then Salvage(f, crop) else crop.sellValue, crop.id);
            && (y.failed <==> Fails(c, f, crop)) && (y.golden <==> TurnsGolden(c, f, crop))
            && (!y.golden ==> y.payout == plain)
            && (y.golden && 0 <= plain && plain * c.golden.multiplier <= MAX ==>
                  FloorOf(y.payout, plain * c.golden.multiplier, 10))
            && (y.discovery != 0 ==> c.flavor.enabled && f.flavorEnabled
                                     && c.flavor.discoveryMin <= y.discovery <= c.flavor.discoveryMax)
  {
    hide Roll, NextRng, RangeRng, SellMultiplied, Salvage, Indexed, ValidCrop, ValidPerk;
    var plain: int := SellMultiplied(c, f, if Fails(c, f, crop) then Salvage(f, crop) else crop.sellValue, crop.id);
    MulMono(0, c.golden.multiplier, if plain >= 0 then plain else 0);
    if plain >= 0 { QuoIsFloor(plain * c.golden.multiplier, 10); }
  }

  /** The stream `n` rolls on. */
  function Later(rng: nat, n: nat): nat { if n == 0 then rng else NextRng(Later(rng, n - 1)) }

  /** The rolls of a harvest before the one for a discovery. */
  function Spent(c: Config, crop: Crop): nat {
    (if crop.archetype.Risky? then 1 else 0) + if c.golden.chancePct > 0 then 1 else 0
  }

  predicate Discovers(c: Config, f: Farm, crop: Crop) {
    && c.flavor.enabled && f.flavorEnabled
    && Roll(c, Later(f.rng, Spent(c, crop)), 100) < c.flavor.discoveryChancePct
  }

  /** A harvest discovers coins exactly when flavor is on and its third roll is below the chance: the draw after that
      says how many. The stream moves on by the rolls that were needed. */
  lemma DiscoveryIs(c: Config, f: Farm, crop: Crop)
    ensures var y, spent := HarvestYield(c, f, crop), Spent(c, crop);
            var lo, hi := c.flavor.discoveryMin, c.flavor.discoveryMax;
            && y.discovery == (if Discovers(c, f, crop) then RollRange(c, Later(f.rng, spent + 1), lo, hi) else 0)
            && y.rng == Later(f.rng, spent + (if DiscoveryRolls(c, f) then 1 else 0)
                                     + if Discovers(c, f, crop) && lo < hi then 1 else 0)
  {
    hide Roll, NextRng, RollRange, SellMultiplied, Salvage, Gilded, Valid;
    var spent := Spent(c, crop);
    assert Later(f.rng, 1) == NextRng(f.rng) && Later(f.rng, 2) == NextRng(NextRng(f.rng));
    assert Later(f.rng, spent + 1) == NextRng(Later(f.rng, spent));
    assert Later(f.rng, spent + 2) == NextRng(Later(f.rng, spent + 1));
    assert 0 <= Roll(c, Later(f.rng, spent), 100);
  }

  /** What the report notes of one automatic harvest: its crop, a failure if its roll failed, a golden one if its roll
      was golden, and a discovery with its coins if there was one. */
  lemma ReapNotes(c: Config, t: Tick, crop: Crop)
    requires t.report.discoveryCoins + HarvestYield(c, t.farm, crop).discovery <= MAX
    ensures var r, y := Reap(c, t, crop).report, HarvestYield(c, t.farm, crop);
            && (forall id :: Level(r.autoHarvested, id)
                             == Level(t.report.autoHarvested, id) + if id == crop.id then 1 else 0)
            && (forall id :: Level(r.failedHarvests, id)
                             == Level(t.report.failedHarvests, id) + if id == crop.id
                                 && Fails(c, t.farm, crop) then 1 else 0)
            && r.goldenHarvests == t.report.goldenHarvests + (if TurnsGolden(c, t.farm, crop) then 1 else 0)
            && r.discoveries == t.report.discoveries + (if y.discovery > 0 then 1 else 0)
            && r.discoveryCoins == t.report.discoveryCoins + Positive(y.discovery)
  {
    YieldIs(c, t.farm, crop);
    hide HarvestYield, Fails, TurnsGolden, Bank, SatAdd, FloorOf, Valid;
  }

  // ---------- the expected payout of a risky crop ----------

  /** The content with a stream in which every draw comes out as `n`. */
  function WithDraw(c: Config, n: nat): (d: Config)
    requires n < TWO64
    ensures d == c.(mix := d.mix) && forall rng: nat :: Draw(d, rng) == n
  {
    var d := c.(mix := (k: nat) => n);
    MixIsIrrelevant(c, d);
    d
  }

  /** The content with a stream in which every roll of a hundred comes out as `r`. */
  function WithRoll(c: Config, r: nat): (d: Config)
    requires r < 100
    ensures d == c.(mix := d.mix) && forall rng: nat :: Roll(d, rng, 100) == r
  {
    WithDraw(c, r)
  }

  lemma MixIsIrrelevant(c: Content, d: Content)
    requires Valid(c) && d == c.(mix := d.mix)
    ensures Valid(d)
  {
    hide ValidCrop, ValidPerk;
  }

  /** A draw between bounds can come out as each value between them. */
  lemma DrawReaches(c: Config, rng: nat, lo: int, hi: int, v: int)
    requires lo <= v <= hi && hi - lo < TWO64
    ensures RollRange(WithDraw(c, v - lo), rng, lo, hi) == v
  {
    hide Draw, WithDraw, Valid;
    var d := WithDraw(c, v - lo);
    assert Draw(d, rng) == v - lo;
    SmallRemainder(v - lo, hi - lo + 1);
  }

  lemma SmallRemainder(n: nat, width: int)
    requires n < width
    ensures n % width == n
  {
  }

  /** What a risky harvest is worth before bonuses when its roll is `r`. */
  function Outcome(f: Farm, crop: Crop, r: nat): int {
    if r < crop.failChancePct then Salvage(f, crop) else crop.sellValue
  }

  function OutcomeSum(f: Farm, crop: Crop, n: nat): int {
    if n == 0 then 0 else OutcomeSum(f, crop, n - 1) + Outcome(f, crop, n - 1)
  }

  /** The payouts of the `n` lowest rolls together. */
  function PayoutSum(c: Config, f: Farm, crop: Crop, n: nat): int
    requires n <= 100
  {
    if n == 0 then 0 else PayoutSum(c, f, crop, n - 1) + HarvestYield(WithRoll(c, n - 1), f, crop).payout
  }

  lemma RolledPayout(c: Config, f: Farm, crop: Crop, r: nat)
    requires ValidCrop(crop) && crop.archetype.Risky? && r < 100 && c.golden.chancePct == 0 && !DiscoveryRolls(c, f)
    ensures MIN <= Outcome(f, crop, r) <= MAX
    ensures HarvestYield(WithRoll(c, r), f, crop).payout == SellMultiplied(c, f, Outcome(f, crop, r), crop.id)
  {
    hide Roll, Salvage, Valid, ValidCrop, Boost, EffectSum, Wrap, MoonPhase;
    var d := WithRoll(c, r);
    assert Roll(d, f.rng, 100) == r;
  }

  lemma {:induction false} OutcomeSumIs(f: Farm, crop: Crop, n: nat)
    requires n <= 100 && 0 <= crop.failChancePct
    ensures OutcomeSum(f, crop, n)
            == if n <= crop.failChancePct then n * Salvage(f, crop)
               else crop.failChancePct * Salvage(f, crop) + (n - crop.failChancePct) * crop.sellValue
  {
    hide Salvage;
    if n > 0 { OutcomeSumIs(f, crop, n - 1); }
  }

  lemma MeanFits(fail: int, salvage: int, sale: int)
    requires 1 <= fail <= 99 && 0 <= salvage <= sale && sale * 100 <= MAX
    ensures FloorOf(Quo(Wrap(fail * salvage + (100 - fail) * sale), 100), fail * salvage + (100 - fail) * sale, 100)
    ensures Quo(Wrap(fail * salvage + (100 - fail) * sale), 100) <= MAX
  {
    var total := fail * salvage + (100 - fail) * sale;
    MulMono(0, salvage, fail);
    MulMono(salvage, sale, fail);
    MulMono(0, sale, 100 - fail);
    assert 0 <= total <= MAX;
    QuoIsFloor(total, 100);
  }

  lemma ExpectedBase(c: Config, f: Farm, crop: Crop, mean: int64)
    requires crop.archetype.Risky?
    requires mean as int == Quo(Wrap(crop.failChancePct * Salvage(f, crop)
        + (100 - crop.failChancePct) * crop.sellValue), 100)
    ensures ExpectedPayout(c, f, crop) == SellMultiplied(c, f, mean, crop.id)
  {
    hide Salvage, Valid, SellMultiplied, Wrap, Quo;
  }

  /** The payout a batch reckons with for a risky crop is the price of the mean, rounded down, of what its hundred
      equally likely rolls are worth; `RolledPayout` says that each roll pays the price of what it is worth. */
  lemma ExpectedIsMean(c: Config, f: Farm, crop: Crop) returns (mean: int64)
    requires ValidCrop(crop) && crop.archetype.Risky? && crop.sellValue * 100 <= MAX
    ensures FloorOf(mean, OutcomeSum(f, crop, 100), 100)
        && ExpectedPayout(c, f, crop) == SellMultiplied(c, f, mean, crop.id)
  {
    SalvageBelowSale(f, crop);
    hide Salvage, Valid, SellMultiplied, OutcomeSum, ExpectedPayout, Wrap, FloorOf, Quo;
    OutcomeSumIs(f, crop, 100);
    var fail: int, salvage: int, sale: int := crop.failChancePct, Salvage(f, crop), crop.sellValue;
    MeanFits(fail, salvage, sale);
    mean := Quo(Wrap(fail * salvage + (100 - fail) * sale), 100);
    ExpectedBase(c, f, crop, mean);
  }

  lemma {:induction false} UnboostedSum(c: Config, f: Farm, crop: Crop, n: nat)
    requires n <= 100 && ValidCrop(crop) && crop.archetype.Risky? && c.golden.chancePct == 0 && !DiscoveryRolls(c, f)
    requires SellBonusPct(c, f, crop.id) == 0
    ensures PayoutSum(c, f, crop, n) == OutcomeSum(f, crop, n)
  {
    hide HarvestYield, WithRoll, Outcome, SellBonusPct, Valid, ValidCrop;
    if n > 0 {
      UnboostedSum(c, f, crop, n - 1);
      RolledPayout(c, f, crop, n - 1);
    }
  }

  /** Without a bonus it is the mean, rounded down, of the hundred payouts themselves. */
  lemma ExpectedIsMeanPayout(c: Config, f: Farm, crop: Crop)
    requires ValidCrop(crop) && crop.archetype.Risky? && crop.sellValue * 100 <= MAX
    requires c.golden.chancePct == 0 && !DiscoveryRolls(c, f) && SellBonusPct(c, f, crop.id) == 0
    ensures FloorOf(ExpectedPayout(c, f, crop), PayoutSum(c, f, crop, 100), 100)
  {
    hide ExpectedPayout, SellBonusPct, PayoutSum, OutcomeSum, HarvestYield, WithRoll, Outcome, Valid, ValidCrop;
    var mean := ExpectedIsMean(c, f, crop);
    UnboostedSum(c, f, crop, 100);
  }

  /** A batch of `n` harvests brings `n` times the expected payout, less `n` seeds, if there is room for it. */
  lemma BatchPays(c: Config, t: Tick, i: nat, crop: Crop, grow: int, matureAt: int, to: int)
    requires i < |t.farm.plots| && grow >= 1 && matureAt <= to && CanBatch(c, t.farm, i, crop)
    requires Room(t, Due(matureAt, grow, to) * ExpectedPayout(c, t.farm, crop), Due(matureAt, grow, to))
    ensures var n, pay, seed := Due(matureAt, grow, to), ExpectedPayout(c, t.farm, crop), SeedCost(c, t.farm, crop);
            var g := Batch(c, t, i, crop, grow, matureAt, to).farm;
            && n >= 1 && g.runEarnings - t.farm.runEarnings == n * pay
            && g.lifetimeEarnings - t.farm.lifetimeEarnings == n * pay
            && g.coins - t.farm.coins == n * pay - n * seed && g.lifetimeHarvests - t.farm.lifetimeHarvests == n
  {
    hide ExpectedPayout, SeedCost, Due, Batch, BatchOf, SatMul, Bump, Valid;
    BatchIsOf(c, t, i, crop, grow, matureAt, to);
    var n, pay, seed := Due(matureAt, grow, to), ExpectedPayout(c, t.farm, crop), SeedCost(c, t.farm, crop);
    BatchOfCycles(t, i, crop.id, pay, seed, n, matureAt + (n - 1) * grow);
    MulMono(0, n, pay);
    MulMono(seed, pay, n);
    MulMono(0, seed, n);
  }

  /** The report of a batch counts its harvests for its crop and for no other. */
  lemma BatchNotes(c: Config, t: Tick, i: nat, crop: Crop, grow: int, matureAt: int, to: int)
    requires i < |t.farm.plots| && grow >= 1 && matureAt <= to && CanBatch(c, t.farm, i, crop)
    ensures var r := Batch(c, t, i, crop, grow, matureAt, to).report;
            && (forall id :: Level(r.autoHarvested, id)
                             == Level(t.report.autoHarvested, id) + if id == crop.id then Due(matureAt, grow, to)
                                 else 0)
            && r.failedHarvests == t.report.failedHarvests && r.goldenHarvests == t.report.goldenHarvests
            && r.discoveries == t.report.discoveries && r.discoveryCoins == t.report.discoveryCoins
  {
    hide ExpectedPayout, SeedCost, Due, SatMul, Credit, SatAdd, Wrap, Valid;
    DueReaches(matureAt, grow, to);
  }

  /** How often a crop matures up to `to`: at each whole growth from its first maturity on. */
  lemma DueCounts(matureAt: int, grow: int, to: int, k: nat)
    requires grow >= 1
    ensures k < Due(matureAt, grow, to) <==> matureAt + k * grow <= to
  {
    if matureAt <= to {
      QuotientTest(k, grow, to - matureAt);
    } else {
      MulMono(0, k, grow);
    }
  }

  /** A harvested plot is replanted at its maturity exactly when it sows itself, the wallet with the harvest in it holds
      the seed's price, which is then taken, and the crop is unlocked; otherwise it is cleared. */
  lemma ReplantsIff(c: Config, t: Tick, i: nat, crop: Crop, grow: int, matureAt: int, to: int)
    requires i < |t.farm.plots| && matureAt <= to < matureAt + grow && 0 <= Reap(c, t, crop).farm.coins
    ensures var f, g := Reap(c, t, crop).farm, Settle(c, t, i, crop, grow, matureAt, 0, 0, to).tick.farm;
            var price, plot := SeedCost(c, f, crop), t.farm.plots[i];
            if plot.autoSow && price <= f.coins && Unlocked(f, crop.unlock) then
              g == f.(coins := f.coins - price, plots := t.farm.plots[i := plot.(plantedAt := matureAt)])
            else g == f.(plots := t.farm.plots[i := plot.(crop := "", plantedAt := 0)])
  {
    hide Reap, SeedCost, Unlocked, Valid;
    var t1 := Reap(c, t, crop);
    if CanReplant(c, t1.farm, i, crop) {
      var t2 := Replant(c, t1, i, crop, matureAt);
      Fitting(t1.farm.coins - SeedCost(c, t1.farm, crop));
      assert Settle(c, t2, i, crop, grow, matureAt + grow, 1, 0, to).tick == t2;
    }
  }

  /** Past the cap the rest is batched exactly when the plot sows itself, the wallet holds a seed, and a harvest is
      expected to bring more than its seed; otherwise the plot is left as it is. */
  lemma BatchesIff(c: Config, t: Tick, i: nat, crop: Crop, grow: int, matureAt: int, cycles: nat, to: int)
    requires i < |t.farm.plots| && grow >= 1 && matureAt <= to && cycles >= AUTO_CYCLE_CAP
    ensures var r, price := Settle(c, t, i, crop, grow, matureAt, cycles, 0, to), SeedCost(c, t.farm, crop);
            if t.farm.plots[i].autoSow && price <= t.farm.coins && price < ExpectedPayout(c, t.farm, crop) then
              CanBatch(c, t.farm, i, crop) && r.batches == 1 && r.tick == Batch(c, t, i, crop, grow, matureAt, to)
            else r.tick == t
  {
    hide Batch, SeedCost, ExpectedPayout, Due, Valid;
    if CanBatch(c, t.farm, i, crop) {
      var t1 := Batch(c, t, i, crop, grow, matureAt, to);
      DueReaches(matureAt, grow, to);
      var next := t1.farm.plots[i].plantedAt + grow;
      assert next > to;
      assert Settle(c, t1, i, crop, grow, next, cycles, 1, to) == Settled(t1, next, cycles, 1);
    }
  }

  /** A planted plot without auto-harvest is left alone, and its crop is reported as matured exactly if it matured
      within the stretch. */
  lemma MaturedIff(c: Config, t: Tick, i: nat, from: int, to: int, online: bool)
    requires i < |t.farm.plots| && t.farm.plots[i].crop in c.cropById && t.farm.plots[i].crop != ""
    requires !t.farm.plots[i].autoHarvest
    ensures var p := t.farm.plots[i]; var crop := c.cropById[p.crop];
            var ripeAt := p.plantedAt + GrowSeconds(c, t.farm, crop);
            var r := TendPlot(c, t, i, from, to, online);
            r.farm == t.farm && r.report == t.report.(matured := r.report.matured)
            && forall id :: Level(r.report.matured, id)
                            == Level(t.report.matured, id) + if id == crop.id && from < ripeAt <= to then 1 else 0
  {
    hide GrowSeconds, Settle, CritterVisit, Valid;
  }

  /** A batch of a risky crop without a bonus brings what its harvests bring on the mean, less the rounding: between
      `n` times the mean payout and `n` coins below it. */
  lemma RiskyBatchPays(c: Config, t: Tick, i: nat, crop: Crop, grow: int, matureAt: int, to: int)
    requires i < |t.farm.plots| && grow >= 1 && matureAt <= to && CanBatch(c, t.farm, i, crop)
    requires Room(t, Due(matureAt, grow, to) * ExpectedPayout(c, t.farm, crop), Due(matureAt, grow, to))
    requires ValidCrop(crop) && crop.archetype.Risky? && crop.sellValue * 100 <= MAX
    requires c.golden.chancePct == 0 && !DiscoveryRolls(c, t.farm) && SellBonusPct(c, t.farm, crop.id) == 0
    ensures var n := Due(matureAt, grow, to);
            var gross := Batch(c, t, i, crop, grow, matureAt, to).farm.runEarnings - t.farm.runEarnings;
            100 * gross <= n * PayoutSum(c, t.farm, crop, 100) < 100 * (gross + n)
  {
    hide ExpectedPayout, SeedCost, Due, Batch, SellBonusPct, PayoutSum, Room, CanBatch, Valid, ValidCrop;
    BatchPays(c, t, i, crop, grow, matureAt, to);
    ExpectedIsMeanPayout(c, t.farm, crop);
    var n, pay, sum := Due(matureAt, grow, to), ExpectedPayout(c, t.farm, crop), PayoutSum(c, t.farm, crop, 100);
    ScaledFloor(n, pay, sum);
  }

  lemma ScaledFloor(n: int, pay: int, sum: int)
    requires n >= 1 && FloorOf(pay, sum, 100)
    ensures 100 * (n * pay) <= n * sum < 100 * (n * pay + n)
  {
    MulMono(100 * pay, sum, n);
    MulMono(sum + 1, 100 * (pay + 1), n);
  }

  // ---------- opening coins ----------

  /** A run opens with the start coins and what the start-coin upgrades add, up to the ceiling. */
  lemma {:induction false} OpeningCoinsAre(c: Config, f: Farm, n: nat)
    requires Sound(c, f) && n <= |c.upgrades| && TopSum(c.upgrades, Effect.StartCoins, |c.upgrades|) <= MAX
    ensures OpeningCoins(c, f.upgrades, n)
            == Min(c.start.coins + PlainSum(c.upgrades, f.upgrades, Effect.StartCoins, n), MAX)
  {
    hide Sound, Valid, Wrap, SatAdd, TopSum;
    if n > 0 {
      OpeningCoinsAre(c, f, n - 1);
      UpgradeAmountFits(c, f, n - 1);
      OwnedSumNonNegative(c, f, n - 1);
      StartCoinsNonNegative(c);
      var u := c.upgrades[n - 1];
      if u.effect == Effect.StartCoins { CoinsAdd(OpeningCoins(c, f.upgrades, n - 1),
          u.effectValue * Level(f.upgrades, u.id)); }
    }
  }

  lemma StartCoinsNonNegative(c: Config)
    ensures c.start.coins >= 0
  {
  }

  lemma OwnedSumNonNegative(c: Config, f: Farm, n: nat)
    requires Sound(c, f) && n <= |c.upgrades|
    ensures PlainSum(c.upgrades, f.upgrades, Effect.StartCoins, n) >= 0
  {
    assert PerksWithin(c.upgrades, f.upgrades) && forall u <- c.upgrades :: ValidPerk(u);
    hide Sound, Valid, PerksWithin, ValidPerk, PlainSum, TopSum;
    SumFits(c.upgrades, f.upgrades, Effect.StartCoins, n);
  }

  lemma CoinsAdd(coins: int64, amount: int)
    requires 0 <= amount <= MAX
    ensures SatAdd(coins, Wrap(amount)) == Min(coins + amount, MAX)
  {
    SatAddClips(coins, amount);
  }

  lemma UpgradeAmountFits(c: Config, f: Farm, k: nat)
    requires Sound(c, f) && k < |c.upgrades| && TopSum(c.upgrades, Effect.StartCoins, |c.upgrades|) <= MAX
    ensures var u := c.upgrades[k];
            u.effect == Effect.StartCoins ==> 0 <= u.effectValue * Level(f.upgrades, u.id) <= MAX
  {
    var u := c.upgrades[k];
    assert u in c.upgrades && ValidPerk(u);
    MulMono(0, Level(f.upgrades, u.id), u.effectValue);
    MulMono(Level(f.upgrades, u.id), u.maxLevel, u.effectValue);
    if u.effect == Effect.StartCoins { TermBelowTop(c.upgrades, Effect.StartCoins, k, |c.upgrades|); }
  }

  lemma {:induction false} TermBelowTop(perks: seq<Perk>, effect: Effect, k: nat, n: nat)
    requires k < n <= |perks| && (forall u <- perks :: ValidPerk(u)) && perks[k].effect == effect
    ensures perks[k].effectValue * perks[k].maxLevel <= TopSum(perks, effect, n)
  {
    var u := perks[n - 1];
    assert u in perks;
    MulMono(0, u.maxLevel, u.effectValue);
    if k < n - 1 { TermBelowTop(perks, effect, k, n - 1); } else { TopSumNonNegative(perks, effect, n - 1); }
  }

  // ---------- prices ----------

  /** A price curve starts at its base and grows by its percentage, rounded down, until a step would overflow. */
  lemma CurveIs(base: int64, growthPct: int64, n: nat)
    requires base >= 1 && growthPct >= 100
    ensures Compound(base, growthPct, 0) == base
    ensures var now, next := Compound(base, growthPct, n), Compound(base, growthPct, n + 1);
            if now * growthPct > MAX then next == MAX / 100 else FloorOf(next, now * growthPct, 100)
  {
    CurveStaysPositive(base, growthPct, n);
    var now: int, pct: int := Compound(base, growthPct, n), growthPct;
    QuotientTest(now, pct, MAX);
    MulMono(0, now, pct);
    QuoIsFloor(now * pct, 100);
  }

  lemma {:induction false} CurveStaysPositive(base: int64, growthPct: int64, n: nat)
    requires base >= 1 && growthPct >= 100
    ensures Compound(base, growthPct, n) >= 0
  {
    if n > 0 {
      CurveStaysPositive(base, growthPct, n - 1);
      var now: int, pct: int := Compound(base, growthPct, n - 1), growthPct;
      QuotientTest(now, pct, MAX);
      MulMono(0, now, pct);
    }
  }

  /** A discounted price is the price less the discount, at most 99%, rounded down, and one coin at least. */
  lemma DiscountedIs(cost: int64, discount: int)
    requires 0 <= cost <= MAX / 100 && discount >= 0
    ensures var p, keep := Discounted(cost, discount), 100 - Min(discount, 99);
            FloorOf(p, cost * keep, 100) || (p == 1 && cost * keep < 100)
  {
    var keep: int, price: int := 100 - Min(discount, 99), cost;
    MulMono(keep, 100, price);
    MulMono(0, price, keep);
    QuoIsFloor(price * keep, 100);
  }

  /** How many of the first `n` plots are automated. */
  lemma {:induction false} CountIs(ps: seq<Plot>, n: nat)
    requires n <= |ps|
    ensures Count(ps, n) == |set i | 0 <= i < n && ps[i].autoHarvest|
  {
    if n > 0 {
      CountIs(ps, n - 1);
      var before, all := set i | 0 <= i < n - 1 && ps[i].autoHarvest, set i | 0 <= i < n && ps[i].autoHarvest;
      assert all == before + if ps[n - 1].autoHarvest then {n - 1} else {};
    }
  }

  /** The next plot costs what the land's curve says after the plots bought so far, less the owned discount, at most
      99%, rounded down, and one coin at least. */
  lemma PlotPriceIs(c: Config, f: Farm)
    requires Sound(c, f) && c.start.plots + f.purchasedPlots < c.land.maxPlots
    requires TopSum(c.upgrades, PlotDiscount, |c.upgrades|) <= MAX
    requires f.purchasedPlots >= 0 && Compound(c.land.basePlotCost, c.land.growthPct, f.purchasedPlots) <= MAX / 100
    ensures var cost := Compound(c.land.basePlotCost, c.land.growthPct, f.purchasedPlots);
            var keep := 100 - Min(PlainSum(c.upgrades, f.upgrades, PlotDiscount, |c.upgrades|), 99);
            FloorOf(PlotPrice(c, f), cost * keep, 100) || (PlotPrice(c, f) == 1 && cost * keep < 100)
  {
    CurveStaysPositive(c.land.basePlotCost, c.land.growthPct, f.purchasedPlots);
    hide Sound, PlainSum, TopSum, EffectSum, Compound, Discounted, Indexed, ValidCrop, ValidPerk, FloorOf;
    OwnedFit(c, f, PlotDiscount);
    DiscountedIs(Compound(c.land.basePlotCost, c.land.growthPct, f.purchasedPlots), UpgradeSum(c, f, PlotDiscount));
  }

  /** Auto-harvest costs what its curve says after as many steps as plots have it, and one coin at least. */
  lemma AutoHarvestPriceIs(c: Config, f: Farm)
    ensures c.plotAutomation.autoHarvestGrowthPct >= 100
    ensures var automated := set i | 0 <= i < |f.plots| && f.plots[i].autoHarvest;
            var cost :=
              Compound(c.plotAutomation.autoHarvestBaseCost, c.plotAutomation.autoHarvestGrowthPct, |automated|);
            AutoHarvestPrice(c, f) == if cost >= 1 then cost else 1
  {
    CountIs(f.plots, |f.plots|);
    hide Compound, Indexed, ValidCrop, ValidPerk, Count;
  }
}
