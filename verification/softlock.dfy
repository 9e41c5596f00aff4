// The farm can always make progress: from every reachable save some harvest is at most two intents away.
module SoftLock {
  import opened Int64
  import opened Content
  import opened Farms
  import opened Derive
  import opened Actions
  import opened Advancing
  import opened Invariant
  import opened Bonuses
  import opened Reporting
  import opened Intents

  datatype Intent = Intent(action: Action, now: int)

  function PlayIntents(c: Config, f: Farm, plan: seq<Intent>): Farm
    decreases |plan|
  {
    if plan == [] then f else PlayIntents(c, AfterIntent(c, f, plan[0].now, plan[0].action), plan[1..])
  }

  // ---------- growth never takes longer than the crop says ----------

  /** A save's growth bonus never lengthens growth exactly when it is not negative, or the lengthened product wraps
      below the crop's own time. */
  lemma GrowsInTimeIff(c: Config, f: Farm, crop: Crop)
    requires crop.growSeconds >= 1
    ensures GrowSeconds(c, f, crop) <= crop.growSeconds
            <==> Bonus(c, f, GrowSpeed) >= 0
                 || Wrap(crop.growSeconds * (100 - Bonus(c, f, GrowSpeed))) < 100 * (crop.growSeconds + 1)
  {
    hide Bonus, Wrap, Valid;
    var bonus: int, grow: int := Bonus(c, f, GrowSpeed), crop.growSeconds;
    if bonus >= 0 {
      ReducedGrowth(grow, bonus);
    } else {
      QuoBelowIff(Wrap(grow * (100 - bonus)), grow);
    }
  }

  lemma QuoBelowIff(a: int, g: int)
    requires g >= 1
    ensures Quo(a, 100) <= g <==> a < 100 * (g + 1)
  {
  }

  /** On content whose growth bonuses fit int64, growth never takes longer than the crop says. */
  lemma GrowsInTime(c: Config, f: Farm, crop: Crop)
    requires Sound(c, f) && BonusFits(c, GrowSpeed) && crop.growSeconds >= 1
    ensures GrowSeconds(c, f, crop) <= crop.growSeconds
  {
    hide Sound, BonusFits;
    BonusIsPlain(c, f, GrowSpeed);
    GrowsInTimeIff(c, f, crop);
  }

  /** Two levels of this upgrade add up to 2^64 - 900, which validation's own product takes for -900. */
  const WRAPPING_GROWTH := Perk("u", 1, 100, 2, Effect.GrowSpeed, TWO63 - 450)

  ghost function WrappingGrowth(): (c: Content)
    ensures Accepted(c) && Valid(c) && c.upgrades == [WRAPPING_GROWTH] && c.multipliers == []
  {
    hide Valid, Accepted;
    assert Wrap((TWO63 - 450) * 2) == -900;
    Upgraded(WRAPPING_GROWTH)
  }

  /** Content that passes validation and a sound save in which every crop takes ten times as long. */
  lemma OwnedBonusLengthensGrowth(c: Config, rng: nat)
    requires c == WrappingGrowth()
    ensures Accepted(c) && Inv(c, OwnsTwo(c, rng)) && GrowSeconds(c, OwnsTwo(c, rng), SAMPLE_CROP) == 10
    ensures SAMPLE_CROP.growSeconds == 1
  {
    hide Valid, Accepted, Inv, WrappingGrowth, Bonus, UpgradeSum, New;
    OwnsTwoIsInv(c, rng, WRAPPING_GROWTH);
    assert Wrap((TWO63 - 450) * 2) == -900;
    TwoLevels(c, rng, WRAPPING_GROWTH, GrowSpeed);
  }

  lemma ReducedGrowth(grow: int, reduction: int)
    requires grow >= 1 && reduction >= 0
    ensures Quo(Wrap(grow * (100 - Min(reduction, 99))), 100) <= grow
  {
    var shortened := grow * (100 - Min(reduction, 99));
    MulMono(100 - Min(reduction, 99), 100, grow);
    MulMono(0, grow, 100 - Min(reduction, 99));
    if shortened <= MAX {
      DivMono(shortened, grow * 100, 100);
    } else {
      assert grow > MAX / 100;
      if Wrap(shortened) >= 0 { DivMono(Wrap(shortened), MAX, 100); }
    }
  }

  // ---------- a standing crop ----------

  /** Either a harvest has been counted since the counter stood at `h`, or plot `i` still has the crop it had in `p`. */
  ghost predicate HarvestedOrStands(f: Farm, i: nat, p: Plot, h: int) {
    f.lifetimeHarvests > h || (i < |f.plots| && f.plots[i].crop == p.crop && f.plots[i].plantedAt == p.plantedAt)
  }

  lemma ReapCounts(c: Config, t: Tick, crop: Crop, h: int)
    requires h < MAX && t.farm.lifetimeHarvests >= h >= 0
    ensures Reap(c, t, crop).farm.lifetimeHarvests > h
  {
    hide HarvestYield, Bank, Bump;
    HarvestsStay(t.farm.lifetimeHarvests, 1);
  }

  lemma BatchCounts(c: Config, t: Tick, i: nat, crop: Crop, grow: int, matureAt: int, to: int)
    requires i < |t.farm.plots| && grow >= 1 && matureAt <= to && CanBatch(c, t.farm, i, crop)
        && t.farm.lifetimeHarvests >= 0
    ensures Batch(c, t, i, crop, grow, matureAt, to).farm.lifetimeHarvests >= t.farm.lifetimeHarvests
  {
    hide SeedCost, ExpectedPayout, Credit, SatMul, Bump;
    DueReaches(matureAt, grow, to);
    HarvestsStay(t.farm.lifetimeHarvests, Due(matureAt, grow, to));
  }

  lemma {:induction false} SettleCounts(c: Config, t: Tick, i: nat, crop: Crop, grow: int, matureAt: int, cycles: nat,
                                        batches: nat, to: int, h: int)
    requires i < |t.farm.plots| && grow >= 1 && 0 <= h < MAX && t.farm.lifetimeHarvests >= h
    ensures var g := Settle(c, t, i, crop, grow, matureAt, cycles, batches, to).tick.farm;
            g.lifetimeHarvests >= h && (t.farm.lifetimeHarvests > h ==> g.lifetimeHarvests > h)
            && (cycles == 0 ==> HarvestedOrStands(g, i, t.farm.plots[i], h))
    decreases if matureAt <= to then to - matureAt + 1 else 0
  {
    hide Reap, CanReplant, CanBatch, Batch, SeedCost;
    if matureAt > to {
    } else if cycles >= AUTO_CYCLE_CAP {
      if CanBatch(c, t.farm, i, crop) {
        var t1 := Batch(c, t, i, crop, grow, matureAt, to);
        BatchCounts(c, t, i, crop, grow, matureAt, to);
        DueReaches(matureAt, grow, to);
        SettleCounts(c, t1, i, crop, grow, t1.farm.plots[i].plantedAt + grow, cycles, batches + 1, to, h);
      }
    } else {
      var t1 := Reap(c, t, crop);
      ReapCounts(c, t, crop, h);
      if CanReplant(c, t1.farm, i, crop) {
        SettleCounts(c, Replant(c, t1, i, crop, matureAt), i, crop, grow, matureAt + grow, cycles + 1, batches, to, h);
      }
    }
  }

  /** Tending plot `j` keeps a standing plot `i`, or counts a harvest. */
  lemma TendPlotCounts(c: Config, t: Tick, j: nat, from: int, to: int, online: bool, i: nat, p: Plot, h: int)
    requires j < |t.farm.plots| && i < |t.farm.plots| && 0 <= h < MAX && t.farm.lifetimeHarvests >= h
    requires HarvestedOrStands(t.farm, i, p, h)
    ensures var g := TendPlot(c, t, j, from, to, online).farm; g.lifetimeHarvests >= h && HarvestedOrStands(g, i, p, h)
  {
    hide Settle, CritterVisit, Bump, GrowSeconds, Valid;
    var plot := t.farm.plots[j];
    if plot.crop != "" && plot.crop in c.cropById && plot.autoHarvest {
      var crop := c.cropById[plot.crop];
      var grow := GrowSeconds(c, t.farm, crop);
      SettleCounts(c, t, j, crop, grow, plot.plantedAt + grow, 0, 0, to, h);
      if i != j { SettleLocal(c, t, j, crop, grow, plot.plantedAt + grow, 0, 0, to, i); }
    }
  }

  lemma {:induction false} TendPlotsCount(c: Config, t: Tick, j: nat, from: int, to: int, online: bool, i: nat, p: Plot,
                                          h: int)
    requires j <= |t.farm.plots| && i < |t.farm.plots| && 0 <= h < MAX && t.farm.lifetimeHarvests >= h
    requires HarvestedOrStands(t.farm, i, p, h)
    ensures var g := TendPlots(c, t, j, from, to, online).farm; g.lifetimeHarvests >= h && HarvestedOrStands(g, i, p, h)
    decreases |t.farm.plots| - j
  {
    hide TendPlot, HarvestedOrStands;
    if j < |t.farm.plots| {
      TendPlotCounts(c, t, j, from, to, online, i, p, h);
      TendPlotsCount(c, TendPlot(c, t, j, from, to, online), j + 1, from, to, online, i, p, h);
    }
  }

  lemma AdvanceCounts(c: Config, f: Farm, to: int, i: nat)
    requires i < |f.plots| && 0 <= f.lifetimeHarvests < MAX
    ensures var g := Advance(c, f, to).farm;
            g.lifetimeHarvests >= f.lifetimeHarvests && HarvestedOrStands(g, i, f.plots[i], f.lifetimeHarvests)
  {
    hide Prelude, TendPlots, Award, Awarded;
    if to > f.updatedAt {
      TendPlotsCount(c, Prelude(c, f, to), 0, f.updatedAt, to, Online(to - f.updatedAt), i, f.plots[i],
          f.lifetimeHarvests);
    }
  }

  lemma {:induction false} ActCounts(c: Config, f: Farm, i: int, now: int, h: int)
    requires 0 <= h <= f.lifetimeHarvests && HarvestStep(c, f, i, now).Done?
    ensures HarvestStep(c, f, i, now).farm.lifetimeHarvests >= f.lifetimeHarvests
    ensures h < MAX ==> HarvestStep(c, f, i, now).farm.lifetimeHarvests > h
  {
    hide HarvestYield, Bank, Ready;
    HarvestsStay(f.lifetimeHarvests, 1);
  }

  /** The time by which plot `i` is certainly ripe. */
  function RipeBy(c: Config, f: Farm, i: nat): int
    requires i < |f.plots| && f.plots[i].crop in c.cropById
  {
    var ripe := f.plots[i].plantedAt + c.cropById[f.plots[i].crop].growSeconds;
    if ripe < f.updatedAt then f.updatedAt else ripe
  }

  /** Harvesting a planted plot once it is ripe counts a harvest, by hand or by the catch-up on the way. */
  lemma RipePlotHarvests(c: Config, f: Farm, i: nat)
    requires Inv(c, f) && BonusFits(c, GrowSpeed)
    requires f.lifetimeHarvests < MAX && i < |f.plots| && f.plots[i].crop != ""
    ensures f.plots[i].crop in c.cropById
    ensures AfterIntent(c, f, RipeBy(c, f, i), Harvest(i)).lifetimeHarvests > f.lifetimeHarvests
  {
    hide Sound, Advance, Award, HarvestYield, Bank, GrowSeconds, BonusFits;
    SoundHas(c, f, i);
    var now := RipeBy(c, f, i);
    AdvanceCounts(c, f, now, i);
    AdvanceKeeps(c, f, now);
    var g := Advance(c, f, now).farm;
    SoundHas(c, f, i);
    if HarvestStep(c, g, i, now).Done? { SoundBoard(c, g); ActCounts(c, g, i, now, f.lifetimeHarvests); }
    if g.lifetimeHarvests <= f.lifetimeHarvests {
      var crop := c.cropById[f.plots[i].crop];
      assert crop in c.crops;
      GrowsInTime(c, g, crop);
    }
  }

  // ---------- an empty farm ----------

  lemma StartCropIsFound(c: Config, f: Farm)
    requires exists cr <- c.crops :: cr.unlock.AtStart?
    ensures CheapestUnlocked(c, f, |c.crops|).Some?
  {
    var cr :| cr in c.crops && cr.unlock.AtStart?;
    var k :| 0 <= k < |c.crops| && c.crops[k] == cr;
    assert Unlocked(f, c.crops[k].unlock);
  }

  /** On an all-empty farm the cheapest unlocked crop can be planted: paid for, or free under the mercy rule. */
  lemma CheapestCanBePlanted(c: Config, f: Farm, now: int)
    requires Inv(c, f) && AllPlotsEmpty(f) && CheapestUnlocked(c, f, |c.crops|).Some?
    ensures var id := CheapestUnlocked(c, f, |c.crops|).value.id;
            var r := PlantStep(c, f, 0, id, now);
            r.Done? && |r.farm.plots| >= 1 && r.farm.plots[0].crop == id && id != ""
                && r.farm.lifetimeHarvests == f.lifetimeHarvests
            && r.farm.updatedAt == f.updatedAt
  {
    hide SeedCost, ZonePlots, PerksWithin, StrainsWithin, Unlocked, CheapestUnlocked;
    var cheapest := CheapestUnlocked(c, f, |c.crops|).value;
    var k :| 0 <= k < |c.crops| && c.crops[k] == cheapest;
    assert c.cropById[c.crops[k].id] == c.crops[k];
    assert ValidCrop(cheapest);
    assert |f.plots| >= 1 by { ZonePlotsNonNegative(c, f.zones, |c.zones|); }
  }

  lemma {:induction false} ZonePlotsNonNegative(c: Config, zones: map<string, bool>, n: nat)
    requires n <= |c.zones|
    ensures ZonePlots(c, zones, n) >= 0
  {
    if n > 0 {
      ZonePlotsNonNegative(c, zones, n - 1);
      assert c.zones[n - 1] in c.zones;
    }
  }

  // ---------- the theorem ----------

  ghost predicate OnlyFarming(plan: seq<Intent>) {
    forall k :: 0 <= k < |plan| ==> plan[k].action.Plant? || plan[k].action.Harvest?
  }

  /** What stands, and whatever is planted at the save's instant, ripens at an instant int64 has. */
  ghost predicate RipensInTime(c: Config, f: Farm) {
    && MIN <= f.updatedAt && (forall cr <- c.crops :: f.updatedAt + cr.growSeconds <= MAX)
    && (forall i | 0 <= i < |f.plots| && f.plots[i].crop in c.cropById ::
          f.plots[i].plantedAt + c.cropById[f.plots[i].crop].growSeconds <= MAX)
  }

  lemma RipeInTime(c: Config, f: Farm, i: nat)
    requires Inv(c, f) && RipensInTime(c, f) && i < |f.plots| && f.plots[i].crop != ""
    ensures f.plots[i].crop in c.cropById && MIN <= f.updatedAt <= RipeBy(c, f, i) <= MAX
  {
    hide Sound, Valid;
    SoundHas(c, f, i);
    assert f.plots[i].crop in c.cropById;
    CropIsListed(c, f.plots[i].crop);
    assert f.plots[i].plantedAt + c.cropById[f.plots[i].crop].growSeconds <= MAX;
    assert f.updatedAt + c.cropById[f.plots[i].crop].growSeconds <= MAX;
  }

  lemma CropIsListed(c: Config, planted: string)
    requires planted in c.cropById
    ensures c.cropById[planted] in c.crops && c.cropById[planted].growSeconds >= 1
  {
  }

  /** From every reachable save some plan of at most two plant or harvest intents, at instants int64 has, counts another
      harvest, given one crop that is open from the start, and content whose growth bonuses fit int64 and on which no
      sale divides by zero. */
  lemma NeverSoftLocked(c: Config, f: Farm) returns (plan: seq<Intent>)
    requires Inv(c, f) && f.lifetimeHarvests < MAX
    requires BonusFits(c, GrowSpeed) && Sellable(c) && RipensInTime(c, f)
    requires exists cr <- c.crops :: cr.unlock.AtStart?
    ensures |plan| <= 2 && OnlyFarming(plan) && forall k | 0 <= k < |plan| :: MIN <= plan[k].now <= MAX
    ensures PlayIntents(c, f, plan).lifetimeHarvests > f.lifetimeHarvests
    ensures Inv(c, PlayIntents(c, f, plan))
  {
    hide Inv, AfterIntent, RipeBy, CheapestUnlocked, BonusFits, RipensInTime, Valid;
    if i :| 0 <= i < |f.plots| && f.plots[i].crop != "" {
      RipePlotHarvests(c, f, i);
      RipeInTime(c, f, i);
      plan := [Intent(Harvest(i), RipeBy(c, f, i))];
      PlayOne(c, f, plan[0]);
      IntentKeeps(c, f, RipeBy(c, f, i), Harvest(i));
    } else {
      StartCropIsFound(c, f);
      var id := CheapestUnlocked(c, f, |c.crops|).value.id;
      PlantIntent(c, f, id);
      var g := AfterIntent(c, f, f.updatedAt, Plant(0, id));
      RipePlotHarvests(c, g, 0);
      RipeInTime(c, g, 0);
      IntentKeeps(c, g, RipeBy(c, g, 0), Harvest(0));
      plan := [Intent(Plant(0, id), f.updatedAt), Intent(Harvest(0), RipeBy(c, g, 0))];
      PlayTwo(c, f, plan[0], plan[1]);
    }
  }

  lemma PlayOne(c: Config, f: Farm, a: Intent)
    ensures PlayIntents(c, f, [a]) == AfterIntent(c, f, a.now, a.action)
  {
    hide AfterIntent;
    assert [a][1..] == [];
  }

  lemma PlayTwo(c: Config, f: Farm, a: Intent, b: Intent)
    ensures PlayIntents(c, f, [a, b]) == AfterIntent(c, AfterIntent(c, f, a.now, a.action), b.now, b.action)
  {
    hide AfterIntent;
    assert [a, b][1..] == [b];
    PlayOne(c, AfterIntent(c, f, a.now, a.action), b);
  }

  lemma PlantRipens(c: Config, f: Farm, id: string)
    requires RipensInTime(c, f) && PlantStep(c, f, 0, id, f.updatedAt).Done?
    ensures RipensInTime(c, PlantStep(c, f, 0, id, f.updatedAt).farm)
  {
    hide Valid, SeedCost, Unlocked, MercyPlantEligible;
    CropIsListed(c, id);
    var g := PlantStep(c, f, 0, id, f.updatedAt).farm;
    forall i | 0 <= i < |g.plots| && g.plots[i].crop in c.cropById
      ensures g.plots[i].plantedAt + c.cropById[g.plots[i].crop].growSeconds <= MAX
    {
      if i > 0 { assert g.plots[i] == f.plots[i]; }
    }
  }

  lemma RipensAnyAward(c: Config, f: Farm, g: Farm)
    requires RipensInTime(c, f) && g == f.(achievements := g.achievements)
    ensures RipensInTime(c, g)
  {
    hide Valid;
  }

  lemma PlantIntent(c: Config, f: Farm, id: string)
    requires Inv(c, f) && AllPlotsEmpty(f) && CheapestUnlocked(c, f, |c.crops|).Some?
    requires id == CheapestUnlocked(c, f, |c.crops|).value.id && RipensInTime(c, f)
    ensures RipensInTime(c, AfterIntent(c, f, f.updatedAt, Plant(0, id)))
    ensures var g := AfterIntent(c, f, f.updatedAt, Plant(0, id));
            Inv(c, g) && |g.plots| >= 1 && g.plots[0].crop != "" && g.lifetimeHarvests == f.lifetimeHarvests
            && g.updatedAt == f.updatedAt
  {
    hide Inv, PlantStep, Award, CheapestUnlocked, RipensInTime, Valid;
    CheapestCanBePlanted(c, f, f.updatedAt);
    PlantRipens(c, f, id);
    RipensAnyAward(c, PlantStep(c, f, 0, id, f.updatedAt).farm, AfterIntent(c, f, f.updatedAt, Plant(0, id)));
    IntentKeeps(c, f, f.updatedAt, Plant(0, id));
  }
}
