// One session intent: catch up, act, record achievements. What the actor runs for every key press.
module Intents {
  import opened Content
  import opened Farms
  import opened Derive
  import opened Actions
  import opened Advancing
  import opened Invariant
  import opened History

  function AfterIntent(c: Config, f: Farm, now: int, a: Action): Farm {
    var g := Advance(c, f, now).farm;
    match Act(c, g, a, now)
    case Done(h, _) => CheckAchievements(c, h, now)
    case Refused(_) => g
  }

  /** What the caller is told: the refusal, or None. */
  function IntentError(c: Config, f: Farm, now: int, a: Action): Option<Error> {
    match Act(c, Advance(c, f, now).farm, a, now)
    case Done(_, _) => None
    case Refused(e) => Some(e)
  }

  /** What the caller is told: the achievements the action earned, none if it was refused. */
  function IntentNews(c: Config, f: Farm, now: int, a: Action): seq<string> {
    match Act(c, Advance(c, f, now).farm, a, now)
    case Done(h, _) => Awarded(c, h, now, |c.achievements|)
    case Refused(_) => []
  }

  /** The intent marks the save as needing a write. */
  predicate IntentDirties(c: Config, f: Farm, now: int, a: Action) {
    Advance(c, f, now).report.elapsed > 0 || Act(c, Advance(c, f, now).farm, a, now).Done?
  }

  predicate AdvanceDirties(c: Config, f: Farm, now: int) { Advance(c, f, now).report.elapsed > 0 }

  /** A catch-up that reports no elapsed time changed nothing at all. */
  lemma CleanAdvance(c: Config, f: Farm, now: int)
    ensures AdvanceDirties(c, f, now) <==> now > f.updatedAt
    ensures !AdvanceDirties(c, f, now) ==> Advance(c, f, now).farm == f
  {
    hide Prelude, Award, Awarded;
    if now > f.updatedAt {
      TendKeepsElapsed(c, Prelude(c, f, now), 0, f.updatedAt, now, Online(now - f.updatedAt));
    }
  }

  /** An intent that does not mark the save dirty left it exactly as it was. */
  lemma CleanIntent(c: Config, f: Farm, now: int, a: Action)
    ensures !IntentDirties(c, f, now, a) ==> AfterIntent(c, f, now, a) == f
  {
    hide Advance, Act;
    CleanAdvance(c, f, now);
  }

  lemma {:induction false} SettleKeepsElapsed(c: Config, t: Tick, i: nat, crop: Crop, grow: int, matureAt: int,
                                              cycles: nat, batches: nat, to: int)
    requires i < |t.farm.plots| && grow >= 1
    ensures var r := Settle(c, t, i, crop, grow, matureAt, cycles, batches, to).tick;
            SameHead(t, r)
    decreases if matureAt <= to then to - matureAt + 1 else 0
  {
    hide Reap, Replant, ClearPlot, Batch, CanBatch, CanReplant, Due;
    if matureAt <= to {
      if cycles >= AUTO_CYCLE_CAP {
        if CanBatch(c, t.farm, i, crop) {
          var t1 := Batch(c, t, i, crop, grow, matureAt, to);
          DueReaches(matureAt, grow, to);
          SettleKeepsElapsed(c, t1, i, crop, grow, t1.farm.plots[i].plantedAt + grow, cycles, batches + 1, to);
        }
      } else {
        var t1 := Reap(c, t, crop);
        if CanReplant(c, t1.farm, i, crop) {
          SettleKeepsElapsed(c, Replant(c, t1, i, crop, matureAt), i, crop, grow, matureAt + grow, cycles + 1, batches,
              to);
        }
      }
    }
  }

  lemma TendPlotKeepsElapsed(c: Config, t: Tick, i: nat, from: int, to: int, online: bool)
    requires i < |t.farm.plots|
    ensures SameHead(t, TendPlot(c, t, i, from, to, online))
  {
    hide Settle, CritterVisit, Bump;
    var plot := t.farm.plots[i];
    if plot.crop != "" && plot.crop in c.cropById && plot.autoHarvest {
      var crop := c.cropById[plot.crop];
      var grow := GrowSeconds(c, t.farm, crop);
      SettleKeepsElapsed(c, t, i, crop, grow, plot.plantedAt + grow, 0, 0, to);
    }
  }

  lemma {:induction false} TendKeepsElapsed(c: Config, t: Tick, i: nat, from: int, to: int, online: bool)
    requires i <= |t.farm.plots|
    ensures SameHead(t, TendPlots(c, t, i, from, to, online))
    decreases |t.farm.plots| - i
  {
    hide TendPlot;
    if i < |t.farm.plots| {
      TendPlotKeepsElapsed(c, t, i, from, to, online);
      TendKeepsElapsed(c, TendPlot(c, t, i, from, to, online), i + 1, from, to, online);
    }
  }

  lemma AdvanceKeepsVersion(c: Config, f: Farm, now: int)
    ensures Advance(c, f, now).farm.version == f.version
  {
    hide Prelude, Award, Awarded, TendPlots;
    if now > f.updatedAt {
      TendKeepsElapsed(c, Prelude(c, f, now), 0, f.updatedAt, now, Online(now - f.updatedAt));
    }
  }

  lemma ActKeepsVersion(c: Config, f: Farm, a: Action, now: int)
    requires Act(c, f, a, now).Done?
    ensures Act(c, f, a, now).farm.version == f.version
  {
    hide PlantStep, HarvestStep, BuyPlotStep, BuyZoneStep, BuyMultiplierStep, BuySeedUpgradeStep,
         UpgradePlotAutoStep, BuyUpgradeStep, RedeemGiftStep, ShooCritterStep, SetFarmNameStep, EmptyPlots,
         OpeningCoins,
         PrestigeGain, CanRebirth;
  }

  /** No intent ever changes the payload version. */
  lemma IntentKeepsVersion(c: Config, f: Farm, now: int, a: Action)
    ensures AfterIntent(c, f, now, a).version == f.version
  {
    hide Advance, Act, Award;
    AdvanceKeepsVersion(c, f, now);
    if Act(c, Advance(c, f, now).farm, a, now).Done? { ActKeepsVersion(c, Advance(c, f, now).farm, a, now); }
  }

  lemma IntentKeeps(c: Config, f: Farm, now: int, a: Action)
    requires Inv(c, f)
    ensures Inv(c, AfterIntent(c, f, now, a))
  {
    hide Advance, Act, Inv, Award;
    AdvanceKeeps(c, f, now);
    var g := Advance(c, f, now).farm;
    if Act(c, g, a, now).Done? {
      ActKeeps(c, g, a, now);
      CheckKeeps(c, Act(c, g, a, now).farm, now);
    }
  }

  lemma ActClock(c: Config, f: Farm, a: Action, now: int)
    requires Act(c, f, a, now).Done?
    ensures Act(c, f, a, now).farm.updatedAt == if a.Rebirth? then now else f.updatedAt
  {
    hide PlantStep, HarvestStep, BuyPlotStep, BuyZoneStep, BuyMultiplierStep, BuySeedUpgradeStep,
         UpgradePlotAutoStep, BuyUpgradeStep, RedeemGiftStep, ShooCritterStep, SetFarmNameStep, EmptyPlots,
         OpeningCoins,
         PrestigeGain, CanRebirth;
  }

  /** The clock of a save goes back in exactly one case: an intent to be reborn under a system clock behind the save's,
      when the run has earned a rebirth. Every other intent, at whatever instant, leaves it at the later of the two. */
  lemma ClockGoesBackIff(c: Config, f: Farm, now: int, a: Action)
    ensures AfterIntent(c, f, now, a).updatedAt < f.updatedAt <==> now < f.updatedAt && a.Rebirth? && CanRebirth(c, f)
  {
    hide Advance, Act, Award, CanRebirth;
    AdvanceClock(c, f, now);
    var g := Advance(c, f, now).farm;
    if a.Rebirth? { RebirthIsDoneIff(c, g, now); }
    if Act(c, g, a, now).Done? { ActClock(c, g, a, now); }
  }

  lemma RebirthIsDoneIff(c: Config, f: Farm, now: int)
    ensures Act(c, f, Rebirth, now).Done? <==> CanRebirth(c, f)
  {
    hide CanRebirth, PrestigeGain, Reborn;
  }

  ghost function SampleConfig(): (c: Content)
    ensures Accepted(c) && Valid(c) && c.prestige == Prestige(1, 1)
  {
    Sample(SAMPLE_CROP, Land(1, 100, 1), GoldenHarvest(0, 10), Moon(0, 0, ""))
  }

  /** A run of one coin, last simulated at instant 10. */
  function EarnedFarm(c: Config, rng: nat): Farm {
    New(c, rng, 10).(coins := 1, runEarnings := 1, lifetimeEarnings := 1)
  }

  /** Reborn at instant 5, its clock goes back. */
  lemma ClockGoesBack(c: Config, rng: nat)
    requires c == SampleConfig()
    ensures Inv(c, EarnedFarm(c, rng)) && EarnedFarm(c, rng).updatedAt == 10
    ensures AfterIntent(c, EarnedFarm(c, rng), 5, Rebirth).updatedAt < 10
  {
    hide Valid, Accepted, Inv, AfterIntent, SampleConfig, CanRebirth;
    EarnedFarmIsInv(c, rng);
    EarnedCanRebirth(c, rng);
    ClockGoesBackIff(c, EarnedFarm(c, rng), 5, Rebirth);
  }

  lemma EarnedCanRebirth(c: Config, rng: nat)
    requires c.prestige == Prestige(1, 1)
    ensures CanRebirth(c, EarnedFarm(c, rng))
  {
    hide Valid, Isqrt;
    IsqrtIsRoot(1);
  }

  lemma EarnedFarmIsInv(c: Config, rng: nat)
    ensures Inv(c, EarnedFarm(c, rng))
  {
    hide Valid;
    NewIsInv(c, rng, 10);
  }
}
