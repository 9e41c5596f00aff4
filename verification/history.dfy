// Whole histories: any sequence of catch-ups, actions and achievement checks from a fresh save.
module History {
  import opened Int64
  import opened Content
  import opened Farms
  import opened Derive
  import opened Actions
  import opened Advancing
  import opened Invariant
  import opened Ledger

  datatype Move = Pass(to: int) | Do(action: Action, now: int) | Check(now: int)

  /** A refused action leaves the save as it was. */
  function After(c: Config, f: Farm, m: Move): Farm {
    match m
    case Pass(to) => Advance(c, f, to).farm
    case Do(a, now) => (match Act(c, f, a, now) case Done(g, _) => g case Refused(_) => f)
    case Check(now) => CheckAchievements(c, f, now)
  }

  function Play(c: Config, f: Farm, ms: seq<Move>): Farm {
    if ms == [] then f else After(c, Play(c, f, ms[..|ms| - 1]), ms[|ms| - 1])
  }

  // ---------- the reachable-state invariant ----------

  lemma AfterKeeps(c: Config, f: Farm, m: Move)
    requires Inv(c, f)
    ensures Inv(c, After(c, f, m))
  {
    hide Act, Advance, Sound, Award, EventKnown;
    match m
    case Pass(to) => AdvanceKeeps(c, f, to);
    case Do(a, now) => if Act(c, f, a, now).Done? { ActKeeps(c, f, a, now); }
    case Check(now) => CheckKeeps(c, f, now);
  }

  lemma CheckKeeps(c: Config, f: Farm, now: int)
    requires Inv(c, f)
    ensures Inv(c, CheckAchievements(c, f, now))
  {
    hide Sound, Award;
    SoundBoard(c, f);
    SameBoardKeeps(c, f, CheckAchievements(c, f, now));
  }

  /** Every save reachable from a fresh one, by any moves at any times, satisfies the invariant. */
  lemma {:induction false} Reachable(c: Config, seed: nat, start: int, ms: seq<Move>)
    ensures Inv(c, Play(c, New(c, seed, start), ms))
  {
    hide Inv, After;
    if ms == [] {
      NewIsInv(c, seed, start);
    } else {
      Reachable(c, seed, start, ms[..|ms| - 1]);
      AfterKeeps(c, Play(c, New(c, seed, start), ms[..|ms| - 1]), ms[|ms| - 1]);
    }
  }

  // ---------- the books ----------

  /** Running totals of a history. `started` and `spent` belong to the current run. */
  datatype Books = Books(started: int, spent: int, closedRuns: int, gains: int, giftSeeds: int, gainSquares: int)

  function Opened(c: Config): Books { Books(c.start.coins, 0, 0, 0, 0, 0) }

  function Posted(c: Config, f: Farm, b: Books, m: Move): Books {
    match m
    case Pass(to) => b.(spent := b.spent + Advance(c, f, to).report.seedCoins)
    case Check(_) => b
    case Do(a, now) => if Act(c, f, a, now).Done? then PostedAction(c, f, b, a) else b
  }

  /** The entry for an action that was carried out on `f`. */
  function PostedAction(c: Config, f: Farm, b: Books, a: Action): Books {
    match a
    case Rebirth =>
      var gain := PrestigeGain(c, f);
      Books(OpeningCoins(c, f.upgrades, |c.upgrades|), 0, b.closedRuns + f.runEarnings, b.gains + gain, b.giftSeeds,
            b.gainSquares + gain * gain * c.prestige.divisor)
    case RedeemGift =>
      if HoldsStarseeds(c, f) then b.(giftSeeds := b.giftSeeds + PrestigeGain(c, f) + 1 + f.rebirths) else b
    case _ => b.(spent := b.spent + CoinPrice(c, f, a))
  }

  function Kept(c: Config, f: Farm, ms: seq<Move>): Books {
    if ms == [] then Opened(c)
    else Posted(c, Play(c, f, ms[..|ms| - 1]), Kept(c, f, ms[..|ms| - 1]), ms[|ms| - 1])
  }

  // ---------- coins ----------

  ghost predicate CoinsBalance(f: Farm, b: Books) {
    && 0 <= b.spent && 0 <= b.started && 0 <= b.closedRuns
    && (b.started + f.runEarnings < MAX ==> f.coins + b.spent == b.started + f.runEarnings)
    && (f.lifetimeEarnings < MAX ==> f.lifetimeEarnings == b.closedRuns + f.runEarnings)
  }

  lemma FlowBalances(f: Farm, g: Farm, b: Books, paid: int)
    requires CoinsBalance(f, b) && Flow(f, g, paid) && MoneyOk(f)
    ensures CoinsBalance(g, b.(spent := b.spent + paid))
  {
  }

  lemma RebirthBalances(c: Config, f: Farm, b: Books, now: int)
    requires CoinsBalance(f, b) && Sound(c, f) && RebirthStep(c, f, now).Done?
    ensures CoinsBalance(RebirthStep(c, f, now).farm, PostedAction(c, f, b, Rebirth))
  {
    hide Isqrt, EmptyPlots, CanRebirth;
    OpeningCoinsAtLeast(c, f.upgrades, |c.upgrades|);
  }

  lemma ActionBalances(c: Config, f: Farm, b: Books, a: Action, now: int)
    requires CoinsBalance(f, b) && Inv(c, f) && Act(c, f, a, now).Done?
    ensures CoinsBalance(Act(c, f, a, now).farm, PostedAction(c, f, b, a))
  {
    hide Sound, CoinsBalance, Flow, PlantStep, HarvestStep, BuyPlotStep, BuyZoneStep, BuyMultiplierStep,
         BuySeedUpgradeStep,
         UpgradePlotAutoStep, BuyUpgradeStep, RedeemGiftStep, ShooCritterStep, SetFarmNameStep, RebirthStep,
         PrestigeGain, SeedCost, MercyPlantEligible, PlotPrice, LevelPrice, AutoHarvestPrice, OpeningCoins,
         HoldsStarseeds;
    if a.Rebirth? {
      RebirthBalances(c, f, b, now);
    } else {
      SoundBoard(c, f);
      ActFlows(c, f, a, now);
      FlowBalances(f, Act(c, f, a, now).farm, b, CoinPrice(c, f, a));
      CoinsOnly(Act(c, f, a, now).farm, b.(spent := b.spent + CoinPrice(c, f, a)), PostedAction(c, f, b, a));
    }
  }

  /** The coin balance reads only the coin totals of the books. */
  lemma CoinsOnly(f: Farm, b: Books, d: Books)
    requires CoinsBalance(f, b) && d.spent == b.spent && d.started == b.started && d.closedRuns == b.closedRuns
    ensures CoinsBalance(f, d)
  {
  }

  lemma MoveBalances(c: Config, f: Farm, b: Books, m: Move)
    requires CoinsBalance(f, b) && Inv(c, f)
    ensures CoinsBalance(After(c, f, m), Posted(c, f, b, m))
  {
    hide Sound, Act, Advance, PostedAction, Award, Flow, CoinsBalance;
    SoundBoard(c, f);
    match m
    case Pass(to) =>
      AdvanceFlows(c, f, to);
      FlowBalances(f, Advance(c, f, to).farm, b, Advance(c, f, to).report.seedCoins);
    case Do(a, now) => if Act(c, f, a, now).Done? { ActionBalances(c, f, b, a, now); }
    case Check(now) =>
      FlowSelf(f);
      FlowSameMoney(f, f, f, CheckAchievements(c, f, now), 0);
      FlowBalances(f, CheckAchievements(c, f, now), b, 0);
  }

  /** Over any history, as long as the counters are below the ceiling: the wallet plus what this run has spent is what
      the run started with plus what it earned, and lifetime earnings are the earnings of all runs. */
  lemma {:induction false} CoinLedger(c: Config, seed: nat, start: int, ms: seq<Move>)
    ensures CoinsBalance(Play(c, New(c, seed, start), ms), Kept(c, New(c, seed, start), ms))
  {
    hide CoinsBalance, After, Posted, Inv;
    if ms == [] {
      FreshBalances(c, seed, start);
    } else {
      var f := Play(c, New(c, seed, start), ms[..|ms| - 1]);
      Reachable(c, seed, start, ms[..|ms| - 1]);
      CoinLedger(c, seed, start, ms[..|ms| - 1]);
      MoveBalances(c, f, Kept(c, New(c, seed, start), ms[..|ms| - 1]), ms[|ms| - 1]);
    }
  }

  lemma FreshBalances(c: Config, seed: nat, start: int)
    ensures CoinsBalance(New(c, seed, start), Opened(c))
  {
  }

  // ---------- Starseeds ----------

  /** Starseeds paid for the levels below the owned one, over the first `n` upgrades. */
  function SeedsInvested(c: Config, levels: map<string, int>, n: nat): int
    requires n <= |c.upgrades|
  {
    if n == 0 then 0
    else SeedsInvested(c, levels, n - 1) + LadderCost(c.upgrades[n - 1], Level(levels, c.upgrades[n - 1].id))
  }

  /** The prices of levels 0 .. `level` - 1 of one upgrade. */
  function LadderCost(u: Perk, level: int): int
    requires ValidPerk(u)
  {
    if level <= 0 then 0 else LadderCost(u, level - 1) + LevelPrice(u.cost, u.costGrowthPct, u.maxLevel, level - 1)
  }

  ghost predicate SeedsBalance(c: Config, f: Farm, b: Books) {
    && 0 <= f.rebirths <= b.gains && 0 <= b.giftSeeds
    && (b.gains + b.giftSeeds <= MAX
        ==> f.prestige + SeedsInvested(c, f.upgrades, |c.upgrades|) == b.gains + b.giftSeeds)
    && b.gainSquares <= b.closedRuns
    && 0 <= SeedsInvested(c, f.upgrades, |c.upgrades|)
  }

  lemma {:induction false} LadderRises(u: Perk, level: int)
    requires ValidPerk(u) && 0 <= level < u.maxLevel
    ensures LadderCost(u, level + 1) == LadderCost(u, level) + LevelPrice(u.cost, u.costGrowthPct, u.maxLevel, level)
  {
  }

  /** Buying one level of upgrade `k` adds exactly that level's price to what is invested. */
  lemma {:induction false} InvestmentRises(c: Config, levels: map<string, int>, k: nat, n: nat)
    requires k < |c.upgrades| && n <= |c.upgrades| && 0 <= Level(levels, c.upgrades[k].id) < c.upgrades[k].maxLevel
    ensures var u := c.upgrades[k]; var level := Level(levels, u.id);
            SeedsInvested(c, levels[u.id := level + 1], n)
            == SeedsInvested(c, levels, n) + if k < n then LevelPrice(u.cost, u.costGrowthPct, u.maxLevel, level) else 0
  {
    hide LevelPrice;
    if n > 0 {
      InvestmentRises(c, levels, k, n - 1);
      if n - 1 < k { assert c.upgrades[n - 1].id != c.upgrades[k].id; }
      if k < n - 1 { assert c.upgrades[k].id != c.upgrades[n - 1].id; }
      if n - 1 == k { LadderRises(c.upgrades[k], Level(levels, c.upgrades[k].id)); }
    }
  }

  lemma {:induction false} NothingInvested(c: Config, n: nat)
    requires n <= |c.upgrades|
    ensures SeedsInvested(c, map[], n) == 0
  {
    if n > 0 { NothingInvested(c, n - 1); }
  }

  lemma BuyUpgradeSeeds(c: Config, f: Farm, b: Books, id: string)
    requires SeedsBalance(c, f, b) && Sound(c, f) && BuyUpgradeStep(c, f, id).Done?
    ensures SeedsBalance(c, BuyUpgradeStep(c, f, id).farm, b)
  {
    hide LevelPrice, SeedsInvested, PlotsOk, LandOk, PerksWithin, StrainsWithin;
    var u := c.upgradeById[id];
    var k := IndexOf(c, id);
    LevelBelowMax(c, f, k);
    InvestmentRises(c, f.upgrades, k, |c.upgrades|);
  }

  lemma IndexOf(c: Config, id: string) returns (k: nat)
    requires id in c.upgradeById
    ensures k < |c.upgrades| && c.upgrades[k] == c.upgradeById[id] && c.upgrades[k].id == id
  {
    assert c.upgradeById[id] in c.upgrades;
    k :| 0 <= k < |c.upgrades| && c.upgrades[k] == c.upgradeById[id];
  }

  lemma LevelBelowMax(c: Config, f: Farm, k: nat)
    requires Sound(c, f) && k < |c.upgrades|
    ensures var u := c.upgrades[k];
            && 0 <= Level(f.upgrades, u.id) <= u.maxLevel
            && (LevelPrice(u.cost, u.costGrowthPct, u.maxLevel, Level(f.upgrades, u.id)) >= 0
                ==> Level(f.upgrades, u.id) < u.maxLevel)
  {
    assert c.upgrades[k] in c.upgrades;
  }

  /** A rebirth's gain squared, times the divisor, fits in the run that paid for it. */
  lemma GainFitsRun(c: Config, f: Farm)
    requires f.runEarnings >= 0
    ensures PrestigeGain(c, f) * PrestigeGain(c, f) * c.prestige.divisor <= f.runEarnings
  {
    var q := Quo(f.runEarnings, c.prestige.divisor);
    var r := Isqrt(q);
    IsqrtIsRoot(q);
    MulMono(r * r, q, c.prestige.divisor);
    QuotientFloor(f.runEarnings, c.prestige.divisor);
  }

  lemma RebirthSeeds(c: Config, f: Farm, b: Books, now: int)
    requires SeedsBalance(c, f, b) && MoneyOk(f) && RebirthStep(c, f, now).Done?
    ensures SeedsBalance(c, RebirthStep(c, f, now).farm, PostedAction(c, f, b, Rebirth))
  {
    hide PrestigeGain, SeedsInvested, OpeningCoins, EmptyPlots;
    GainFitsRun(c, f);
    var gain := PrestigeGain(c, f);
    if b.gains + gain + b.giftSeeds <= MAX { SatAddClips(f.prestige, gain); }
  }

  lemma RedeemGiftSeeds(c: Config, f: Farm, b: Books)
    requires SeedsBalance(c, f, b) && MoneyOk(f) && RedeemGiftStep(c, f).Done?
    ensures SeedsBalance(c, RedeemGiftStep(c, f).farm, PostedAction(c, f, b, RedeemGift))
  {
    hide PrestigeGain, SeedsInvested, GiftCoins, GiftRng, HoldsStarseeds, Credit;
    if HoldsStarseeds(c, f) {
      var amount := PrestigeGain(c, f) + 1 + f.rebirths;
      if b.gains + b.giftSeeds + amount <= MAX { SatAddClips(f.prestige, amount); }
    }
  }

  /** Every other action leaves Starseeds, upgrades and the rebirth count alone. */
  lemma OtherActionSeeds(c: Config, f: Farm, a: Action, now: int)
    requires Act(c, f, a, now).Done? && !a.Rebirth? && !a.RedeemGift? && !a.BuyUpgrade?
    ensures var g := Act(c, f, a, now).farm;
            g.prestige == f.prestige && g.upgrades == f.upgrades && g.rebirths == f.rebirths
  {
    hide PlantStep, HarvestStep, BuyPlotStep, BuyZoneStep, BuyMultiplierStep, BuySeedUpgradeStep, UpgradePlotAutoStep,
         ShooCritterStep, SetFarmNameStep;
  }

  lemma MoveSeeds(c: Config, f: Farm, b: Books, m: Move)
    requires SeedsBalance(c, f, b) && Inv(c, f)
    ensures SeedsBalance(c, After(c, f, m), Posted(c, f, b, m))
  {
    hide Sound, Act, Advance, Award, SeedsInvested, PostedAction;
    SoundBoard(c, f);
    match m
    case Check(_) =>
    case Pass(to) => AdvanceSeeds(c, f, to);
    case Do(a, now) => if Act(c, f, a, now).Done? { ActionSeeds(c, f, b, a, now); }
  }

  lemma AdvanceSeeds(c: Config, f: Farm, to: int)
    requires Inv(c, f)
    ensures var g := Advance(c, f, to).farm;
            g.prestige == f.prestige && g.upgrades == f.upgrades && g.rebirths == f.rebirths && g.version == f.version
  {
    hide Sound, Prelude, TendPlots, Award, Awarded, EventKnown;
    if to > f.updatedAt {
      PreludeKeeps(c, f, to);
      TendPlotsKeeps(c, Prelude(c, f, to), 0, f.updatedAt, to, Online(to - f.updatedAt));
    }
  }

  lemma ActionSeeds(c: Config, f: Farm, b: Books, a: Action, now: int)
    requires SeedsBalance(c, f, b) && Inv(c, f) && Act(c, f, a, now).Done?
    ensures SeedsBalance(c, Act(c, f, a, now).farm, PostedAction(c, f, b, a))
  {
    hide Sound, SeedsBalance, PlantStep, HarvestStep, BuyPlotStep, BuyZoneStep, BuyMultiplierStep, BuySeedUpgradeStep,
         UpgradePlotAutoStep, BuyUpgradeStep, RedeemGiftStep, ShooCritterStep, SetFarmNameStep, RebirthStep,
         PrestigeGain, SeedCost, MercyPlantEligible, PlotPrice, LevelPrice, AutoHarvestPrice, OpeningCoins,
         HoldsStarseeds;
    SoundBoard(c, f);
    if a.Rebirth? {
      RebirthSeeds(c, f, b, now);
    } else if a.RedeemGift? {
      RedeemGiftSeeds(c, f, b);
    } else if a.BuyUpgrade? {
      BuyUpgradeSeeds(c, f, b, a.id);
    } else {
      OtherActionSeeds(c, f, a, now);
      SeedsOnly(c, f, Act(c, f, a, now).farm, b, PostedAction(c, f, b, a));
    }
  }

  lemma SeedsOnly(c: Config, f: Farm, g: Farm, b: Books, d: Books)
    requires SeedsBalance(c, f, b) && g.prestige == f.prestige && g.upgrades == f.upgrades && g.rebirths == f.rebirths
    requires d.gains == b.gains && d.giftSeeds == b.giftSeeds && d.gainSquares == b.gainSquares
        && d.closedRuns == b.closedRuns
    ensures SeedsBalance(c, g, d)
  {
  }

  /** Over any history: Starseeds held plus those invested in upgrade levels are those gained by rebirths and gifts, and
      the squared gains times the divisor never exceed what the finished runs earned. */
  lemma {:induction false} StarseedLedger(c: Config, seed: nat, start: int, ms: seq<Move>)
    ensures SeedsBalance(c, Play(c, New(c, seed, start), ms), Kept(c, New(c, seed, start), ms))
  {
    hide SeedsBalance, After, Posted, Inv;
    if ms == [] {
      FreshSeeds(c, seed, start);
    } else {
      var f := Play(c, New(c, seed, start), ms[..|ms| - 1]);
      Reachable(c, seed, start, ms[..|ms| - 1]);
      StarseedLedger(c, seed, start, ms[..|ms| - 1]);
      MoveSeeds(c, f, Kept(c, New(c, seed, start), ms[..|ms| - 1]), ms[|ms| - 1]);
    }
  }

  lemma FreshSeeds(c: Config, seed: nat, start: int)
    ensures SeedsBalance(c, New(c, seed, start), Opened(c))
  {
    NothingInvested(c, |c.upgrades|);
  }

  /** Squared gains of all rebirths, times the divisor, are covered by lifetime earnings. */
  lemma GainsAreEarned(c: Config, seed: nat, start: int, ms: seq<Move>)
    requires Play(c, New(c, seed, start), ms).lifetimeEarnings < MAX
    ensures Kept(c, New(c, seed, start), ms).gainSquares <= Play(c, New(c, seed, start), ms).lifetimeEarnings
  {
    hide Play, Kept, New;
    Reachable(c, seed, start, ms);
    CoinLedger(c, seed, start, ms);
    StarseedLedger(c, seed, start, ms);
  }

  /** A rebirth is a new game on the same random stream, but for what is permanent: the version, Starseeds with the
      gain added, upgrades and the opening coins they give, achievements, the counters, the player's settings, the
      moon's epoch, and a parcel still waiting at the gate. */
  lemma RebirthIsNewGame(c: Config, f: Farm, now: int)
    requires CanRebirth(c, f)
    ensures RebirthStep(c, f, now) == Done(
      New(c, f.rng, now).(version := f.version, prestige := SatAdd(f.prestige, Wrap(PrestigeGain(c, f))),
        upgrades := f.upgrades,
        coins := OpeningCoins(c, f.upgrades, |c.upgrades|), achievements := f.achievements, rebirths := f.rebirths + 1,
        lifetimeEarnings := f.lifetimeEarnings, lifetimeHarvests := f.lifetimeHarvests,
        flavorEnabled := f.flavorEnabled,
        farmName := f.farmName, moonEpoch := f.moonEpoch, giftPending := f.giftPending,
        giftArrivedAt := f.giftArrivedAt),
      Gain(PrestigeGain(c, f)))
  {
    hide PrestigeGain, OpeningCoins, EmptyPlots, Valid;
  }
}
