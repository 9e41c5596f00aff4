// The capped, batched harvest loop against the plain cycle-by-cycle loop it stands for.
module CatchUp {
  import opened Int64
  import opened Content
  import opened Farms
  import opened Derive
  import opened Actions
  import opened Advancing
  import opened Invariant
  import opened Reporting

  // ---------- the loop is bounded ----------

  /** Plot `i` still stands with its next maturity at `matureAt`. */
  ghost predicate Standing(t: Tick, i: nat, grow: int, matureAt: int)
    requires i < |t.farm.plots|
  {
    t.farm.plots[i].crop != "" && t.farm.plots[i].plantedAt + grow == matureAt
  }

  /** How a plot's loop ends: with at most `AUTO_CYCLE_CAP` replants and one batch behind it, and the plot empty, or
      growing past `to`, or at an unsettled maturity because at the cap a batch is unaffordable or unprofitable. */
  ghost predicate WellEnded(c: Config, r: Settled, i: nat, crop: Crop, grow: int, to: int)
    requires i < |r.tick.farm.plots|
  {
    var g := r.tick.farm;
    && r.cycles <= AUTO_CYCLE_CAP && r.batches <= 1
    && (|| g.plots[i].crop == ""
        || (Standing(r.tick, i, grow, r.matureAt) && r.matureAt > to)
        || (Standing(r.tick, i, grow, r.matureAt) && r.matureAt <= to && r.cycles == AUTO_CYCLE_CAP && r.batches == 0
            && (g.coins < SeedCost(c, g, crop) || ExpectedPayout(c, g, crop) <= SeedCost(c, g, crop))))
  }

  /** Every loop ends well, from any count of cycles within the cap. */
  lemma {:induction false} CatchUpIsBounded(c: Config, t: Tick, i: nat, crop: Crop, grow: int, matureAt: int,
                                            cycles: nat, batches: nat, to: int)
    requires i < |t.farm.plots| && grow >= 1 && cycles <= AUTO_CYCLE_CAP
    requires Standing(t, i, grow, matureAt) && (cycles > 0 ==> t.farm.plots[i].autoSow)
    requires batches == 0 || (batches == 1 && matureAt > to)
    ensures WellEnded(c, Settle(c, t, i, crop, grow, matureAt, cycles, batches, to), i, crop, grow, to)
    decreases if matureAt <= to then to - matureAt + 1 else 0
  {
    hide Valid, Reap, Replant, Batch, CanReplant, CanBatch, Due, WellEnded, ClearPlot;
    if matureAt > to {
      EndsPast(c, t, i, crop, grow, matureAt, cycles, batches, to);
    } else if cycles >= AUTO_CYCLE_CAP {
      if CanBatch(c, t.farm, i, crop) {
        var t1 := Batch(c, t, i, crop, grow, matureAt, to);
        DueReaches(matureAt, grow, to);
        CursorAfter(matureAt, grow, Due(matureAt, grow, to));
        CatchUpIsBounded(c, t1, i, crop, grow, t1.farm.plots[i].plantedAt + grow, cycles, batches + 1, to);
      } else {
        EndsAtCap(c, t, i, crop, grow, matureAt, to);
      }
    } else {
      var t1 := Reap(c, t, crop);
      if CanReplant(c, t1.farm, i, crop) {
        ReplantSows(c, t1.farm, i, crop);
        CatchUpIsBounded(c, Replant(c, t1, i, crop, matureAt), i, crop, grow, matureAt + grow, cycles + 1, batches, to);
      } else {
        EndsEmpty(c, t1, i, crop, grow, matureAt, cycles, batches, to);
      }
    }
  }

  lemma EndsPast(c: Config, t: Tick, i: nat, crop: Crop, grow: int, matureAt: int, cycles: nat, batches: nat, to: int)
    requires i < |t.farm.plots| && cycles <= AUTO_CYCLE_CAP && batches <= 1
    requires Standing(t, i, grow, matureAt) && matureAt > to
    ensures WellEnded(c, Settled(t, matureAt, cycles, batches), i, crop, grow, to)
  {
  }

  lemma EndsAtCap(c: Config, t: Tick, i: nat, crop: Crop, grow: int, matureAt: int, to: int)
    requires i < |t.farm.plots| && Standing(t, i, grow, matureAt) && matureAt <= to
    requires t.farm.plots[i].autoSow && !CanBatch(c, t.farm, i, crop)
    ensures WellEnded(c, Settled(t, matureAt, AUTO_CYCLE_CAP, 0), i, crop, grow, to)
  {
    hide Valid, SeedCost, ExpectedPayout;
  }

  lemma EndsEmpty(c: Config, t: Tick, i: nat, crop: Crop, grow: int, matureAt: int, cycles: nat, batches: nat, to: int)
    requires i < |t.farm.plots| && cycles <= AUTO_CYCLE_CAP && batches <= 1
    ensures WellEnded(c, Settled(ClearPlot(t, i), matureAt, cycles, batches), i, crop, grow, to)
  {
    hide Valid;
  }

  lemma ReplantSows(c: Config, f: Farm, i: nat, crop: Crop)
    requires i < |f.plots| && CanReplant(c, f, i, crop)
    ensures f.plots[i].autoSow
  {
  }

  lemma CursorAfter(matureAt: int, grow: int, n: int)
    ensures matureAt + (n - 1) * grow + grow == matureAt + n * grow
  {
  }

  // ---------- the steady regime ----------

  function Sale(c: Config, f: Farm, crop: Crop): int64 { SellMultiplied(c, f, crop.sellValue, crop.id) }

  /** A harvest of `crop` needs no roll and its price does not follow the moon. */
  ghost predicate Steady(c: Config, f: Farm, crop: Crop) {
    && ValidCrop(crop) && !crop.archetype.Risky? && crop.id != c.moon.moonberryCropId
    && c.golden.chancePct == 0 && !DiscoveryRolls(c, f)
  }

  /** The reference: the harvest/replant loop with neither cap nor batch. */
  function PlainLoop(c: Config, t: Tick, i: nat, crop: Crop, grow: int, matureAt: int, to: int): (r: Tick)
    requires i < |t.farm.plots| && grow >= 1
    ensures |r.farm.plots| == |t.farm.plots|
    decreases if matureAt <= to then to - matureAt + 1 else 0
  {
    if matureAt > to then t
    else
      var t1 := Reap(c, t, crop);
      if CanReplant(c, t1.farm, i, crop) then
        PlainLoop(c, Replant(c, t1, i, crop, matureAt), i, crop, grow, matureAt + grow, to)
      else ClearPlot(t1, i)
  }

  /** `k` harvests of `id` on plot `i` that brought `gross` and cost `seeds` coins, leaving the cursor at `cursor`. */
  function Moved(t: Tick, i: nat, id: string, gross: int, seeds: int, k: int, cursor: int): Tick
    requires i < |t.farm.plots|
  {
    Tick(t.farm.(coins := Wrap(t.farm.coins + gross - seeds), runEarnings := Wrap(t.farm.runEarnings + gross),
                 lifetimeEarnings := Wrap(t.farm.lifetimeEarnings + gross),
                 lifetimeHarvests := Wrap(t.farm.lifetimeHarvests + k),
                 plots := t.farm.plots[i := t.farm.plots[i].(plantedAt := cursor)]),
         t.report.(autoCoins := Wrap(t.report.autoCoins + gross - seeds), seedCoins := t.report.seedCoins + seeds,
                   autoHarvested := Bump(t.report.autoHarvested, id, k)))
  }

  /** `k` harvests at `pay` coins, each replanted for `seed`. */
  function Cycled(t: Tick, i: nat, id: string, pay: int, seed: int, k: nat, cursor: int): Tick
    requires i < |t.farm.plots|
  {
    Moved(t, i, id, k * pay, k * seed, k, cursor)
  }

  /** Crediting `gross` coins over `k` harvests meets no ceiling. */
  ghost predicate Room(t: Tick, gross: int, k: int) {
    && 0 <= t.farm.coins && 0 <= t.farm.runEarnings && 0 <= t.farm.lifetimeEarnings && 0 <= t.farm.lifetimeHarvests
    && MIN <= t.report.autoCoins
    && t.farm.coins + gross <= MAX && t.farm.runEarnings + gross <= MAX && t.farm.lifetimeEarnings + gross <= MAX
    && t.farm.lifetimeHarvests + k <= MAX && t.report.autoCoins + gross <= MAX
  }

  lemma SteadyYield(c: Config, f: Farm, crop: Crop)
    requires Steady(c, f, crop)
    ensures HarvestYield(c, f, crop) == Yield(f.rng, Sale(c, f, crop), 0, false, false)
    ensures Sale(c, f, crop) >= 0 && ExpectedPayout(c, f, crop) == Sale(c, f, crop)
  {
    hide Boost, SellBonusPct, Roll;
    BoostMonotone(crop.sellValue, crop.sellValue, SellBonusPct(c, f, crop.id));
  }

  /** One harvest at `pay` coins, the plot not yet replanted or cleared. */
  function Reaped(t: Tick, id: string, pay: int): Tick {
    Tick(t.farm.(coins := Wrap(t.farm.coins + pay), runEarnings := Wrap(t.farm.runEarnings + pay),
                 lifetimeEarnings := Wrap(t.farm.lifetimeEarnings + pay),
                 lifetimeHarvests := Wrap(t.farm.lifetimeHarvests + 1)),
         t.report.(autoCoins := Wrap(t.report.autoCoins + pay), autoHarvested := Bump(t.report.autoHarvested, id, 1)))
  }

  lemma SteadyReap(c: Config, t: Tick, crop: Crop)
    requires Steady(c, t.farm, crop) && Room(t, Sale(c, t.farm, crop), 1)
    ensures Reap(c, t, crop) == Reaped(t, crop.id, Sale(c, t.farm, crop))
  {
    hide HarvestYield, Sale, ExpectedPayout, Bump, Credit;
    SteadyYield(c, t.farm, crop);
    CreditExact(t.farm, Sale(c, t.farm, crop));
    SatAddClips(t.report.autoCoins, Sale(c, t.farm, crop));
  }

  /** One cycle: harvest and replant. */
  lemma SteadyCycle(c: Config, t: Tick, i: nat, crop: Crop, matureAt: int)
    requires Steady(c, t.farm, crop) && Room(t, Sale(c, t.farm, crop), 1) && i < |t.farm.plots|
    requires Sale(c, t.farm, crop) > SeedCost(c, t.farm, crop) && t.farm.plots[i].autoSow
        && Unlocked(t.farm, crop.unlock)
    ensures var t1 := Reap(c, t, crop);
            && CanReplant(c, t1.farm, i, crop)
            && Replant(c, t1, i, crop, matureAt)
               == Cycled(t, i, crop.id, Sale(c, t.farm, crop), SeedCost(c, t.farm, crop), 1, matureAt)
  {
    hide Reap, Sale, Bump, Steady, SeedCost, Valid;
    var pay := Sale(c, t.farm, crop);
    SteadyReap(c, t, crop);
    var t1 := Reaped(t, crop.id, pay);
    SameSeedCost(c, t.farm, t1.farm, crop);
    assert Wrap(t1.farm.coins) == t1.farm.coins == t.farm.coins + pay;
  }

  lemma SameSeedCost(c: Config, f: Farm, g: Farm, crop: Crop)
    requires f.eventId == g.eventId
    ensures SeedCost(c, f, crop) == SeedCost(c, g, crop)
  {
  }

  /** A batch of `n` harvests with its gross and its seeds as they come out of the saturating products. */
  function BatchOf(t: Tick, i: nat, id: string, gross: int64, allSeeds: int64, n: int, cursor: int): Tick
    requires i < |t.farm.plots|
  {
    var paid := Credit(t.farm, gross);
    var seeds := Min(allSeeds, paid.coins);
    Tick(paid.(coins := Wrap(paid.coins - seeds), lifetimeHarvests := SatAdd(paid.lifetimeHarvests, Min(n, MAX)),
               plots := t.farm.plots[i := t.farm.plots[i].(plantedAt := cursor)]),
         t.report.(autoCoins := SatAdd(t.report.autoCoins, Wrap(gross - seeds)),
                   seedCoins := t.report.seedCoins + seeds,
                   autoHarvested := Bump(t.report.autoHarvested, id, n)))
  }

  lemma BatchIsOf(c: Config, t: Tick, i: nat, crop: Crop, grow: int, matureAt: int, to: int)
    requires i < |t.farm.plots| && grow >= 1 && matureAt <= to && CanBatch(c, t.farm, i, crop)
    ensures Due(matureAt, grow, to) >= 1
    ensures var n := Due(matureAt, grow, to);
            Batch(c, t, i, crop, grow, matureAt, to)
            == BatchOf(t, i, crop.id, SatMul(ExpectedPayout(c, t.farm, crop), n), SatMul(SeedCost(c, t.farm, crop), n),
                n,
                       matureAt + (n - 1) * grow)
  {
    hide ExpectedPayout, SeedCost, Bump, Due, SatMul, Credit, SatAdd, Wrap, Valid;
    DueReaches(matureAt, grow, to);
  }

  /** With room for its gross, a batch moves just what its products say. */
  lemma BatchIsMoved(t: Tick, i: nat, id: string, gross: int64, seeds: int64, n: nat, cursor: int)
    requires i < |t.farm.plots| && 0 <= seeds <= gross && Room(t, gross, n)
    ensures BatchOf(t, i, id, gross, seeds, n, cursor) == Moved(t, i, id, gross, seeds, n, cursor)
  {
    hide Bump, Credit;
    CreditExact(t.farm, gross);
    hide SatAdd;
    HarvestsFit(t.farm.lifetimeHarvests, n);
    SatAddClips(t.report.autoCoins, gross - seeds);
  }

  /** With room for it a batch is `n` cycles at once. */
  lemma BatchOfCycles(t: Tick, i: nat, id: string, pay: int, seed: int, n: nat, cursor: int)
    requires i < |t.farm.plots| && 0 <= seed <= pay && n >= 1 && Room(t, n * pay, n)
    ensures 0 <= SatMul(pay, n) <= MAX && 0 <= SatMul(seed, n) <= MAX
    ensures BatchOf(t, i, id, SatMul(pay, n), SatMul(seed, n), n, cursor) == Cycled(t, i, id, pay, seed, n, cursor)
  {
    hide SatMul, BatchOf, Moved;
    BatchNet(pay, seed, n);
    MulMono(seed, pay, n);
    MulMono(0, seed, n);
    ExactGross(pay, n, t.farm.coins);
    ExactGross(seed, n, t.farm.coins);
    BatchIsMoved(t, i, id, SatMul(pay, n), SatMul(seed, n), n, cursor);
  }

  lemma HarvestsFit(harvests: int64, n: nat)
    requires 0 <= harvests && harvests + n <= MAX
    ensures SatAdd(harvests, Min(n, MAX)) == Wrap(harvests + n) == harvests + n
  {
    SatAddClips(harvests, n);
  }

  /** One batch of `n` cycles. */
  lemma SteadyBatch(c: Config, t: Tick, i: nat, crop: Crop, grow: int, matureAt: int, to: int)
    requires i < |t.farm.plots| && grow >= 1 && matureAt <= to && CanBatch(c, t.farm, i, crop)
    requires Steady(c, t.farm, crop)
    requires Room(t, Due(matureAt, grow, to) * Sale(c, t.farm, crop), Due(matureAt, grow, to))
    ensures Due(matureAt, grow, to) >= 1
    ensures var n := Due(matureAt, grow, to);
            Batch(c, t, i, crop, grow, matureAt, to)
            == Cycled(t, i, crop.id, Sale(c, t.farm, crop), SeedCost(c, t.farm, crop), n, matureAt + (n - 1) * grow)
  {
    hide Sale, ExpectedPayout, HarvestYield, SeedCost, Due, Batch, BatchOf, Cycled, Steady, Room, SatMul, Valid;
    BatchIsOf(c, t, i, crop, grow, matureAt, to);
    SteadyYield(c, t.farm, crop);
    var n := Due(matureAt, grow, to);
    BatchOfCycles(t, i, crop.id, Sale(c, t.farm, crop), SeedCost(c, t.farm, crop), n, matureAt + (n - 1) * grow);
  }

  lemma ExactGross(pay: int, n: int, coins: int)
    requires pay >= 0 && n >= 0 && coins >= 0 && coins + n * pay <= MAX
    ensures SatMul(pay, n) == pay * n == n * pay
  {
    MulMono(0, pay, n);
  }

  lemma CreditExact(f: Farm, amount: int)
    requires 0 <= amount && 0 <= f.coins && 0 <= f.runEarnings && 0 <= f.lifetimeEarnings
    requires f.coins + amount <= MAX && f.runEarnings + amount <= MAX && f.lifetimeEarnings + amount <= MAX
    ensures Credit(f, amount) == f.(coins := f.coins + amount, runEarnings := f.runEarnings + amount,
                                    lifetimeEarnings := f.lifetimeEarnings + amount)
  {
  }

  // ---------- composing cycles ----------

  /** Two adjustments of a counter that stays in range are one. */
  lemma WrapTwice(x: int64, a: int, b: int)
    requires MIN <= x + a <= MAX && MIN <= x + a + b <= MAX
    ensures Wrap(Wrap(x + a) + b) == Wrap(x + a + b)
  {
  }

  lemma PlotTwice(ps: seq<Plot>, i: nat, c1: int, c2: int)
    requires i < |ps|
    ensures var qs := ps[i := ps[i].(plantedAt := c1)];
            qs[i := qs[i].(plantedAt := c2)] == ps[i := ps[i].(plantedAt := c2)]
  {
  }

  lemma MovedCompose(t: Tick, i: nat, id: string, g1: int, s1: int, k: nat, c1: int, g2: int, s2: int, m: nat, c2: int)
    requires i < |t.farm.plots| && 0 <= s1 <= g1 && 0 <= s2 <= g2 && Room(t, g1 + g2, k + m)
    ensures Moved(Moved(t, i, id, g1, s1, k, c1), i, id, g2, s2, m, c2) == Moved(t, i, id, g1 + g2, s1 + s2, k + m, c2)
  {
    WrapTwice(t.farm.coins, g1 - s1, g2 - s2);
    WrapTwice(t.farm.runEarnings, g1, g2);
    WrapTwice(t.farm.lifetimeEarnings, g1, g2);
    WrapTwice(t.farm.lifetimeHarvests, k, m);
    WrapTwice(t.report.autoCoins, g1 - s1, g2 - s2);
    BumpTwice(t.report.autoHarvested, id, k, m);
    PlotTwice(t.farm.plots, i, c1, c2);
    hide Wrap, Bump, Room;
    assert Wrap(Wrap(t.farm.coins + g1 - s1) + g2 - s2) == Wrap(t.farm.coins + (g1 + g2) - (s1 + s2));
    assert Wrap(Wrap(t.report.autoCoins + g1 - s1) + g2 - s2) == Wrap(t.report.autoCoins + (g1 + g2) - (s1 + s2));
  }

  lemma CycledCompose(t: Tick, i: nat, id: string, pay: int, seed: int, k: nat, m: nat, cursor: int, last: int)
    requires i < |t.farm.plots| && 0 <= seed <= pay && Room(t, (k + m) * pay, k + m)
    ensures Cycled(Cycled(t, i, id, pay, seed, k, cursor), i, id, pay, seed, m, last)
            == Cycled(t, i, id, pay, seed, k + m, last)
  {
    hide Moved, Room;
    Distribute(pay, k, m);
    Distribute(seed, k, m);
    MulMono(0, k, seed);
    MulMono(seed, pay, k);
    MulMono(0, m, seed);
    MulMono(seed, pay, m);
    MovedCompose(t, i, id, k * pay, k * seed, k, cursor, m * pay, m * seed, m, last);
  }

  lemma BumpTwice(m: map<string, int>, id: string, k: int, n: int)
    ensures Bump(Bump(m, id, k), id, n) == Bump(m, id, k + n)
  {
  }

  /** There is room for the remaining harvests after the first `k`. */
  lemma RoomAfter(t: Tick, i: nat, id: string, pay: int, seed: int, k: nat, m: nat, cursor: int)
    requires i < |t.farm.plots| && 0 <= seed <= pay && Room(t, (k + m) * pay, k + m)
    ensures Room(Cycled(t, i, id, pay, seed, k, cursor), m * pay, m)
    ensures Cycled(t, i, id, pay, seed, k, cursor).farm.coins >= t.farm.coins
  {
    hide Bump;
    Distribute(pay, k, m);
    MulMono(0, k, pay);
    MulMono(0, m, pay);
    MulMono(0, k, seed);
    MulMono(seed, pay, k);
  }

  /** Harvest cycles change neither a price nor a gate. */
  lemma CycledKeepsRates(c: Config, t: Tick, i: nat, crop: Crop, pay: int, seed: int, k: nat, cursor: int)
    requires i < |t.farm.plots| && Steady(c, t.farm, crop) && Unlocked(t.farm, crop.unlock)
    requires 0 <= seed <= pay && Room(t, k * pay, k)
    ensures var g := Cycled(t, i, crop.id, pay, seed, k, cursor).farm;
            && Steady(c, g, crop) && Unlocked(g, crop.unlock) && Sale(c, g, crop) == Sale(c, t.farm, crop)
            && SeedCost(c, g, crop) == SeedCost(c, t.farm, crop) && g.plots[i].autoSow == t.farm.plots[i].autoSow
            && |g.plots| == |t.farm.plots|
  {
    hide Bump, Boost, EffectSum, Valid, ValidCrop;
    MulMono(0, k, pay);
  }

  // ---------- both loops in closed form ----------

  /** What both loops need of the plot: sown, unlocked, steady, profitable, and room for `n` harvests. */
  ghost predicate Runs(c: Config, t: Tick, i: nat, crop: Crop, n: int) {
    && i < |t.farm.plots| && Steady(c, t.farm, crop) && t.farm.plots[i].autoSow && Unlocked(t.farm, crop.unlock)
    && Sale(c, t.farm, crop) > SeedCost(c, t.farm, crop) && Room(t, n * Sale(c, t.farm, crop), n)
  }

  /** The tick after `n` cycles whose first maturity is `matureAt`. */
  function CycledFrom(c: Config, t: Tick, i: nat, crop: Crop, grow: int, matureAt: int, n: nat): Tick
    requires i < |t.farm.plots|
  {
    if n == 0 then t
    else Cycled(t, i, crop.id, Sale(c, t.farm, crop), SeedCost(c, t.farm, crop), n, matureAt + (n - 1) * grow)
  }

  /** The first cycle of several happens, and leaves `CycledFrom` of one cycle. */
  lemma FirstCycle(c: Config, t: Tick, i: nat, crop: Crop, grow: int, matureAt: int, n: nat)
    requires Runs(c, t, i, crop, n) && n >= 1
    ensures var t1 := Reap(c, t, crop);
            && CanReplant(c, t1.farm, i, crop)
            && Replant(c, t1, i, crop, matureAt) == CycledFrom(c, t, i, crop, grow, matureAt, 1)
  {
    hide Reap, Sale, SeedCost, Steady, Cycled, CanReplant, Replant, Unlocked;
    SteadyYield(c, t.farm, crop);
    RoomFewer(t, Sale(c, t.farm, crop), 1, n - 1);
    SteadyCycle(c, t, i, crop, matureAt);
  }

  lemma SplitCycles(c: Config, t: Tick, i: nat, crop: Crop, grow: int, matureAt: int, k: nat, m: nat)
    requires Runs(c, t, i, crop, k + m) && k >= 1
    ensures var t2 := CycledFrom(c, t, i, crop, grow, matureAt, k);
            && Runs(c, t2, i, crop, m) && t2.farm.coins >= t.farm.coins
            && CycledFrom(c, t2, i, crop, grow, matureAt + k * grow, m)
            == CycledFrom(c, t, i, crop, grow, matureAt, k + m)
  {
    hide Sale, SeedCost, Steady, Unlocked, Cycled;
    var pay, seed := Sale(c, t.farm, crop), SeedCost(c, t.farm, crop);
    var cursor := matureAt + (k - 1) * grow;
    SteadyYield(c, t.farm, crop);
    RoomFewer(t, pay, k, m);
    RoomAfter(t, i, crop.id, pay, seed, k, m, cursor);
    CycledKeepsRates(c, t, i, crop, pay, seed, k, cursor);
    if m > 0 {
      CycledCompose(t, i, crop.id, pay, seed, k, m, cursor, matureAt + (k + m - 1) * grow);
      LastCursor(matureAt, grow, k, m);
    }
  }

  lemma LastCursor(matureAt: int, grow: int, k: int, m: int)
    ensures matureAt + k * grow + (m - 1) * grow == matureAt + (k + m - 1) * grow
  {
  }

  lemma RoomFewer(t: Tick, pay: int, k: nat, m: nat)
    requires pay >= 0 && Room(t, (k + m) * pay, k + m)
    ensures Room(t, k * pay, k)
  {
    Distribute(pay, k, m);
    MulMono(0, m, pay);
  }

  lemma DueStep(matureAt: int, grow: int, to: int)
    requires grow >= 1 && matureAt <= to
    ensures Due(matureAt, grow, to) == 1 + Due(matureAt + grow, grow, to) && Due(matureAt + grow, grow, to) >= 0
  {
    DueReaches(matureAt, grow, to);
    if matureAt + grow <= to {
      assert (to - matureAt) / grow == (to - (matureAt + grow)) / grow + 1 by { QuotientStep(to - matureAt, grow); }
      DueReaches(matureAt + grow, grow, to);
    } else {
      assert (to - matureAt) / grow == 0;
    }
  }

  /** The plain loop performs exactly the due cycles. */
  lemma {:induction false} PlainLoopClosed(c: Config, t: Tick, i: nat, crop: Crop, grow: int, matureAt: int, to: int)
    requires grow >= 1 && Runs(c, t, i, crop, Due(matureAt, grow, to))
    ensures Due(matureAt, grow, to) >= 0
    ensures PlainLoop(c, t, i, crop, grow, matureAt, to)
        == CycledFrom(c, t, i, crop, grow, matureAt, Due(matureAt, grow, to))
    decreases if matureAt <= to then to - matureAt + 1 else 0
  {
    hide Runs, Reap, Replant, CanReplant, CycledFrom, Due;
    RunsIndex(c, t, i, crop, Due(matureAt, grow, to));
    if matureAt <= to {
      DueStep(matureAt, grow, to);
      FirstCycle(c, t, i, crop, grow, matureAt, Due(matureAt, grow, to));
      SplitCycles(c, t, i, crop, grow, matureAt, 1, Due(matureAt + grow, grow, to));
      PlainLoopClosed(c, CycledFrom(c, t, i, crop, grow, matureAt, 1), i, crop, grow, matureAt + grow, to);
    } else {
      NoneDue(c, t, i, crop, grow, matureAt, to);
    }
  }

  lemma RunsIndex(c: Config, t: Tick, i: nat, crop: Crop, n: int)
    requires Runs(c, t, i, crop, n)
    ensures i < |t.farm.plots|
  {
  }

  lemma NoneDue(c: Config, t: Tick, i: nat, crop: Crop, grow: int, matureAt: int, to: int)
    requires grow >= 1 && matureAt > to && i < |t.farm.plots|
    ensures Due(matureAt, grow, to) == 0 && CycledFrom(c, t, i, crop, grow, matureAt, 0) == t
  {
  }

  /** The wallet after `left` more cycles would still pay for a seed, or fewer than `left` + 1 are due. */
  predicate CapHarmless(c: Config, t: Tick, crop: Crop, due: int, left: int) {
    var pay, seed := Sale(c, t.farm, crop), SeedCost(c, t.farm, crop);
    due <= left || t.farm.coins + left * (pay - seed) >= seed
  }

  /** Where the capped loop stops: at all due cycles, or at the cap when the batch is unaffordable. */
  function SettledCycles(c: Config, t: Tick, crop: Crop, due: int, left: int): int {
    if CapHarmless(c, t, crop, due, left) then due else left
  }

  /** Taking one cycle moves the stopping point along with it. */
  lemma SettledShift(c: Config, t: Tick, i: nat, crop: Crop, grow: int, matureAt: int, due: int, left: int)
    requires Runs(c, t, i, crop, due) && due >= 1 && left >= 1
    requires Sale(c, CycledFrom(c, t, i, crop, grow, matureAt, 1).farm, crop) == Sale(c, t.farm, crop)
    requires SeedCost(c, CycledFrom(c, t, i, crop, grow, matureAt, 1).farm, crop) == SeedCost(c, t.farm, crop)
    ensures SettledCycles(c, t, crop, due, left)
            == 1 + SettledCycles(c, CycledFrom(c, t, i, crop, grow, matureAt, 1), crop, due - 1, left - 1)
  {
    hide Sale, SeedCost, Steady, Unlocked, Bump;
    var pay, seed := Sale(c, t.farm, crop), SeedCost(c, t.farm, crop);
    SteadyYield(c, t.farm, crop);
    RoomFewer(t, pay, 1, due - 1);
    Distribute(pay - seed, 1, left - 1);
  }

  lemma RunsFewer(c: Config, t: Tick, i: nat, crop: Crop, k: nat, m: nat)
    requires Runs(c, t, i, crop, k + m)
    ensures Runs(c, t, i, crop, k)
  {
    hide Sale, SeedCost, Steady, Unlocked;
    SteadyYield(c, t.farm, crop);
    RoomFewer(t, Sale(c, t.farm, crop), k, m);
  }

  lemma CycledRates(c: Config, t: Tick, i: nat, crop: Crop, grow: int, matureAt: int, n: nat)
    requires Runs(c, t, i, crop, n)
    ensures var g := CycledFrom(c, t, i, crop, grow, matureAt, n).farm;
            Sale(c, g, crop) == Sale(c, t.farm, crop) && SeedCost(c, g, crop) == SeedCost(c, t.farm, crop)
  {
    hide Sale, SeedCost, Steady, Unlocked, Cycled;
    SteadyYield(c, t.farm, crop);
    if n > 0 {
      CycledKeepsRates(c, t, i, crop, Sale(c, t.farm, crop), SeedCost(c, t.farm, crop), n, matureAt + (n - 1) * grow);
    }
  }

  /** The batch at the cap. */
  lemma BatchAtCap(c: Config, t: Tick, i: nat, crop: Crop, grow: int, matureAt: int, to: int)
    requires grow >= 1 && matureAt <= to && Runs(c, t, i, crop, Due(matureAt, grow, to))
    ensures CanBatch(c, t.farm, i, crop) <==> t.farm.coins >= SeedCost(c, t.farm, crop)
    ensures CanBatch(c, t.farm, i, crop) ==>
              Settle(c, t, i, crop, grow, matureAt, AUTO_CYCLE_CAP, 0, to).tick
              == CycledFrom(c, t, i, crop, grow, matureAt, DuePositive(matureAt, grow, to))
    ensures !CanBatch(c, t.farm, i, crop) ==> Settle(c, t, i, crop, grow, matureAt, AUTO_CYCLE_CAP, 0, to).tick == t
  {
    hide Sale, SeedCost, Steady, Unlocked, Batch, Cycled, Due, ExpectedPayout;
    SteadyYield(c, t.farm, crop);
    if CanBatch(c, t.farm, i, crop) {
      SteadyBatch(c, t, i, crop, grow, matureAt, to);
      DueReaches(matureAt, grow, to);
      CursorAfter(matureAt, grow, Due(matureAt, grow, to));
    }
  }

  function DuePositive(matureAt: int, grow: int, to: int): (n: nat)
    requires grow >= 1 && matureAt <= to
    ensures n == Due(matureAt, grow, to) >= 1
  {
    QuotientBound(to - matureAt, grow);
    Due(matureAt, grow, to)
  }

  lemma {:induction false} SettleClosed(c: Config, t: Tick, i: nat, crop: Crop, grow: int, matureAt: int, cycles: nat,
                                        to: int)
    requires grow >= 1 && cycles <= AUTO_CYCLE_CAP && Runs(c, t, i, crop, Due(matureAt, grow, to))
    ensures SettledCycles(c, t, crop, Due(matureAt, grow, to), AUTO_CYCLE_CAP - cycles) >= 0
    ensures Settle(c, t, i, crop, grow, matureAt, cycles, 0, to).tick
            == CycledFrom(c, t, i, crop, grow, matureAt,
                          SettledCycles(c, t, crop, Due(matureAt, grow, to), AUTO_CYCLE_CAP - cycles))
    decreases if matureAt <= to then to - matureAt + 1 else 0
  {
    hide Runs, Reap, Replant, CanReplant, CanBatch, CycledFrom, Due, Sale, SeedCost, Batch, SettledCycles;
    RunsIndex(c, t, i, crop, Due(matureAt, grow, to));
    if matureAt > to {
      NoneDue(c, t, i, crop, grow, matureAt, to);
      SettledAtZero(c, t, crop, AUTO_CYCLE_CAP - cycles);
    } else if cycles == AUTO_CYCLE_CAP {
      DueReaches(matureAt, grow, to);
      BatchAtCap(c, t, i, crop, grow, matureAt, to);
      SettledAtCap(c, t, crop, Due(matureAt, grow, to));
      CycledNone(c, t, i, crop, grow, matureAt);
    } else {
      var due := Due(matureAt, grow, to);
      DueStep(matureAt, grow, to);
      FirstCycle(c, t, i, crop, grow, matureAt, due);
      SplitCycles(c, t, i, crop, grow, matureAt, 1, due - 1);
      var t2 := CycledFrom(c, t, i, crop, grow, matureAt, 1);
      SettleClosed(c, t2, i, crop, grow, matureAt + grow, cycles + 1, to);
      RunsFewer(c, t, i, crop, 1, due - 1);
      CycledRates(c, t, i, crop, grow, matureAt, 1);
      SettledShift(c, t, i, crop, grow, matureAt, due, AUTO_CYCLE_CAP - cycles);
      var rest := SettledCycles(c, t2, crop, due - 1, AUTO_CYCLE_CAP - cycles - 1);
      SettledAtMost(c, t2, crop, due - 1, AUTO_CYCLE_CAP - cycles - 1);
      RunsFewer(c, t, i, crop, 1 + rest, due - 1 - rest);
      SplitCycles(c, t, i, crop, grow, matureAt, 1, rest);
    }
  }

  lemma SettledAtZero(c: Config, t: Tick, crop: Crop, left: nat)
    ensures SettledCycles(c, t, crop, 0, left) == 0
  {
  }

  lemma SettledAtCap(c: Config, t: Tick, crop: Crop, due: int)
    requires due >= 1
    ensures SettledCycles(c, t, crop, due, 0) == if t.farm.coins >= SeedCost(c, t.farm, crop) then due else 0
  {
  }

  lemma SettledAtMost(c: Config, t: Tick, crop: Crop, due: nat, left: nat)
    ensures 0 <= SettledCycles(c, t, crop, due, left) <= due
  {
  }

  lemma CycledNone(c: Config, t: Tick, i: nat, crop: Crop, grow: int, matureAt: int)
    requires i < |t.farm.plots|
    ensures CycledFrom(c, t, i, crop, grow, matureAt, 0) == t
  {
  }

  /** The fast form refines the simple one. In the steady regime the capped, batched loop ends in exactly the state and
      report of the uncapped cycle-by-cycle loop, if and only if the cap is not reached or the wallet at the cap still
      holds one seed. The batch never re-checks the unlock gate. */
  lemma BatchRefinesLoop(c: Config, t: Tick, i: nat, crop: Crop, grow: int, matureAt: int, to: int)
    requires grow >= 1 && Runs(c, t, i, crop, Due(matureAt, grow, to))
    ensures i < |t.farm.plots|
    ensures Settle(c, t, i, crop, grow, matureAt, 0, 0, to).tick == PlainLoop(c, t, i, crop, grow, matureAt, to)
            <==> CapHarmless(c, t, crop, Due(matureAt, grow, to), AUTO_CYCLE_CAP)
  {
    hide Due, Sale, SeedCost, Settle, PlainLoop, CycledFrom, Runs;
    var due := Due(matureAt, grow, to);
    PlainLoopClosed(c, t, i, crop, grow, matureAt, to);
    SettleClosed(c, t, i, crop, grow, matureAt, 0, to);
    RunsIndex(c, t, i, crop, due);
    if !CapHarmless(c, t, crop, due, AUTO_CYCLE_CAP) {
      HarvestsTell(c, t, i, crop, grow, matureAt, AUTO_CYCLE_CAP, due);
    }
  }

  lemma HarvestsCounted(c: Config, t: Tick, i: nat, crop: Crop, grow: int, matureAt: int, n: nat)
    requires i < |t.farm.plots|
    ensures CycledFrom(c, t, i, crop, grow, matureAt, n).farm.lifetimeHarvests == Wrap(t.farm.lifetimeHarvests + n)
  {
    hide Sale, SeedCost, Bump;
  }

  /** Different cycle counts show in the lifetime harvest counter. */
  lemma HarvestsTell(c: Config, t: Tick, i: nat, crop: Crop, grow: int, matureAt: int, k: nat, n: nat)
    requires Runs(c, t, i, crop, n) && k < n
    ensures CycledFrom(c, t, i, crop, grow, matureAt, k) != CycledFrom(c, t, i, crop, grow, matureAt, n)
  {
    hide Sale, SeedCost, Steady, Unlocked, CycledFrom;
    HarvestsCounted(c, t, i, crop, grow, matureAt, k);
    HarvestsCounted(c, t, i, crop, grow, matureAt, n);
  }

  /** A wallet that holds one seed at the start always suffices. */
  lemma OneSeedIsEnough(c: Config, t: Tick, i: nat, crop: Crop, grow: int, matureAt: int, to: int)
    requires grow >= 1 && Runs(c, t, i, crop, Due(matureAt, grow, to)) && t.farm.coins >= SeedCost(c, t.farm, crop)
    ensures i < |t.farm.plots|
    ensures Settle(c, t, i, crop, grow, matureAt, 0, 0, to).tick == PlainLoop(c, t, i, crop, grow, matureAt, to)
  {
    hide Due, Sale, SeedCost, Settle, PlainLoop, Steady, Unlocked, Room;
    MulMono(0, AUTO_CYCLE_CAP, Sale(c, t.farm, crop) - SeedCost(c, t.farm, crop));
    BatchRefinesLoop(c, t, i, crop, grow, matureAt, to);
  }

  // ---------- where they differ ----------

  const THIN_CROP := Crop("fast", Fast, 100_001, 1, 100_002, 0, AtStart)

  /** Content that passes validation: a crop whose sale nets a single coin over its seed. */
  ghost function ThinConfig(): (c: Content)
    ensures Accepted(c)
  {
    Sample(THIN_CROP, Land(1, 100, 1), GoldenHarvest(0, 10), Moon(0, 0, ""))
  }

  /** A new farm with its one plot sown and automated, and nothing in the wallet. */
  function ThinFarm(c: Config, rng: nat): Farm { New(c, rng, 0).(plots := [Plot("fast", 0, true, true, "")]) }

  /** An empty wallet cannot pay for a seed when the cap is reached after 50,000 cycles of one coin each: the capped
      loop stops there, while the plain loop goes on to harvest all 60,000. */
  lemma CapShows(c: Config, rng: nat)
    requires c == ThinConfig()
    ensures var t := Tick(ThinFarm(c, rng), QUIET);
            && Inv(c, t.farm) && Runs(c, t, 0, THIN_CROP, Due(1, 1, 60_000))
            && !CapHarmless(c, t, THIN_CROP, 60_000, AUTO_CYCLE_CAP)
            && Settle(c, t, 0, THIN_CROP, 1, 1, 0, 0, 60_000).tick != PlainLoop(c, t, 0, THIN_CROP, 1, 1, 60_000)
  {
    hide Settle, PlainLoop, Accepted;
    var t := Tick(ThinFarm(c, rng), QUIET);
    ThinRates(c, rng);
    ThinFarmIsInv(c, rng);
    hide Sale, SeedCost, Inv, Valid, ThinConfig;
    assert Due(1, 1, 60_000) == 60_000;
    BatchRefinesLoop(c, t, 0, THIN_CROP, 1, 1, 60_000);
  }

  lemma ThinRates(c: Config, rng: nat)
    requires c == ThinConfig()
    ensures var f := ThinFarm(c, rng);
            && Sale(c, f, THIN_CROP) == 100_002 && SeedCost(c, f, THIN_CROP) == 100_001 && Steady(c, f, THIN_CROP)
            && f.coins == 0
  {
    hide Accepted, Valid, MoonPhase;
  }

  lemma ThinFarmIsInv(c: Config, rng: nat)
    requires c == ThinConfig()
    ensures Inv(c, ThinFarm(c, rng))
  {
    hide Accepted, Valid;
  }
}
