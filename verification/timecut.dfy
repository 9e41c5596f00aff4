// A calm farm's catch-up in closed form, and cutting its time into pieces.
module TimeCut {
  import opened Int64
  import opened Content
  import opened Farms
  import opened Derive
  import opened Advancing
  import opened Invariant
  import opened Reporting
  import opened CatchUp

  // ---------- the uncapped catch-up ----------

  function PlainTendPlot(c: Config, t: Tick, i: nat, from: int, to: int, online: bool): (r: Tick)
    requires i < |t.farm.plots|
    ensures |r.farm.plots| == |t.farm.plots|
  {
    var plot := t.farm.plots[i];
    if plot.crop != "" && plot.crop in c.cropById && plot.autoHarvest then
      var crop := c.cropById[plot.crop];
      var grow := GrowSeconds(c, t.farm, crop);
      PlainLoop(c, t, i, crop, grow, plot.plantedAt + grow, to)
    else TendPlot(c, t, i, from, to, online)
  }

  function PlainTendPlots(c: Config, t: Tick, i: nat, from: int, to: int, online: bool): (r: Tick)
    requires i <= |t.farm.plots|
    decreases |t.farm.plots| - i
  {
    if i == |t.farm.plots| then t
    else PlainTendPlots(c, PlainTendPlot(c, t, i, from, to, online), i + 1, from, to, online)
  }

  /** `Advance` with every plot's loop run cycle by cycle to the end. */
  function PlainAdvance(c: Config, f: Farm, to: int): Tick {
    if to <= f.updatedAt then Tick(f, QUIET)
    else
      var t := PlainTendPlots(c, Prelude(c, f, to), 0, f.updatedAt, to, Online(to - f.updatedAt));
      var g := t.farm.(updatedAt := to);
      Tick(CheckAchievements(c, g, to), t.report.(achievements := Awarded(c, g, to, |c.achievements|)))
  }

  // ---------- rates ----------

  /** Everything the rates of a calm crop depend on. */
  ghost predicate SameRates(f: Farm, g: Farm) {
    g.upgrades == f.upgrades && g.multipliers == f.multipliers && g.eventId == f.eventId
        && g.flavorEnabled == f.flavorEnabled
  }

  lemma RatesStay(c: Config, f: Farm, g: Farm, crop: Crop)
    requires SameRates(f, g)
    ensures GrowSeconds(c, g, crop) == GrowSeconds(c, f, crop) && SeedCost(c, g, crop) == SeedCost(c, f, crop)
    ensures Steady(c, f, crop) ==> Steady(c, g, crop) && Sale(c, g, crop) == Sale(c, f, crop)
  {
    hide EffectSum, Boost, Valid, ValidCrop, Wrap;
  }

  /** An automatic plot grows a steady crop, at a profit if it is also sown. */
  ghost predicate PlotCalm(c: Config, f: Farm, p: Plot) {
    Automatic(c, p) ==>
      && Steady(c, f, c.cropById[p.crop])
      && (p.autoSow ==> Sale(c, f, c.cropById[p.crop]) > SeedCost(c, f, c.cropById[p.crop]))
  }

  // ---------- one plot in closed form ----------

  /** Maturities of plot `p` up to `to` that get harvested, at the rates of `f`. */
  function Harvested(c: Config, f: Farm, p: Plot, to: int): (k: nat)
  {
    if !Automatic(c, p) then 0
    else
      var grow := GrowSeconds(c, f, c.cropById[p.crop]);
      var due := if p.plantedAt + grow > to then 0 else DuePositive(p.plantedAt + grow, grow, to);
      if p.autoSow then due else Min(due, 1)
  }

  function Gross(c: Config, f: Farm, p: Plot, to: int): int {
    if Automatic(c, p) then Harvested(c, f, p, to) * Sale(c, f, c.cropById[p.crop]) else 0
  }

  function Seeds(c: Config, f: Farm, p: Plot, to: int): int {
    if Automatic(c, p) && p.autoSow then Harvested(c, f, p, to) * SeedCost(c, f, c.cropById[p.crop]) else 0
  }

  function PlotLater(c: Config, f: Farm, p: Plot, to: int): Plot {
    if Harvested(c, f, p, to) == 0 then p
    else if p.autoSow then p.(plantedAt := p.plantedAt + Harvested(c, f, p, to) * GrowSeconds(c, f, c.cropById[p.crop]))
    else p.(crop := "", plantedAt := 0)
  }

  predicate MaturesIn(c: Config, f: Farm, p: Plot, from: int, to: int, id: string) {
    && p.crop != "" && p.crop in c.cropById && !p.autoHarvest && c.cropById[p.crop].id == id
    && from < p.plantedAt + GrowSeconds(c, f, c.cropById[p.crop]) <= to
  }

  /** `r` is `t` after `k` harvests that brought `gross` and cost `seeds`. */
  ghost predicate Shifted(t: Tick, r: Tick, gross: int, seeds: int, k: int) {
    && r.farm.coins == t.farm.coins + gross - seeds && r.farm.runEarnings == t.farm.runEarnings + gross
    && r.farm.lifetimeEarnings == t.farm.lifetimeEarnings + gross
    && r.farm.lifetimeHarvests == t.farm.lifetimeHarvests + k
    && r.report.autoCoins == t.report.autoCoins + gross - seeds
  }

  /** Equal but for a passing critter. */
  predicate SamePlanting(p: Plot, q: Plot) { p.(critter := "") == q.(critter := "") }

  ghost predicate CountedMatured(c: Config, f: Farm, p: Plot, from: int, to: int, t: Tick, r: Tick) {
    forall id :: Level(r.report.matured, id) == Level(t.report.matured, id) +
        if MaturesIn(c, f, p, from, to, id) then 1 else 0
  }

  lemma GrossCoversSeeds(c: Config, f: Farm, p: Plot, to: int)
    requires PlotCalm(c, f, p)
    ensures 0 <= Seeds(c, f, p, to) <= Gross(c, f, p, to)
  {
    hide Harvested, Sale, SeedCost;
    if Automatic(c, p) {
      var crop := c.cropById[p.crop];
      SteadyYield(c, f, crop);
      var k := Harvested(c, f, p, to);
      MulMono(0, k, Sale(c, f, crop));
      if p.autoSow { MulMono(SeedCost(c, f, crop), Sale(c, f, crop), k); MulMono(0, k, SeedCost(c, f, crop)); }
    }
  }

  /** What the wallet must hold for plot `p` so that the cap cannot stall it. */
  ghost predicate Stocked(c: Config, f: Farm, p: Plot, coins: int) {
    Automatic(c, p) && p.autoSow ==> coins >= SeedCost(c, f, c.cropById[p.crop])
  }

  /** A sown plot. */
  lemma SownClosed(c: Config, f: Farm, t: Tick, i: nat, from: int, to: int, online: bool)
    requires i < |t.farm.plots| && SameRates(f, t.farm) && Automatic(c, t.farm.plots[i]) && t.farm.plots[i].autoSow
    requires PlotCalm(c, f, t.farm.plots[i]) && Stocked(c, f, t.farm.plots[i], t.farm.coins)
    requires Unlocked(t.farm, c.cropById[t.farm.plots[i].crop].unlock)
    requires Room(t, Gross(c, f, t.farm.plots[i], to), Harvested(c, f, t.farm.plots[i], to))
    ensures var p := t.farm.plots[i]; var r := TendPlot(c, t, i, from, to, online);
            && r == PlainTendPlot(c, t, i, from, to, online)
            && Shifted(t, r, Gross(c, f, p, to), Seeds(c, f, p, to), Harvested(c, f, p, to))
            && r.farm.plots[i] == PlotLater(c, f, p, to) && r.report.matured == t.report.matured
  {
    hide Settle, PlainLoop, SeedCost, Sale, Steady, Unlocked, CycledFrom, GrowSeconds, Due, CapHarmless;
    var p := t.farm.plots[i];
    var crop := c.cropById[p.crop];
    RatesStay(c, f, t.farm, crop);
    var grow := GrowSeconds(c, t.farm, crop);
    var matureAt := p.plantedAt + grow;
    var n := Harvested(c, f, p, to);
    HarvestedIsDue(c, f, p, to);
    assert Runs(c, t, i, crop, Due(matureAt, grow, to));
    OneSeedIsEnough(c, t, i, crop, grow, matureAt, to);
    PlainLoopClosed(c, t, i, crop, grow, matureAt, to);
    CycledShifts(c, t, i, crop, grow, matureAt, n);
    CursorAfter(matureAt, grow, n);
  }

  lemma HarvestedIsDue(c: Config, f: Farm, p: Plot, to: int)
    requires Automatic(c, p) && p.autoSow
    ensures var grow := GrowSeconds(c, f, c.cropById[p.crop]);
            Harvested(c, f, p, to) == Due(p.plantedAt + grow, grow, to)
  {
  }

  lemma CycledShifts(c: Config, t: Tick, i: nat, crop: Crop, grow: int, matureAt: int, n: nat)
    requires Runs(c, t, i, crop, n)
    ensures var pay, seed := Sale(c, t.farm, crop), SeedCost(c, t.farm, crop);
            var r := CycledFrom(c, t, i, crop, grow, matureAt, n);
            && Shifted(t, r, n * pay, n * seed, n) && |r.farm.plots| == |t.farm.plots|
            && r.farm.plots[i] == t.farm.plots[i].(
                 plantedAt := if n == 0 then t.farm.plots[i].plantedAt else matureAt + (n - 1) * grow)
            && r.report.matured == t.report.matured
  {
    hide Sale, SeedCost, Steady, Unlocked, Bump;
    var pay, seed := Sale(c, t.farm, crop), SeedCost(c, t.farm, crop);
    SteadyYield(c, t.farm, crop);
    MulMono(seed, pay, n);
    MulMono(0, n, seed);
  }

  /** A plot that harvests itself but is not sown. */
  lemma UnsownClosed(c: Config, f: Farm, t: Tick, i: nat, from: int, to: int, online: bool)
    requires i < |t.farm.plots| && SameRates(f, t.farm) && Automatic(c, t.farm.plots[i]) && !t.farm.plots[i].autoSow
    requires PlotCalm(c, f, t.farm.plots[i])
    requires Room(t, Gross(c, f, t.farm.plots[i], to), Harvested(c, f, t.farm.plots[i], to))
    ensures var p := t.farm.plots[i]; var r := TendPlot(c, t, i, from, to, online);
            && r == PlainTendPlot(c, t, i, from, to, online)
            && Shifted(t, r, Gross(c, f, p, to), Seeds(c, f, p, to), Harvested(c, f, p, to))
            && r.farm.plots[i] == PlotLater(c, f, p, to) && r.report.matured == t.report.matured
  {
    hide SeedCost, Sale, Steady, Unlocked, GrowSeconds, Reap, Bump;
    var p := t.farm.plots[i];
    var crop := c.cropById[p.crop];
    RatesStay(c, f, t.farm, crop);
    var grow := GrowSeconds(c, t.farm, crop);
    if p.plantedAt + grow <= to {
      SteadyReap(c, t, crop);
      SteadyYield(c, t.farm, crop);
    }
  }

  /** A plot nobody harvests automatically. */
  lemma IdleClosed(c: Config, f: Farm, t: Tick, i: nat, from: int, to: int, online: bool)
    requires i < |t.farm.plots| && SameRates(f, t.farm) && !Automatic(c, t.farm.plots[i])
    ensures var p := t.farm.plots[i]; var r := TendPlot(c, t, i, from, to, online);
            && r == PlainTendPlot(c, t, i, from, to, online)
            && Shifted(t, r, 0, 0, 0) && SamePlanting(r.farm.plots[i], p)
            && CountedMatured(c, f, p, from, to, t, r)
  {
    hide GrowSeconds, CritterVisit;
    var p := t.farm.plots[i];
    if p.crop in c.cropById { RatesStay(c, f, t.farm, c.cropById[p.crop]); }
  }

  /** Any plot of a calm farm. */
  lemma PlotClosed(c: Config, f: Farm, t: Tick, i: nat, from: int, to: int, online: bool)
    requires i < |t.farm.plots| && SameRates(f, t.farm) && Sound(c, t.farm)
    requires PlotCalm(c, f, t.farm.plots[i]) && Stocked(c, f, t.farm.plots[i], t.farm.coins)
    requires Room(t, Gross(c, f, t.farm.plots[i], to), Harvested(c, f, t.farm.plots[i], to))
    ensures var p := t.farm.plots[i]; var r := TendPlot(c, t, i, from, to, online);
            && r == PlainTendPlot(c, t, i, from, to, online)
            && Shifted(t, r, Gross(c, f, p, to), Seeds(c, f, p, to), Harvested(c, f, p, to))
            && SamePlanting(r.farm.plots[i], PlotLater(c, f, p, to))
            && CountedMatured(c, f, p, from, to, t, r)
  {
    hide Sound, TendPlot, PlainTendPlot, PlotCalm, Stocked, Room, GrowSeconds, Sale, SeedCost, Shifted, SameRates;
    var p := t.farm.plots[i];
    SoundHas(c, t.farm, i);
    if !Automatic(c, p) {
      IdleClosed(c, f, t, i, from, to, online);
    } else if p.autoSow {
      SownClosed(c, f, t, i, from, to, online);
    } else {
      UnsownClosed(c, f, t, i, from, to, online);
    }
  }

  // ---------- all plots ----------

  function HarvestedFrom(c: Config, f: Farm, ps: seq<Plot>, i: nat, to: int): (k: nat)
    requires i <= |ps|
    decreases |ps| - i
  {
    if i == |ps| then 0 else Harvested(c, f, ps[i], to) + HarvestedFrom(c, f, ps, i + 1, to)
  }

  function GrossFrom(c: Config, f: Farm, ps: seq<Plot>, i: nat, to: int): int
    requires i <= |ps|
    decreases |ps| - i
  {
    if i == |ps| then 0 else Gross(c, f, ps[i], to) + GrossFrom(c, f, ps, i + 1, to)
  }

  function SeedsFrom(c: Config, f: Farm, ps: seq<Plot>, i: nat, to: int): int
    requires i <= |ps|
    decreases |ps| - i
  {
    if i == |ps| then 0 else Seeds(c, f, ps[i], to) + SeedsFrom(c, f, ps, i + 1, to)
  }

  /** Manual plots of crop `id` that mature in the piece after `from`, up to `to`. */
  function MaturedFrom(c: Config, f: Farm, ps: seq<Plot>, i: nat, from: int, to: int, id: string): nat
    requires i <= |ps|
    decreases |ps| - i
  {
    if i == |ps| then 0
    else (if MaturesIn(c, f, ps[i], from, to, id) then 1 else 0) + MaturedFrom(c, f, ps, i + 1, from, to, id)
  }

  ghost predicate AllCalm(c: Config, f: Farm, ps: seq<Plot>) { forall k :: 0 <= k < |ps| ==> PlotCalm(c, f, ps[k]) }

  ghost predicate AllStocked(c: Config, f: Farm, ps: seq<Plot>, coins: int) {
    forall k :: 0 <= k < |ps| ==> Stocked(c, f, ps[k], coins)
  }

  lemma {:induction false} GrossFromCovers(c: Config, f: Farm, ps: seq<Plot>, i: nat, to: int)
    requires AllCalm(c, f, ps) && i <= |ps|
    ensures 0 <= SeedsFrom(c, f, ps, i, to) <= GrossFrom(c, f, ps, i, to)
    decreases |ps| - i
  {
    hide PlotCalm, Gross, Seeds;
    if i < |ps| {
      GrossCoversSeeds(c, f, ps[i], to);
      GrossFromCovers(c, f, ps, i + 1, to);
    }
  }

  /** The wallet of a calm farm never falls below where it started, and the room left is enough for the rest. */
  lemma RoomShifts(t: Tick, r: Tick, gross: int, seeds: int, k: nat, restGross: int, restK: nat)
    requires Shifted(t, r, gross, seeds, k) && 0 <= seeds <= gross && restGross >= 0
    requires Room(t, gross + restGross, k + restK)
    ensures Room(t, gross, k) && Room(r, restGross, restK) && r.farm.coins >= t.farm.coins
  {
  }

  lemma ShiftedTrans(t: Tick, r: Tick, u: Tick, g1: int, s1: int, k1: int, g2: int, s2: int, k2: int)
    requires Shifted(t, r, g1, s1, k1) && Shifted(r, u, g2, s2, k2)
    ensures Shifted(t, u, g1 + g2, s1 + s2, k1 + k2)
  {
  }

  lemma RoomPart(t: Tick, gross: int, k: nat, restGross: int, restK: nat)
    requires restGross >= 0 && Room(t, gross + restGross, k + restK)
    ensures Room(t, gross, k)
  {
  }

  /** The tick in the middle of the farm: plots from `i` on still as in `ps`. */
  ghost predicate Midway(c: Config, f: Farm, ps: seq<Plot>, t: Tick, i: nat) {
    && SameRates(f, t.farm) && Sound(c, t.farm) && |t.farm.plots| == |ps| && i <= |ps|
    && (forall k :: i <= k < |ps| ==> t.farm.plots[k] == ps[k])
  }

  ghost predicate Closed(c: Config, f: Farm, ps: seq<Plot>, t: Tick, i: nat, from: int, to: int, r: Tick)
    requires i <= |ps|
  {
    && Shifted(t, r, GrossFrom(c, f, ps, i, to), SeedsFrom(c, f, ps, i, to), HarvestedFrom(c, f, ps, i, to))
    && |r.farm.plots| == |t.farm.plots| == |ps|
    && (forall k :: 0 <= k < i ==> r.farm.plots[k] == t.farm.plots[k])
    && (forall k :: i <= k < |ps| ==> SamePlanting(r.farm.plots[k], PlotLater(c, f, ps[k], to)))
    && (forall id ::
          Level(r.report.matured, id) == Level(t.report.matured, id) + MaturedFrom(c, f, ps, i, from, to, id))
  }

  lemma MidwayStep(c: Config, f: Farm, ps: seq<Plot>, t: Tick, i: nat, from: int, to: int, online: bool)
    requires Midway(c, f, ps, t, i) && i < |ps|
    ensures var r := TendPlot(c, t, i, from, to, online);
            Midway(c, f, ps, r, i + 1) && forall k :: 0 <= k < |ps| && k != i ==> r.farm.plots[k] == t.farm.plots[k]
  {
    hide TendPlot, Sound;
    TendPlotKeeps(c, t, i, from, to, online);
    forall k | 0 <= k < |ps| && k != i ensures TendPlot(c, t, i, from, to, online).farm.plots[k] == t.farm.plots[k] {
      TendPlotLocal(c, t, i, from, to, online, k);
    }
  }

  lemma ClosedStep(c: Config, f: Farm, ps: seq<Plot>, t: Tick, t1: Tick, r: Tick, i: nat, from: int, to: int)
    requires i < |ps| == |t.farm.plots| == |t1.farm.plots|
    requires Shifted(t, t1, Gross(c, f, ps[i], to), Seeds(c, f, ps[i], to), Harvested(c, f, ps[i], to))
    requires SamePlanting(t1.farm.plots[i], PlotLater(c, f, ps[i], to)) && CountedMatured(c, f, ps[i], from, to, t, t1)
    requires forall k :: 0 <= k < |ps| && k != i ==> t1.farm.plots[k] == t.farm.plots[k]
    requires Closed(c, f, ps, t1, i + 1, from, to, r)
    ensures Closed(c, f, ps, t, i, from, to, r)
  {
    hide Gross, Seeds, Harvested, PlotLater, SamePlanting, MaturesIn, Shifted, Level;
    ShiftedTrans(t, t1, r, Gross(c, f, ps[i], to), Seeds(c, f, ps[i], to), Harvested(c, f, ps[i], to),
                 GrossFrom(c, f, ps, i + 1, to), SeedsFrom(c, f, ps, i + 1, to), HarvestedFrom(c, f, ps, i + 1, to));
  }

  lemma {:induction false} PlotsClosed(c: Config, f: Farm, ps: seq<Plot>, t: Tick, i: nat, from: int, to: int,
                                       online: bool)
    requires Midway(c, f, ps, t, i) && AllCalm(c, f, ps) && AllStocked(c, f, ps, t.farm.coins)
    requires Room(t, GrossFrom(c, f, ps, i, to), HarvestedFrom(c, f, ps, i, to))
    ensures TendPlots(c, t, i, from, to, online) == PlainTendPlots(c, t, i, from, to, online)
    ensures Closed(c, f, ps, t, i, from, to, TendPlots(c, t, i, from, to, online))
    decreases |ps| - i
  {
    hide Sound, TendPlot, PlainTendPlot, PlotCalm, Stocked, Room, SameRates, Gross, Seeds, Harvested, Shifted,
         SamePlanting,
         PlotLater, Closed, CountedMatured, MaturesIn;
    if i < |ps| {
      var gross, seeds, k := Gross(c, f, ps[i], to), Seeds(c, f, ps[i], to), Harvested(c, f, ps[i], to);
      GrossFromCovers(c, f, ps, i + 1, to);
      GrossCoversSeeds(c, f, ps[i], to);
      RoomPart(t, gross, k, GrossFrom(c, f, ps, i + 1, to), HarvestedFrom(c, f, ps, i + 1, to));
      PlotClosed(c, f, t, i, from, to, online);
      var t1 := TendPlot(c, t, i, from, to, online);
      MidwayStep(c, f, ps, t, i, from, to, online);
      RoomShifts(t, t1, gross, seeds, k, GrossFrom(c, f, ps, i + 1, to), HarvestedFrom(c, f, ps, i + 1, to));
      StockedMore(c, f, ps, t.farm.coins, t1.farm.coins);
      PlotsClosed(c, f, ps, t1, i + 1, from, to, online);
      ClosedStep(c, f, ps, t, t1, TendPlots(c, t1, i + 1, from, to, online), i, from, to);
    } else {
      NothingLeft(c, f, ps, t, from, to);
    }
  }

  lemma StockedMore(c: Config, f: Farm, ps: seq<Plot>, less: int, more: int)
    requires AllStocked(c, f, ps, less) && less <= more
    ensures AllStocked(c, f, ps, more)
  {
    forall k | 0 <= k < |ps| ensures Stocked(c, f, ps[k], more) { assert Stocked(c, f, ps[k], less); }
  }

  lemma NothingLeft(c: Config, f: Farm, ps: seq<Plot>, t: Tick, from: int, to: int)
    requires |t.farm.plots| == |ps|
    ensures Closed(c, f, ps, t, |ps|, from, to, t)
  {
  }

  // ---------- the whole catch-up ----------

  /** A reachable farm with no event running or configured, calm on every plot at the rates of `base`, able to pay one
      seed of each sown crop, and with room below every ceiling for all that is due by `to`. */
  ghost predicate CalmFarm(c: Config, base: Farm, f: Farm, to: int) {
    && Inv(c, f) && SameRates(base, f) && |c.events| == 0 && f.eventId == ""
    && AllCalm(c, base, f.plots) && AllStocked(c, base, f.plots, f.coins)
    && Room(Tick(f, QUIET), GrossFrom(c, base, f.plots, 0, to), HarvestedFrom(c, base, f.plots, 0, to))
  }

  lemma QuietPrelude(c: Config, f: Farm, to: int)
    requires to > f.updatedAt && |c.events| == 0 && f.eventId == ""
    ensures Prelude(c, f, to).farm.eventId == ""
  {
    hide RollGiftArrival;
  }

  /** Closed form of one catch-up: each automatic plot is harvested exactly as often as it matured, each manual plot is
      reported exactly if it matured within the stretch. The capped `Advance` is the uncapped one. */
  lemma AdvanceClosed(c: Config, base: Farm, f: Farm, to: int)
    requires CalmFarm(c, base, f, to) && to > f.updatedAt
    ensures Advance(c, f, to) == PlainAdvance(c, f, to)
    ensures Closed(c, base, f.plots, Tick(f, QUIET), 0, f.updatedAt, to, Advance(c, f, to))
  {
    hide Sound, Prelude, TendPlots, PlainTendPlots, Award, Awarded, AllCalm, AllStocked, Room, GrossFrom, SeedsFrom,
         HarvestedFrom,
         MaturedFrom, EventKnown, PlotLater, SamePlanting;
    PreludeKeeps(c, f, to);
    QuietPrelude(c, f, to);
    var t := Prelude(c, f, to);
    RoomSame(Tick(f, QUIET), t, GrossFrom(c, base, f.plots, 0, to), HarvestedFrom(c, base, f.plots, 0, to));
    PlotsClosed(c, base, f.plots, t, 0, f.updatedAt, to, Online(to - f.updatedAt));
  }

  lemma RoomSame(t: Tick, r: Tick, gross: int, k: int)
    requires Room(t, gross, k) && Shifted(t, r, 0, 0, 0)
    ensures Room(r, gross, k)
  {
  }

  // ---------- cutting time ----------

  /** Maturities due by `to` are those due by `b` plus those due afterwards, counted from the cursor at `b`. */
  lemma DueSplits(plantedAt: int, grow: int, b: int, to: int)
    requires grow >= 1 && b <= to
    ensures var k := Due(plantedAt + grow, grow, b);
            0 <= k && Due(plantedAt + grow, grow, to) == k + Due(plantedAt + k * grow + grow, grow, to)
  {
    var k := Due(plantedAt + grow, grow, b);
    if k > 0 {
      DueReaches(plantedAt + grow, grow, b);
      QuotientShift(to - (plantedAt + grow), grow, k);
      if plantedAt + k * grow + grow > to {
        DueReaches(plantedAt + grow, grow, to);
        SameQuotient(to - (plantedAt + grow), grow, k - 1);
      }
    }
  }

  lemma QuotientShift(a: int, b: int, k: nat)
    requires b >= 1
    ensures (a - k * b) / b == a / b - k
  {
    assert a == b * (a / b) + a % b;
    QuotientUnique(a - k * b, b, a / b - k, a % b);
  }

  lemma SameQuotient(a: int, b: int, q: int)
    requires b >= 1 && q * b <= a < (q + 1) * b
    ensures a / b == q
  {
    QuotientUnique(a, b, q, a - q * b);
  }

  lemma HarvestedSplits(c: Config, f: Farm, p: Plot, q: Plot, b: int, to: int)
    requires b <= to && SamePlanting(q, PlotLater(c, f, p, b))
    ensures Harvested(c, f, p, to) == Harvested(c, f, p, b) + Harvested(c, f, q, to)
    ensures SamePlanting(PlotLater(c, f, q, to), PlotLater(c, f, p, to))
  {
    hide GrowSeconds;
    if Automatic(c, p) {
      var grow := GrowSeconds(c, f, c.cropById[p.crop]);
      DueSplits(p.plantedAt, grow, b, to);
      if p.autoSow { Distribute(grow, Harvested(c, f, p, b), Harvested(c, f, q, to)); }
    }
  }

  lemma MoneySplits(c: Config, f: Farm, p: Plot, q: Plot, b: int, to: int)
    requires b <= to && SamePlanting(q, PlotLater(c, f, p, b))
    ensures Gross(c, f, p, to) == Gross(c, f, p, b) + Gross(c, f, q, to)
    ensures Seeds(c, f, p, to) == Seeds(c, f, p, b) + Seeds(c, f, q, to)
  {
    HarvestedSplits(c, f, p, q, b, to);
    hide GrowSeconds, Sale, SeedCost, Harvested;
    if Automatic(c, p) {
      Distribute(Sale(c, f, c.cropById[p.crop]), Harvested(c, f, p, b), Harvested(c, f, q, to));
      Distribute(SeedCost(c, f, c.cropById[p.crop]), Harvested(c, f, p, b), Harvested(c, f, q, to));
      UnsownOnce(c, f, p, q, b, to);
    }
  }

  /** A plot cleared by its one harvest yields nothing more. */
  lemma UnsownOnce(c: Config, f: Farm, p: Plot, q: Plot, b: int, to: int)
    requires Automatic(c, p) && SamePlanting(q, PlotLater(c, f, p, b))
    ensures Automatic(c, q) || Harvested(c, f, q, to) == 0
    ensures Automatic(c, q) ==> q.crop == p.crop && q.autoSow == p.autoSow
  {
  }

  lemma {:induction false} SumsSplit(c: Config, f: Farm, ps: seq<Plot>, qs: seq<Plot>, i: nat, b: int, to: int)
    requires |ps| == |qs| && i <= |ps| && b <= to
    requires forall k :: 0 <= k < |ps| ==> SamePlanting(qs[k], PlotLater(c, f, ps[k], b))
    ensures GrossFrom(c, f, ps, i, to) == GrossFrom(c, f, ps, i, b) + GrossFrom(c, f, qs, i, to)
    ensures SeedsFrom(c, f, ps, i, to) == SeedsFrom(c, f, ps, i, b) + SeedsFrom(c, f, qs, i, to)
    ensures HarvestedFrom(c, f, ps, i, to) == HarvestedFrom(c, f, ps, i, b) + HarvestedFrom(c, f, qs, i, to)
    decreases |ps| - i
  {
    hide Gross, Seeds, Harvested, PlotLater, SamePlanting;
    if i < |ps| {
      HarvestedSplits(c, f, ps[i], qs[i], b, to);
      MoneySplits(c, f, ps[i], qs[i], b, to);
      SumsSplit(c, f, ps, qs, i + 1, b, to);
    }
  }

  /** A manual maturity falls into exactly one of the two pieces. */
  lemma {:induction false} MaturedSplits(c: Config, f: Farm, ps: seq<Plot>, qs: seq<Plot>, i: nat, from: int, b: int,
                                         to: int, id: string)
    requires |ps| == |qs| && i <= |ps| && from <= b <= to
    requires forall k :: 0 <= k < |ps| ==> SamePlanting(qs[k], PlotLater(c, f, ps[k], b))
    ensures MaturedFrom(c, f, ps, i, from, to, id) == MaturedFrom(c, f, ps, i, from, b, id)
        + MaturedFrom(c, f, qs, i, b, to, id)
    decreases |ps| - i
  {
    hide GrowSeconds;
    if i < |ps| {
      assert SamePlanting(qs[i], PlotLater(c, f, ps[i], b));
      MaturedSplits(c, f, ps, qs, i + 1, from, b, to, id);
    }
  }

  lemma CalmLater(c: Config, f: Farm, ps: seq<Plot>, qs: seq<Plot>, b: int, coins: int)
    requires |ps| == |qs| && AllCalm(c, f, ps) && AllStocked(c, f, ps, coins)
    requires forall k :: 0 <= k < |ps| ==> SamePlanting(qs[k], PlotLater(c, f, ps[k], b))
    ensures AllCalm(c, f, qs) && AllStocked(c, f, qs, coins)
  {
    hide Steady, Sale, SeedCost, Harvested;
    forall k | 0 <= k < |qs| ensures PlotCalm(c, f, qs[k]) && Stocked(c, f, qs[k], coins) {
      assert PlotCalm(c, f, ps[k]) && Stocked(c, f, ps[k], coins);
      assert SamePlanting(qs[k], PlotLater(c, f, ps[k], b));
    }
  }

  /** After the first piece the farm is calm for the second. */
  lemma CalmAfter(c: Config, f: Farm, b: int, to: int)
    requires CalmFarm(c, f, f, to) && f.updatedAt < b <= to
    ensures CalmFarm(c, f, f, b) && CalmFarm(c, f, Advance(c, f, b).farm, to)
    ensures var g := Advance(c, f, b).farm;
            |g.plots| == |f.plots| && forall k :: 0 <= k < |f.plots| ==>
              SamePlanting(g.plots[k], PlotLater(c, f, f.plots[k], b))
  {
    hide Inv, Advance, PlainAdvance, AllCalm, AllStocked, GrossFrom, SeedsFrom, HarvestedFrom, MaturedFrom, PlotLater,
         SamePlanting;
    CalmBefore(c, f, b, to);
    AdvanceClosed(c, f, f, b);
    AdvanceKeeps(c, f, b);
    AdvanceRates(c, f, b);
    var g := Advance(c, f, b).farm;
    GrossFromCovers(c, f, f.plots, 0, b);
    CalmLater(c, f, f.plots, g.plots, b, f.coins);
    StockedMore(c, f, g.plots, f.coins, g.coins);
    SumsSplit(c, f, f.plots, g.plots, 0, b, to);
    GrossFromCovers(c, f, g.plots, 0, to);
  }

  /** Room for the whole stretch is room for its first piece. */
  lemma CalmBefore(c: Config, f: Farm, b: int, to: int)
    requires CalmFarm(c, f, f, to) && b <= to
    ensures CalmFarm(c, f, f, b)
  {
    hide Inv, PlotCalm, Stocked, PlotLater, GrossFrom, HarvestedFrom, SeedsFrom;
    var qs := seq(|f.plots|, k requires 0 <= k < |f.plots| => PlotLater(c, f, f.plots[k], b));
    SumsSplit(c, f, f.plots, qs, 0, b, to);
    CalmLater(c, f, f.plots, qs, b, f.coins);
    GrossFromCovers(c, f, qs, 0, to);
  }

  lemma AdvanceRates(c: Config, f: Farm, to: int)
    requires Inv(c, f) && |c.events| == 0 && f.eventId == ""
    ensures var g := Advance(c, f, to).farm;
            SameRates(f, g) && g.eventId == "" && (to > f.updatedAt ==> g.updatedAt == to)
  {
    hide Sound, Prelude, TendPlots, Award, Awarded, EventKnown;
    if to > f.updatedAt {
      PreludeKeeps(c, f, to);
      QuietPrelude(c, f, to);
      TendPlotsKeeps(c, Prelude(c, f, to), 0, f.updatedAt, to, Online(to - f.updatedAt));
    }
  }

  /** Two catch-ups that leave a farm equally far along. */
  ghost predicate SameProgress(f: Farm, g: Farm) {
    && f.coins == g.coins && f.runEarnings == g.runEarnings && f.lifetimeEarnings == g.lifetimeEarnings
    && f.lifetimeHarvests == g.lifetimeHarvests && |f.plots| == |g.plots|
    && forall k :: 0 <= k < |f.plots| ==> SamePlanting(f.plots[k], g.plots[k])
  }

  /** Time can be cut anywhere: catching up to `b` and then to `to` leaves the same coins, earnings, harvest counter and
      plots as catching up to `to` at once, reports the same automatic coins, and reports each manual maturity in
      exactly one of the pieces. */
  lemma TimeCanBeCut(c: Config, f: Farm, b: int, to: int)
    requires CalmFarm(c, f, f, to) && f.updatedAt <= b <= to
    ensures var first := Advance(c, f, b); var second := Advance(c, first.farm, to); var whole := Advance(c, f, to);
            && SameProgress(second.farm, whole.farm)
            && first.report.autoCoins + second.report.autoCoins == whole.report.autoCoins
            && forall id ::
                 Level(first.report.matured, id) + Level(second.report.matured, id) == Level(whole.report.matured, id)
  {
    if f.updatedAt < b < to { CutInside(c, f, b, to); } else { CutAtEnd(c, f, b, to); }
  }

  lemma CutAtEnd(c: Config, f: Farm, b: int, to: int)
    requires CalmFarm(c, f, f, to) && f.updatedAt <= b <= to && !(f.updatedAt < b < to)
    ensures var first := Advance(c, f, b); var second := Advance(c, first.farm, to); var whole := Advance(c, f, to);
            && SameProgress(second.farm, whole.farm)
            && first.report.autoCoins + second.report.autoCoins == whole.report.autoCoins
            && forall id ::
                 Level(first.report.matured, id) + Level(second.report.matured, id) == Level(whole.report.matured, id)
  {
    hide Advance, CalmFarm;
    AdvanceClock(c, f, b);
    AdvanceClock(c, f, to);
    AdvanceClock(c, Advance(c, f, b).farm, to);
  }

  lemma CutInside(c: Config, f: Farm, b: int, to: int)
    requires CalmFarm(c, f, f, to) && f.updatedAt < b < to
    ensures var first := Advance(c, f, b); var second := Advance(c, first.farm, to); var whole := Advance(c, f, to);
            && SameProgress(second.farm, whole.farm)
            && first.report.autoCoins + second.report.autoCoins == whole.report.autoCoins
            && forall id ::
                 Level(first.report.matured, id) + Level(second.report.matured, id) == Level(whole.report.matured, id)
  {
    hide Inv, Advance, PlainAdvance, AllCalm, AllStocked, GrossFrom, SeedsFrom, HarvestedFrom, MaturedFrom, PlotLater,
         SamePlanting,
         CalmFarm, Harvested;
    CalmAfter(c, f, b, to);
    var g := Advance(c, f, b).farm;
    ClockAfter(c, f, b, to);
    AdvanceClosed(c, f, f, b);
    AdvanceClosed(c, f, g, to);
    AdvanceClosed(c, f, f, to);
    SumsSplit(c, f, f.plots, g.plots, 0, b, to);
    forall id ensures MaturedFrom(c, f, f.plots, 0, f.updatedAt, to, id)
                   == MaturedFrom(c, f, f.plots, 0, f.updatedAt, b, id) + MaturedFrom(c, f, g.plots, 0, b, to, id) {
      MaturedSplits(c, f, f.plots, g.plots, 0, f.updatedAt, b, to, id);
    }
    forall k | 0 <= k < |f.plots|
      ensures SamePlanting(Advance(c, g, to).farm.plots[k], Advance(c, f, to).farm.plots[k])
    {
      HarvestedSplits(c, f, f.plots[k], g.plots[k], b, to);
      SamePlantingTrans(Advance(c, g, to).farm.plots[k], PlotLater(c, f, g.plots[k], to),
          PlotLater(c, f, f.plots[k], to));
      SamePlantingTrans(Advance(c, g, to).farm.plots[k], PlotLater(c, f, f.plots[k], to),
          Advance(c, f, to).farm.plots[k]);
    }
  }

  lemma ClockAfter(c: Config, f: Farm, b: int, to: int)
    requires CalmFarm(c, f, f, to) && f.updatedAt < b
    ensures Advance(c, f, b).farm.updatedAt == b
  {
    hide Advance, Room, AllCalm, AllStocked;
    AdvanceRates(c, f, b);
  }

  lemma SamePlantingTrans(p: Plot, q: Plot, r: Plot)
    requires SamePlanting(p, q) && (SamePlanting(q, r) || SamePlanting(r, q))
    ensures SamePlanting(p, r)
  {
  }
}
