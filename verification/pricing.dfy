// The price loops and the integer square root: what they compute, that they stay in int64, and how prices move.
module Pricing {
  import opened Int64
  import opened Content
  import opened Farms
  import opened Derive
  import opened Invariant
  import opened Bonuses

  // ---------- geometric price loops ----------

  /** One growth step below the ceiling is exact and never shrinks the price. */
  lemma GrowthStep(cost: int64, growthPct: int64)
    requires cost >= 1 && growthPct >= 100 && cost <= MAX / growthPct
    ensures 0 <= cost * growthPct <= MAX
    ensures cost <= Quo(Wrap(cost * growthPct), 100) == cost * growthPct / 100 <= MAX / 100
  {
    QuotientTest(cost, growthPct, MAX);
    MulMono(100, growthPct, cost);
    DivMono(cost * 100, cost * growthPct, 100);
    DivMono(cost * growthPct, MAX, 100);
  }

  lemma {:induction false} CompoundPositive(base: int64, growthPct: int64, n: nat)
    requires base >= 1 && growthPct >= 100
    ensures Compound(base, growthPct, n) >= 1
  {
    if n > 0 {
      CompoundPositive(base, growthPct, n - 1);
      var cost := Compound(base, growthPct, n - 1);
      if cost <= MAX / growthPct { GrowthStep(cost, growthPct); }
    }
  }

  lemma {:induction false} CompoundBounded(base: int64, growthPct: int64, n: nat)
    requires 1 <= base <= MAX / 100 && growthPct >= 100
    ensures Compound(base, growthPct, n) <= MAX / 100
  {
    if n > 0 {
      CompoundPositive(base, growthPct, n - 1);
      var cost := Compound(base, growthPct, n - 1);
      if cost <= MAX / growthPct { GrowthStep(cost, growthPct); }
    }
  }

  lemma CompoundStep(base: int64, growthPct: int64, n: nat)
    requires 1 <= base <= MAX / 100 && growthPct >= 100
    ensures Compound(base, growthPct, n) <= Compound(base, growthPct, n + 1)
  {
    CompoundPositive(base, growthPct, n);
    CompoundBounded(base, growthPct, n);
    if Compound(base, growthPct, n) <= MAX / growthPct { GrowthStep(Compound(base, growthPct, n), growthPct); }
  }

  /** The price curve never falls, the pinned ceiling included, exactly when the base price is at most `MAX / 100`. */
  lemma CurveRisesIff(base: int64, growthPct: int64)
    requires base >= 1 && growthPct >= 100
    ensures (forall n: nat :: Compound(base, growthPct, n) <= Compound(base, growthPct, n + 1)) <==> base <= MAX / 100
  {
    if base <= MAX / 100 {
      forall n: nat ensures Compound(base, growthPct, n) <= Compound(base, growthPct, n + 1) {
        CompoundStep(base, growthPct, n);
      }
    } else {
      assert Compound(base, growthPct, 0) == base;
      AboveIsPinned(base, growthPct, 0 + 1);
    }
  }

  lemma QuotientsFall(growthPct: int64)
    requires growthPct >= 100
    ensures MAX / growthPct <= MAX / 100
  {
    if MAX / growthPct > MAX / 100 {
      QuotientTest(MAX / growthPct, 100, MAX);
      QuotientTest(MAX / growthPct, growthPct, MAX);
      MulMono(100, growthPct, MAX / growthPct);
      QuotientBound(MAX, growthPct);
    }
  }

  lemma {:induction false} CompoundMonotone(base: int64, growthPct: int64, k: nat, n: nat)
    requires 1 <= base <= MAX / 100 && growthPct >= 100 && k <= n
    ensures Compound(base, growthPct, k) <= Compound(base, growthPct, n)
    decreases n
  {
    if k < n {
      CompoundMonotone(base, growthPct, k, n - 1);
      CompoundStep(base, growthPct, n - 1);
    }
  }

  /** Once pinned, a price stays pinned: leaving the loop early is the same as running it to the end. */
  lemma {:induction false} PinnedStays(base: int64, growthPct: int64, k: nat, n: nat)
    requires base >= 1 && growthPct >= 100 && k < n && Compound(base, growthPct, k) > MAX / growthPct
    ensures Compound(base, growthPct, n) == MAX / 100
    decreases n
  {
    if k < n - 1 {
      PinnedStays(base, growthPct, k, n - 1);
      if MAX / 100 <= MAX / growthPct { QuotientsFall(growthPct); PinnedExact(growthPct); }
    }
  }

  /** Growing the pin by 100% or less of nothing: at `MAX / growthPct >= MAX / 100` the step is the identity on the
      pin. */
  lemma PinnedExact(growthPct: int64)
    requires growthPct >= 100 && MAX / growthPct == MAX / 100
    ensures Quo(Wrap((MAX / 100) * growthPct), 100) == MAX / 100
  {
    GrowthStep(MAX / 100, growthPct);
  }

  /** A base price above the bound is pinned by its first growth step. */
  lemma AboveIsPinned(base: int64, growthPct: int64, n: nat)
    requires base > MAX / 100 && growthPct >= 100 && n > 0
    ensures Compound(base, growthPct, n) == MAX / 100
  {
    QuotientsFall(growthPct);
    assert Compound(base, growthPct, 0) == base;
    PinnedStays(base, growthPct, 0, n);
  }

  /** Two points of the curve: the later price is below the earlier one only when the earlier one is an unpinned base
      price above the bound. */
  lemma CurvePairIff(base: int64, growthPct: int64, k: nat, n: nat)
    requires base >= 1 && growthPct >= 100 && k < n
    ensures Compound(base, growthPct, k) <= Compound(base, growthPct, n) <==> base <= MAX / 100 || k > 0
  {
    if base <= MAX / 100 {
      CompoundMonotone(base, growthPct, k, n);
    } else {
      AboveIsPinned(base, growthPct, n);
      if k > 0 { AboveIsPinned(base, growthPct, k); }
    }
  }

  /** The growth step at level `k` is only taken when its product fits, and then it does. */
  ghost predicate StepFits(base: int64, growthPct: int64, k: nat)
    requires growthPct >= 100
  {
    var cost := Compound(base, growthPct, k);
    cost <= MAX / growthPct ==> 0 <= cost * growthPct <= MAX
  }

  /** The loop shared by all five prices: `levels` growth steps, left early at the ceiling. */
  method CompoundLoop(base: int64, growthPct: int64, levels: nat) returns (cost: int64)
    requires base >= 1 && growthPct >= 100
    ensures cost == Compound(base, growthPct, levels) && cost >= 1
    ensures forall k | 0 <= k < levels :: StepFits(base, growthPct, k)
  {
    forall k: nat | k < levels ensures StepFits(base, growthPct, k) {
      CompoundPositive(base, growthPct, k);
      if Compound(base, growthPct, k) <= MAX / growthPct { GrowthStep(Compound(base, growthPct, k), growthPct); }
    }
    cost := base;
    for i := 0 to levels
      invariant cost == Compound(base, growthPct, i) && cost >= 1
    {
      if cost > MAX / growthPct {
        PinnedStays(base, growthPct, i, levels);
        return MAX / 100;
      }
      GrowthStep(cost, growthPct);
      cost := cost * growthPct / 100;
    }
  }

  // ---------- each price over the state it depends on ----------

  lemma DiscountMonotone(a: int64, b: int64, discount: int)
    requires 0 <= a <= b <= MAX / 100 && discount >= 0
    ensures Discounted(a, discount) <= Discounted(b, discount)
  {
    var keep := 100 - Min(discount, 99);
    MulMono(a, b, keep);
    MulMono(0, a, keep);
    MulMono(keep, 100, b);
    DivMono(a * keep, b * keep, 100);
  }

  /** The plot price after the discount. Its product is not guarded, so above the bound the wrapped first price
      decides: the discounted curve never falls exactly when the base is at most `MAX / 100` or its wrapped discounted
      price is at most that of the pin. */
  lemma PlotCurveRisesIff(base: int64, growthPct: int64, discount: int)
    requires base >= 1 && growthPct >= 100 && discount >= 0
    ensures (forall n: nat ::
               Discounted(Compound(base, growthPct, n), discount)
               <= Discounted(Compound(base, growthPct, n + 1), discount))
            <==> base <= MAX / 100 || Discounted(base, discount) <= Discounted(MAX / 100, discount)
  {
    hide Discounted, Compound;
    if base <= MAX / 100 || Discounted(base, discount) <= Discounted(MAX / 100, discount) {
      forall n: nat
        ensures Discounted(Compound(base, growthPct, n), discount)
                <= Discounted(Compound(base, growthPct, n + 1), discount)
      {
        DiscountedPair(base, growthPct, n, n + 1, discount);
      }
    } else {
      DiscountedPair(base, growthPct, 0, 0 + 1, discount);
    }
  }

  /** Two points of the discounted curve. */
  lemma DiscountedPair(base: int64, growthPct: int64, k: nat, n: nat, discount: int)
    requires base >= 1 && growthPct >= 100 && discount >= 0 && k < n
    ensures Discounted(Compound(base, growthPct, k), discount) <= Discounted(Compound(base, growthPct, n), discount)
            <==> base <= MAX / 100 || k > 0 || Discounted(base, discount) <= Discounted(MAX / 100, discount)
  {
    hide Discounted;
    if base <= MAX / 100 {
      CompoundMonotone(base, growthPct, k, n);
      CompoundPositive(base, growthPct, k);
      CompoundBounded(base, growthPct, n);
      DiscountMonotone(Compound(base, growthPct, k), Compound(base, growthPct, n), discount);
    } else {
      AboveIsPinned(base, growthPct, n);
      if k > 0 { AboveIsPinned(base, growthPct, k); }
    }
  }

  /** Without a discount the wrap hides the fall: the plot price never falls, whatever the base. */
  lemma UndiscountedNeverFalls(base: int64, growthPct: int64, n: nat)
    requires base >= 1 && growthPct >= 100
    ensures Discounted(Compound(base, growthPct, n), 0) <= Discounted(Compound(base, growthPct, n + 1), 0)
  {
    DiscountedPair(base, growthPct, n, n + 1, 0);
  }

  /** On content whose discounts fit int64 the discount in force is never negative. */
  lemma DiscountFits(c: Config, f: Farm)
    requires Sound(c, f) && BonusFits(c, PlotDiscount)
    ensures UpgradeSum(c, f, PlotDiscount) >= 0
  {
    hide Sound, BonusFits;
    BonusIsPlain(c, f, PlotDiscount);
  }

  /** While the discount in force is not negative, the next plot costs at least 1; of two farms with the same upgrades
      the one with more plots bought pays no less exactly when the base is at most `MAX / 100`, or the other has
      bought one already, or the wrapped price of the first plot is at most that of the pin. */
  lemma PlotPriceRisesIff(c: Config, f: Farm, g: Farm)
    requires Sound(c, f) && Sound(c, g) && g.upgrades == f.upgrades && f.purchasedPlots < g.purchasedPlots
    requires c.start.plots + g.purchasedPlots < c.land.maxPlots && UpgradeSum(c, f, PlotDiscount) >= 0
    ensures 1 <= PlotPrice(c, f) && 1 <= PlotPrice(c, g)
    ensures var base, discount := c.land.basePlotCost, UpgradeSum(c, f, PlotDiscount);
            PlotPrice(c, f) <= PlotPrice(c, g)
            <==> base <= MAX / 100 || f.purchasedPlots > 0 ||
                 Discounted(base, discount) <= Discounted(MAX / 100, discount)
  {
    hide Compound, Discounted, PlotsOk, ZonePlots;
    DiscountedPair(c.land.basePlotCost, c.land.growthPct, f.purchasedPlots, g.purchasedPlots,
        UpgradeSum(c, f, PlotDiscount));
  }

  /** A negative discount, which only a wrapped sum can be, raises the prices too, as long as the dearer product fits.
      */
  lemma SurchargedPlotRises(base: int64, growthPct: int64, k: nat, n: nat, discount: int)
    requires 1 <= base <= MAX / 100 && growthPct >= 100 && k <= n && discount < 0
    requires Compound(base, growthPct, n) * (100 - discount) <= MAX
    ensures Discounted(Compound(base, growthPct, k), discount) <= Discounted(Compound(base, growthPct, n), discount)
  {
    hide Compound, Wrap;
    var a: int, b: int, keep := Compound(base, growthPct, k), Compound(base, growthPct, n), 100 - discount;
    CompoundPositive(base, growthPct, k);
    CompoundMonotone(base, growthPct, k, n);
    MulMono(a, b, keep);
    MulMono(0, a, keep);
    DivMono(a * keep, b * keep, 100);
    Fitting(a * keep);
    Fitting(b * keep);
  }

  /** Two levels of this upgrade add up to 2^64 - 900, which validation's own product takes for -900. */
  const WRAPPING_DISCOUNT := Perk("u", 1, 100, 2, Effect.PlotDiscount, TWO63 - 450)

  ghost function WrappingDiscount(): (c: Content)
    ensures Accepted(c) && Valid(c) && c.upgrades == [WRAPPING_DISCOUNT] && c.multipliers == []
    ensures c.land == Land(MAX / 1000, 101, 10) && c.start == Start(0, 1) && c.zones == []
  {
    hide Valid, Accepted, ReductionAccepted, Wrap;
    DiscountPasses();
    WithUpgrade(Sample(SAMPLE_CROP, Land(MAX / 1000, 101, 10), GoldenHarvest(0, 10), Moon(0, 0, "")), WRAPPING_DISCOUNT)
  }

  lemma DiscountPasses()
    ensures ReductionAccepted(WRAPPING_DISCOUNT)
  {
    DiscountNumbers();
  }

  /** Content that passes validation with a base far below `MAX / 100`: with both levels owned the first plot costs ten
      times the base, and the second wraps to a single coin. */
  lemma OwnedDiscountWraps(c: Config, rng: nat)
    requires c == WrappingDiscount()
    ensures var f := OwnsTwo(c, rng); var g := f.(purchasedPlots := 1, plots := f.plots + [EMPTY_PLOT]);
            Inv(c, f) && Inv(c, g) && PlotPrice(c, f) == MAX / 1000 * 10 && PlotPrice(c, g) == 1
  {
    hide Valid, Accepted, Inv, WrappingDiscount, Bonus, Compound, Discounted, EffectSum;
    var f := OwnsTwo(c, rng);
    OwnsTwoIsInv(c, rng, WRAPPING_DISCOUNT);
    OneMorePlotIsInv(c, f);
    TwoLevels(c, rng, WRAPPING_DISCOUNT, PlotDiscount);
    NoGrowth(MAX / 1000, 101);
    OneGrowth(MAX / 1000, 101);
    DiscountNumbers();
  }

  lemma DiscountNumbers()
    ensures Wrap((TWO63 - 450) * 2) == -900 && Discounted(MAX / 1000, -900) == MAX / 1000 * 10
    ensures Discounted(Quo(Wrap(MAX / 1000 * 101), 100), -900) == 1
  {
  }

  lemma OneGrowth(base: int64, growthPct: int64)
    requires growthPct >= 100
    ensures Compound(base, growthPct, 1) == if base > MAX / growthPct then MAX / 100
        else Quo(Wrap(base * growthPct), 100)
  {
    assert Compound(base, growthPct, 0) == base;
  }

  lemma OneMorePlotIsInv(c: Config, f: Farm)
    requires Inv(c, f) && c.start.plots + f.purchasedPlots < c.land.maxPlots
    ensures Inv(c, f.(purchasedPlots := f.purchasedPlots + 1, plots := f.plots + [EMPTY_PLOT]))
  {
    hide Valid, PerksWithin, StrainsWithin, ZonePlots;
    var g := f.(purchasedPlots := f.purchasedPlots + 1, plots := f.plots + [EMPTY_PLOT]);
    forall i | 0 <= i < |g.plots| ensures PlotOk(c, g, g.plots[i]) {
      if i < |f.plots| { assert PlotOk(c, f, f.plots[i]); }
    }
  }

  /** At half price a base of `MAX / 50` does fall: the first plot costs twice what every later one does. */
  lemma DiscountedPlotFalls()
    ensures Discounted(Compound(MAX / 50, 100, 0), 50) > Discounted(Compound(MAX / 50, 100, 1), 50)
  {
    DiscountedPair(MAX / 50, 100, 0, 1, 50);
  }

  /** A base price of `MAX` wraps: with no discount the first plot costs a single coin, and every other one the pin. */
  lemma WrappedPlotIsCheap(c: Config, f: Farm)
    requires c == Sample(SAMPLE_CROP, Land(MAX, 100, 10), GoldenHarvest(0, 10), Moon(0, 0, ""))
    requires Sound(c, f) && c.start.plots + f.purchasedPlots < c.land.maxPlots
    ensures PlotPrice(c, f) == if f.purchasedPlots == 0 then 1 else MAX / 100
  {
    hide Valid, Accepted, PlotsOk, LevelsOk, ZonePlots, Compound;
    if f.purchasedPlots > 0 { AboveIsPinned(MAX, 100, f.purchasedPlots); } else { NoGrowth(MAX, 100); }
  }

  lemma NoGrowth(base: int64, growthPct: int64)
    requires growthPct >= 100
    ensures Compound(base, growthPct, 0) == base
  {
  }

  /** Auto-harvest costs at least 1, and no less once more plots are automated exactly when its base is at most
      `MAX / 100` or some plot was automated already. */
  lemma AutoHarvestPriceRisesIff(c: Config, f: Farm, g: Farm)
    requires Count(f.plots, |f.plots|) < Count(g.plots, |g.plots|)
    ensures 1 <= AutoHarvestPrice(c, f) && 1 <= AutoHarvestPrice(c, g)
    ensures AutoHarvestPrice(c, f) <= AutoHarvestPrice(c, g)
            <==> c.plotAutomation.autoHarvestBaseCost <= MAX / 100 || Count(f.plots, |f.plots|) > 0
  {
    hide Compound;
    CompoundPositive(c.plotAutomation.autoHarvestBaseCost, c.plotAutomation.autoHarvestGrowthPct,
        Count(f.plots, |f.plots|));
    CompoundPositive(c.plotAutomation.autoHarvestBaseCost, c.plotAutomation.autoHarvestGrowthPct,
        Count(g.plots, |g.plots|));
    CurvePairIff(c.plotAutomation.autoHarvestBaseCost, c.plotAutomation.autoHarvestGrowthPct,
                 Count(f.plots, |f.plots|), Count(g.plots, |g.plots|));
  }

  /** A level that can still be bought costs at least 1, and no less than an earlier one exactly when the base is at
      most `MAX / 100` or the earlier one is not the first. */
  lemma LevelPriceRisesIff(cost: int64, growthPct: int64, maxLevel: int64, k: nat, n: nat)
    requires cost >= 1 && growthPct >= 100 && k < n < maxLevel
    ensures 1 <= LevelPrice(cost, growthPct, maxLevel, k) && 1 <= LevelPrice(cost, growthPct, maxLevel, n)
    ensures LevelPrice(cost, growthPct, maxLevel, k) <= LevelPrice(cost, growthPct, maxLevel, n)
            <==> cost <= MAX / 100 || k > 0
  {
    hide Compound;
    CompoundPositive(cost, growthPct, k);
    CompoundPositive(cost, growthPct, n);
    CurvePairIff(cost, growthPct, k, n);
  }

  /** The first level of a `MAX`-priced item is dearer than the second. */
  lemma DearFirstLevel()
    ensures LevelPrice(MAX, 100, 2, 0) == MAX && LevelPrice(MAX, 100, 2, 1) == MAX / 100
  {
    AboveIsPinned(MAX, 100, 1);
    NoGrowth(MAX, 100);
  }

  // ---------- square root and prestige ----------

  lemma RootUnique(n: nat, r: nat, s: nat)
    requires r * r <= n < (r + 1) * (r + 1) && s * s <= n < (s + 1) * (s + 1)
    ensures r == s
  {
    if r < s { SquareMono(r + 1, s); } else if s < r { SquareMono(s + 1, r); }
  }

  const ROOT_MAX := 3_037_000_499

  lemma RootFits(r: nat)
    requires r * r <= MAX
    ensures r <= ROOT_MAX
  {
    if r > ROOT_MAX { SquareMono(ROOT_MAX + 1, r); }
  }

  /** `isqrt` from any non-negative starting guess: both correction loops end, at the exact root, and no intermediate
      value leaves int64. */
  method IsqrtFrom(n: int64, guess: int64) returns (r: int64)
    requires guess >= 0
    ensures r == Isqrt(n)
    ensures n > 0 ==> r * r <= n < (r + 1) * (r + 1) && r <= ROOT_MAX
  {
    if n <= 0 { return 0; }
    r := guess;
    while r > 0 && r > n / r
      invariant 0 <= r <= guess
      decreases r
    {
      r := r - 1;
    }
    if r > 0 { QuotientTest(r, r, n); }
    RootFits(r);
    while r + 1 <= n / (r + 1)
      invariant 0 <= r <= ROOT_MAX && r * r <= n
      decreases n - r
    {
      QuotientTest(r + 1, r + 1, n);
      RootFits(r + 1);
      QuotientBound(n, r + 1);
      r := r + 1;
    }
    QuotientTest(r + 1, r + 1, n);
    IsqrtIsRoot(n);
    RootUnique(n, r, Isqrt(n));
  }

  /** Starseeds awarded are characterised by their square. */
  lemma PrestigeIsRoot(c: Config, f: Farm, g: nat)
    requires f.runEarnings >= 0
    ensures g == PrestigeGain(c, f)
            <==> g * g * c.prestige.divisor <= f.runEarnings < (g + 1) * (g + 1) * c.prestige.divisor
  {
    var d := c.prestige.divisor;
    var q := Quo(f.runEarnings, d);
    QuotientFloor(f.runEarnings, d);
    IsqrtIsRoot(q);
    var r := Isqrt(q);
    if g == r {
      MulMono(g * g, q, d);
      MulMono(q + 1, (g + 1) * (g + 1), d);
    }
    if g * g * d <= f.runEarnings < (g + 1) * (g + 1) * d {
      if g * g > q { MulMono(q + 1, g * g, d); }
      if (g + 1) * (g + 1) <= q { MulMono((g + 1) * (g + 1), q, d); }
      RootUnique(q, g, r);
    }
  }

  /** A rebirth is possible exactly when the run reached both the configured minimum and one divisor. */
  lemma RebirthThreshold(c: Config, f: Farm)
    requires f.runEarnings >= 0
    ensures CanRebirth(c, f) <==> f.runEarnings >= c.prestige.minEarnings && f.runEarnings >= c.prestige.divisor
  {
    PrestigeIsRoot(c, f, 0);
  }
}
