// When the int64 sums of owned effects are the sums they stand for, and when a sale divides by zero.
module Bonuses {
  import opened Int64
  import opened Content
  import opened Farms
  import opened Derive
  import opened Invariant

  // ---------- the sums meant ----------

  /** `EffectSum` in whole numbers. */
  function PlainSum(perks: seq<Perk>, levels: map<string, int>, effect: Effect, n: nat): int
    requires n <= |perks|
  {
    if n == 0 then 0
    else PlainSum(perks, levels, effect, n - 1)
         + if perks[n - 1].effect == effect then perks[n - 1].effectValue * Level(levels, perks[n - 1].id) else 0
  }

  /** Owned upgrades, owned multipliers and the running event. */
  function PlainBonus(c: Config, f: Farm, effect: Effect): int {
    PlainSum(c.upgrades, f.upgrades, effect, |c.upgrades|)
    + PlainSum(c.multipliers, f.multipliers, effect, |c.multipliers|)
    + EventBonus(c, f, effect)
  }

  /** The full moon's part in the sale of a crop. */
  function MoonBonus(c: Config, f: Farm, cropId: string): int {
    if IsFullMoon(c, f, cropId) then c.moon.fullMoonSellBonusPct else 0
  }

  // ---------- int64 sums modulo 2^64 ----------

  lemma WrapOff(x: int) returns (k: int)
    ensures Wrap(x) == x + k * TWO64
  {
    if MIN <= x <= MAX {
      k := 0;
    } else {
      k := -((x + TWO63) / TWO64);
    }
  }

  lemma {:induction false} SumOff(perks: seq<Perk>, levels: map<string, int>, effect: Effect, n: nat) returns (k: int)
    requires n <= |perks|
    ensures EffectSum(perks, levels, effect, n) == PlainSum(perks, levels, effect, n) + k * TWO64
  {
    hide Wrap;
    k := 0;
    if n > 0 {
      var k0 := SumOff(perks, levels, effect, n - 1);
      k := k0;
      if perks[n - 1].effect == effect {
        var own := perks[n - 1].effectValue * Level(levels, perks[n - 1].id);
        var k1 := WrapOff(own);
        var k2 := WrapOff(EffectSum(perks, levels, effect, n - 1) + Wrap(own));
        k := k0 + k1 + k2;
      }
    }
  }

  lemma BonusOff(c: Config, f: Farm, effect: Effect) returns (k: int)
    ensures Bonus(c, f, effect) == PlainBonus(c, f, effect) + k * TWO64
  {
    hide Wrap, EffectSum, PlainSum, Valid, EventBonus;
    var k0 := SumOff(c.upgrades, f.upgrades, effect, |c.upgrades|);
    var k1 := SumOff(c.multipliers, f.multipliers, effect, |c.multipliers|);
    var k2 := WrapOff(UpgradeSum(c, f, effect) + MultiplierSum(c, f, effect));
    var k3 := WrapOff(Wrap(UpgradeSum(c, f, effect) + MultiplierSum(c, f, effect)) + EventBonus(c, f, effect));
    k := k0 + k1 + k2 + k3;
  }

  /** A sale divides by zero exactly when what is owned, the event, the moon and 100 make a multiple of 2^64: the sum
      itself is zero, or it has wrapped to zero. */
  lemma DivisorZeroIff(c: Config, f: Farm, cropId: string)
    ensures Divisor(SellBonusPct(c, f, cropId)) == 0
            <==> (100 + PlainBonus(c, f, SellBonus) + MoonBonus(c, f, cropId)) % TWO64 == 0
  {
    hide Wrap, Bonus, PlainBonus, IsFullMoon, Valid;
    var k0 := BonusOff(c, f, SellBonus);
    var k1 := WrapOff(Bonus(c, f, SellBonus) + MoonBonus(c, f, cropId));
    var k2 := WrapOff(100 + SellBonusPct(c, f, cropId));
    var total := 100 + PlainBonus(c, f, SellBonus) + MoonBonus(c, f, cropId);
    assert Divisor(SellBonusPct(c, f, cropId)) == total + (k0 + k1 + k2) * TWO64;
    MultipleIff(total, k0 + k1 + k2, Divisor(SellBonusPct(c, f, cropId)));
  }

  lemma MultipleIff(total: int, k: int, d: int64)
    requires d == total + k * TWO64
    ensures d == 0 <==> total % TWO64 == 0
  {
    var q, r := total / TWO64, total % TWO64;
    assert d == (q + k) * TWO64 + r;
  }

  // ---------- content whose sums fit ----------

  /** The most the first `n` perks can add up to. */
  function TopSum(perks: seq<Perk>, effect: Effect, n: nat): int
    requires n <= |perks|
  {
    if n == 0 then 0
    else TopSum(perks, effect, n - 1)
         + if perks[n - 1].effect == effect then perks[n - 1].effectValue * perks[n - 1].maxLevel else 0
  }

  /** The largest value among the first `n` events with that effect. */
  function TopEvent(events: seq<Event>, effect: Effect, n: nat): int
    requires n <= |events|
  {
    if n == 0 then 0
    else
      var top := TopEvent(events, effect, n - 1);
      if events[n - 1].effect == effect && events[n - 1].effectValue > top then events[n - 1].effectValue else top
  }

  function TopBonus(c: Config, effect: Effect): int {
    TopSum(c.upgrades, effect, |c.upgrades|) + TopSum(c.multipliers, effect, |c.multipliers|)
    + TopEvent(c.events, effect, |c.events|)
  }

  /** With every perk at its top level, the largest event and the full moon, the sum of an effect and 100 fit int64. A
      property of the content alone. */
  predicate BonusFits(c: Config, effect: Effect) {
    100 + TopBonus(c, effect) + (if c.moon.fullMoonSellBonusPct > 0 then c.moon.fullMoonSellBonusPct else 0) <= MAX
  }

  lemma {:induction false} SumFits(perks: seq<Perk>, levels: map<string, int>, effect: Effect, n: nat)
    requires n <= |perks| && PerksWithin(perks, levels) && forall u <- perks :: ValidPerk(u)
    ensures 0 <= PlainSum(perks, levels, effect, n) <= TopSum(perks, effect, n)
    ensures TopSum(perks, effect, n) <= MAX
        ==> EffectSum(perks, levels, effect, n) == PlainSum(perks, levels, effect, n)
  {
    if n > 0 {
      SumFits(perks, levels, effect, n - 1);
      var u := perks[n - 1];
      assert u in perks;
      MulMono(0, Level(levels, u.id), u.effectValue);
      MulMono(Level(levels, u.id), u.maxLevel, u.effectValue);
    }
  }

  lemma {:induction false} EventFits(events: seq<Event>, effect: Effect, n: nat)
    requires n <= |events|
    ensures TopEvent(events, effect, n) >= 0
    ensures forall k | 0 <= k < n && events[k].effect == effect :: events[k].effectValue <= TopEvent(events, effect, n)
  {
    if n > 0 { EventFits(events, effect, n - 1); }
  }

  lemma EventBonusFits(c: Config, f: Farm, effect: Effect)
    ensures 0 <= EventBonus(c, f, effect) <= TopEvent(c.events, effect, |c.events|)
  {
    EventFits(c.events, effect, |c.events|);
    if HasEvent(c, f) {
      var e := c.eventById[f.eventId];
      assert e in c.events;
      var k :| 0 <= k < |c.events| && c.events[k] == e;
    }
  }

  /** On such content the sums are what they stand for in every sound save. */
  lemma BonusIsPlain(c: Config, f: Farm, effect: Effect)
    requires Sound(c, f) && BonusFits(c, effect)
    ensures Bonus(c, f, effect) == PlainBonus(c, f, effect) && 0 <= PlainBonus(c, f, effect) <= TopBonus(c, effect)
    ensures UpgradeSum(c, f, effect) == PlainSum(c.upgrades, f.upgrades, effect, |c.upgrades|) >= 0
  {
    hide Valid, Sound, EventBonus, TopSum, TopEvent, PlainSum, EffectSum, Wrap;
    OwnedFit(c, f, effect);
    EventBonusFits(c, f, effect);
    NoCarry(UpgradeSum(c, f, effect), MultiplierSum(c, f, effect), EventBonus(c, f, effect));
  }

  lemma NoCarry(a: int, b: int, e: int)
    requires 0 <= a && 0 <= b && 0 <= e && a + b + e <= MAX
    ensures Wrap(Wrap(a + b) + e) == a + b + e
  {
  }

  lemma OwnedFit(c: Config, f: Farm, effect: Effect)
    requires Sound(c, f)
    ensures var plain := PlainSum(c.upgrades, f.upgrades, effect, |c.upgrades|);
            var top := TopSum(c.upgrades, effect, |c.upgrades|);
            0 <= plain <= top && (top <= MAX ==> UpgradeSum(c, f, effect) == plain)
    ensures var plain := PlainSum(c.multipliers, f.multipliers, effect, |c.multipliers|);
            var top := TopSum(c.multipliers, effect, |c.multipliers|);
            0 <= plain <= top && (top <= MAX ==> MultiplierSum(c, f, effect) == plain)
  {
    assert PerksWithin(c.upgrades, f.upgrades) && forall u <- c.upgrades :: ValidPerk(u);
    assert PerksWithin(c.multipliers, f.multipliers) && forall u <- c.multipliers :: ValidPerk(u);
    hide Valid, ValidPerk, Sound, TopSum, PlainSum, EffectSum, PerksWithin;
    SumFits(c.upgrades, f.upgrades, effect, |c.upgrades|);
    SumFits(c.multipliers, f.multipliers, effect, |c.multipliers|);
  }

  lemma {:induction false} TopSumNonNegative(perks: seq<Perk>, effect: Effect, n: nat)
    requires n <= |perks| && forall u <- perks :: ValidPerk(u)
    ensures TopSum(perks, effect, n) >= 0
  {
    if n > 0 {
      TopSumNonNegative(perks, effect, n - 1);
      var u := perks[n - 1];
      assert u in perks;
      MulMono(0, u.maxLevel, u.effectValue);
    }
  }

  /** On such content a sale divides by zero exactly when the crop is under its full moon and what is owned makes up for
      all but 100 of it; else the divisor is the whole sum. */
  lemma FittingDivisorZeroIff(c: Config, f: Farm, cropId: string)
    requires Sound(c, f) && BonusFits(c, SellBonus)
    ensures Divisor(SellBonusPct(c, f, cropId)) == 0
            <==> IsFullMoon(c, f, cropId) && PlainBonus(c, f, SellBonus) == -(100 + c.moon.fullMoonSellBonusPct)
    ensures c.moon.fullMoonSellBonusPct > -100 ==> Divisor(SellBonusPct(c, f, cropId)) > 0
  {
    BonusIsPlain(c, f, SellBonus);
    hide Sound, Bonus, PlainBonus, TopBonus, IsFullMoon;
  }

  /** Content on which no save has a sale that divides by zero. */
  predicate Sellable(c: Config) { BonusFits(c, SellBonus) && c.moon.fullMoonSellBonusPct > -100 }

  /** No sale of any sound save on such content divides by zero. */
  lemma SaleDivisorPositive(c: Config, f: Farm, cropId: string)
    requires Sound(c, f) && Sellable(c)
    ensures Divisor(SellBonusPct(c, f, cropId)) > 0
  {
    hide Sound, BonusFits, SellBonusPct, IsFullMoon, PlainBonus;
    FittingDivisorZeroIff(c, f, cropId);
  }

  // ---------- where they fail ----------

  ghost function SimpleContent(): (c: Content)
    ensures Accepted(c) && Valid(c) && c.upgrades == [] && c.events == []
    ensures c.start == Start(0, 1) && c.moon == Moon(0, 0, "") && c.zones == [] && c.multipliers == []
  {
    Sample(SAMPLE_CROP, Land(1, 100, 10), GoldenHarvest(0, 10), Moon(0, 0, ""))
  }

  /** Validation lets -100 through, and then a new farm's first harvest of the moon crop divides by zero. */
  lemma FullMoonDividesByZero(c: Config, rng: nat)
    requires c == Sample(SAMPLE_CROP, Land(1, 100, 1), GoldenHarvest(0, 10), Moon(1, -100, "fast"))
    ensures Accepted(c) && Inv(c, New(c, rng, 0)) && Divisor(SellBonusPct(c, New(c, rng, 0), "fast")) == 0
  {
    NewIsInv(c, rng, 0);
    hide Valid, Accepted, Inv;
  }

  /** Two levels of this upgrade add up to 2^64 - 100. */
  const WRAPPING_SALE := Perk("u", 1, 100, 2, Effect.SellBonus, TWO63 - 50)

  /** The simple content with upgrade `u`. */
  ghost function Upgraded(u: Perk): (c: Content)
    requires ValidPerk(u) && u.id != "" && u.effect in {Effect.GrowSpeed, Effect.PlotDiscount, Effect.SellBonus}
    requires ReductionAccepted(u)
    ensures Accepted(c) && Valid(c) && c.upgrades == [u] && c.multipliers == [] && c.moon == Moon(0, 0, "")
    ensures c.start == Start(0, 1)
  {
    hide Valid, Accepted;
    WithUpgrade(SimpleContent(), u)
  }

  ghost function WrappingSale(): (c: Content)
    ensures Accepted(c) && Valid(c) && c.upgrades == [WRAPPING_SALE] && c.multipliers == [] && c.moon == Moon(0, 0, "")
  {
    hide Valid, Accepted;
    assert Wrap((TWO63 - 50) * 2) == -100;
    Upgraded(WRAPPING_SALE)
  }

  /** A farm that owns both levels of upgrade "u". */
  function OwnsTwo(c: Config, rng: nat): Farm { New(c, rng, 0).(upgrades := map["u" := 2]) }

  lemma OwnsTwoIsInv(c: Config, rng: nat, u: Perk)
    requires c.upgrades == [u] && u.id == "u" && u.maxLevel == 2
    ensures Inv(c, OwnsTwo(c, rng))
  {
    NewIsInv(c, rng, 0);
    hide Valid, PlotsOk, LandOk;
    var f := OwnsTwo(c, rng);
    assert u in c.upgrades;
    assert PlotsOk(c, f) && LandOk(c, f) by { SameBoardAs(c, New(c, rng, 0), f); }
  }

  lemma SameBoardAs(c: Config, f: Farm, g: Farm)
    requires PlotsOk(c, f) && LandOk(c, f) && g == f.(upgrades := g.upgrades)
    ensures PlotsOk(c, g) && LandOk(c, g)
  {
    hide Valid;
    forall i | 0 <= i < |g.plots| ensures PlotOk(c, g, g.plots[i]) { assert PlotOk(c, f, f.plots[i]); }
  }

  /** Validation lets it through, and then every sale divides by zero, with no moon involved. */
  lemma OwnedBonusDividesByZero(c: Config, rng: nat, cropId: string)
    requires c == WrappingSale()
    ensures Accepted(c) && Inv(c, OwnsTwo(c, rng)) && c.moon.fullMoonSellBonusPct == 0
    ensures Divisor(SellBonusPct(c, OwnsTwo(c, rng), cropId)) == 0
  {
    hide Valid, Accepted, Inv, WrappingSale, MoonPhase, Bonus, UpgradeSum, New;
    OwnsTwoIsInv(c, rng, WRAPPING_SALE);
    assert Wrap((TWO63 - 50) * 2) == -100;
    TwoLevels(c, rng, WRAPPING_SALE, SellBonus);
  }

  lemma TwoLevels(c: Config, rng: nat, u: Perk, effect: Effect)
    requires c.upgrades == [u] && c.multipliers == [] && u.id == "u" && u.effect == effect
    ensures UpgradeSum(c, OwnsTwo(c, rng), effect) == Bonus(c, OwnsTwo(c, rng), effect) == Wrap(u.effectValue * 2)
  {
    hide Valid;
    var f := OwnsTwo(c, rng);
    assert EffectSum(c.upgrades, f.upgrades, effect, 0) == 0;
  }
}
