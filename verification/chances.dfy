// How likely what comes by itself is, and what it brings: parcels, events, critters, and the reward in a parcel.
module Chances {
  import opened Int64
  import opened Content
  import opened Farms
  import opened Derive
  import opened Actions
  import opened Advancing
  import opened Invariant
  import opened Bonuses
  import opened Pricing
  import opened EventTimes
  import opened Values

  /** A roll of ten thousand beats a chance of `elapsed` in `interval`, rounded down to basis points, exactly when
      there is a whole interval for each basis point up to and including it. */
  lemma BeatsIff(roll: int, elapsed: int, interval: int)
    requires 0 <= roll && 0 <= elapsed && interval >= 1 && elapsed * 10000 <= MAX
    ensures roll < Quo(Wrap(elapsed * 10000), interval) <==> (roll + 1) * interval <= elapsed * 10000
  {
    QuotientTest(roll + 1, interval, elapsed * 10000);
  }

  /** An upgrade sum that fits is what it stands for. */
  lemma OwnedSum(c: Config, f: Farm, effect: Effect)
    requires Sound(c, f) && TopSum(c.upgrades, effect, |c.upgrades|) <= MAX
    ensures UpgradeSum(c, f, effect) == PlainSum(c.upgrades, f.upgrades, effect, |c.upgrades|) >= 0
  {
    hide Sound, PlainSum, TopSum, Valid;
    OwnedFit(c, f, effect);
  }

  /** An interval shortened by a bonus: its hundredfold over 100 plus the bonus, rounded down. */
  lemma ShortenedIs(interval: int64, bonus: int64)
    requires interval >= 0 && bonus >= 0 && interval * 100 <= MAX && 100 + bonus <= MAX
    ensures FloorOf(Shortened(interval, bonus), interval * 100, 100 + bonus)
  {
    QuoIsFloor(interval * 100, 100 + bonus);
  }

  // ---------- parcels ----------

  /** The mean seconds between parcels: the offline setting, or the online one shortened by the owned bonus. */
  predicate GiftEvery(c: Config, f: Farm, online: bool, interval: int) {
    if online then
      FloorOf(interval, c.gifts.onlineIntervalSec * 100,
              100 + PlainSum(c.upgrades, f.upgrades, GiftRate, |c.upgrades|))
    else interval == c.gifts.offlineIntervalSec
  }

  lemma OnlyFloor(q: int, r: int, a: int, b: int)
    requires b >= 1 && FloorOf(q, a, b) && FloorOf(r, a, b)
    ensures q == r
  {
    if q < r { MulMono(q + 1, r, b); } else if r < q { MulMono(r + 1, q, b); }
  }

  lemma GiftIntervalIs(c: Config, f: Farm, online: bool, interval: int)
    requires Sound(c, f) && c.gifts.onlineIntervalSec * 100 <= MAX
    requires 100 + TopSum(c.upgrades, GiftRate, |c.upgrades|) <= MAX && GiftEvery(c, f, online, interval)
    ensures interval
            == if online then Shortened(c.gifts.onlineIntervalSec, UpgradeSum(c, f, GiftRate))
                else c.gifts.offlineIntervalSec
  {
    GiftIntervalPositive(c);
    hide Sound, PlainSum, TopSum, EffectSum, FloorOf, Shortened, Valid;
    OwnedSum(c, f, GiftRate);
    OwnedFit(c, f, GiftRate);
    var bonus := UpgradeSum(c, f, GiftRate);
    ShortenedIs(c.gifts.onlineIntervalSec, bonus);
    if online {
      OnlyFloor(interval, Shortened(c.gifts.onlineIntervalSec, bonus), c.gifts.onlineIntervalSec * 100, 100 + bonus);
    }
  }

  lemma GiftIntervalPositive(c: Config)
    ensures c.gifts.onlineIntervalSec >= 1 && c.gifts.offlineIntervalSec >= 1
  {
  }

  /** `g` is what the roll for a parcel makes of `f`: the parcel comes or not, dated `to`, and the stream moves by the
      one roll only if there is a chance at all. */
  ghost predicate GiftRolled(c: Config, f: Farm, g: Farm, elapsed: int, to: int, interval: int) {
    var comes := !f.giftPending && interval >= 1 && (Roll(c, f.rng, 10000) + 1) * interval <= elapsed * 10000;
    && (g.giftPending <==> f.giftPending || comes)
    && g.giftArrivedAt == (if comes then to else f.giftArrivedAt)
    && g.rng == (if !f.giftPending && 1 <= interval <= elapsed * 10000 then NextRng(f.rng) else f.rng)
  }

  /** The roll for a parcel, given the chance in basis points. */
  lemma GiftUnrolled(c: Config, t: Tick, elapsed: int, online: bool, to: int, interval: int, chance: int)
    requires 0 <= elapsed
    requires interval
             == if online then Shortened(c.gifts.onlineIntervalSec, UpgradeSum(c, t.farm, GiftRate))
                 else c.gifts.offlineIntervalSec
    requires interval >= 1 ==> chance == Quo(Wrap(elapsed * 10000), interval)
    ensures var f, roll := t.farm, Roll(c, t.farm.rng, 10000);
            RollGiftArrival(c, t, elapsed, online, to).farm
            == if f.giftPending || interval < 1 || chance <= 0 then f
               else if roll < chance then f.(rng := NextRng(f.rng), giftPending := true, giftArrivedAt := to)
               else f.(rng := NextRng(f.rng))
  {
    hide Roll, NextRng, Wrap, Quo, Shortened, UpgradeSum, Valid;
  }

  lemma GiftRolledFrom(c: Config, t: Tick, elapsed: int, online: bool, to: int, interval: int)
    requires 0 <= elapsed && elapsed * 10000 <= MAX
    requires interval
             == if online then Shortened(c.gifts.onlineIntervalSec, UpgradeSum(c, t.farm, GiftRate))
                 else c.gifts.offlineIntervalSec
    ensures GiftRolled(c, t.farm, RollGiftArrival(c, t, elapsed, online, to).farm, elapsed, to, interval)
  {
    hide Roll, NextRng, Wrap, Quo, Shortened, UpgradeSum, RollGiftArrival, Valid;
    var chance := if interval >= 1 then Quo(Wrap(elapsed * 10000), interval) else 0;
    GiftUnrolled(c, t, elapsed, online, to, interval, chance);
    if interval >= 1 { ChanceIff(Roll(c, t.farm.rng, 10000), elapsed, interval, chance); }
  }

  /** A parcel is waiting after the roll exactly when one was, or the roll beats the time passed over the interval. */
  lemma GiftArrivesIff(c: Config, t: Tick, elapsed: int, online: bool, to: int, interval: int)
    requires Sound(c, t.farm) && 0 <= elapsed && elapsed * 10000 <= MAX && c.gifts.onlineIntervalSec * 100 <= MAX
    requires 100 + TopSum(c.upgrades, GiftRate, |c.upgrades|) <= MAX && GiftEvery(c, t.farm, online, interval)
    ensures GiftRolled(c, t.farm, RollGiftArrival(c, t, elapsed, online, to).farm, elapsed, to, interval)
  {
    hide Sound, GiftRolled, GiftEvery, Shortened, UpgradeSum, RollGiftArrival, TopSum, Valid;
    GiftIntervalIs(c, t.farm, online, interval);
    GiftRolledFrom(c, t, elapsed, online, to, interval);
  }

  /** The report tells of a parcel exactly when it came with this roll. */
  lemma GiftReported(c: Config, t: Tick, elapsed: int, online: bool, to: int)
    requires elapsed >= 0
    ensures var r := RollGiftArrival(c, t, elapsed, online, to);
            r.report == t.report.(giftArrived := t.report.giftArrived || (r.farm.giftPending && !t.farm.giftPending))
  {
    hide Roll, NextRng, Wrap, Quo, Shortened, UpgradeSum, Valid;
  }

  lemma ChanceIff(roll: int, elapsed: int, interval: int, chance: int)
    requires 0 <= roll && 0 <= elapsed && interval >= 1 && elapsed * 10000 <= MAX
    requires chance == Quo(Wrap(elapsed * 10000), interval)
    ensures roll < chance <==> (roll + 1) * interval <= elapsed * 10000
    ensures 0 < chance <==> interval <= elapsed * 10000
  {
    hide Wrap, Quo;
    BeatsIff(roll, elapsed, interval);
    BeatsIff(0, elapsed, interval);
  }

  // ---------- events ----------

  /** The bounds of the mean wait for an event: the settings shortened by the owned bonus, one second at least and in
      order. */
  lemma EventIntervalsAre(c: Config, f: Farm) returns (shortest: int, longest: int)
    requires Sound(c, f) && 100 + TopSum(c.upgrades, EventRate, |c.upgrades|) <= MAX
    requires c.eventsConfig.maxIntervalSec * 100 <= MAX
    ensures var bonus := PlainSum(c.upgrades, f.upgrades, EventRate, |c.upgrades|);
            && FloorOf(shortest, c.eventsConfig.minIntervalSec * 100, 100 + bonus)
            && FloorOf(longest, c.eventsConfig.maxIntervalSec * 100, 100 + bonus)
    ensures var (lo, hi) := EventIntervals(c, f);
            && lo == (if shortest < 1 then 1 else shortest) && hi == (if longest < lo then lo else longest)
  {
    assert 1 <= c.eventsConfig.minIntervalSec <= c.eventsConfig.maxIntervalSec;
    hide Sound, PlainSum, TopSum, EffectSum, FloorOf, Shortened, Valid;
    OwnedSum(c, f, EventRate);
    OwnedFit(c, f, EventRate);
    var bonus := UpgradeSum(c, f, EventRate);
    ShortenedIs(c.eventsConfig.minIntervalSec, bonus);
    ShortenedIs(c.eventsConfig.maxIntervalSec, bonus);
    shortest := Shortened(c.eventsConfig.minIntervalSec, bonus);
    longest := Shortened(c.eventsConfig.maxIntervalSec, bonus);
  }

  /** A tick's roll starts an event exactly when it is 0 or beats the time passed over a wait drawn between the
      bounds. */
  lemma EventStartsIff(c: Config, f: Farm, elapsed: int)
    requires 0 <= elapsed && elapsed * 10000 <= MAX
    ensures var (lo, hi) := EventIntervals(c, f);
            var wait := lo + RollRange(c, f.rng, 0, hi - lo);
            var roll := Roll(c, RangeRng(f.rng, 0, hi - lo), 10000);
            && lo <= wait <= hi && (EventRoll(c, f, elapsed).0 <==> roll == 0 || (roll + 1) * wait <= elapsed * 10000)
            && EventRoll(c, f, elapsed).1 == NextRng(RangeRng(f.rng, 0, hi - lo))
  {
    hide EventIntervals, Roll, RollRange, RangeRng, NextRng, Wrap, Quo, Valid;
    var (lo, hi) := EventIntervals(c, f);
    BeatsIff(Roll(c, RangeRng(f.rng, 0, hi - lo), 10000), elapsed, lo + RollRange(c, f.rng, 0, hi - lo));
  }

  /** The owned part of an event's duration: the upgrades for it, and ten percent for every level of the star gazer. */
  function DurationBonus(c: Config, f: Farm): int {
    PlainSum(c.upgrades, f.upgrades, EventDuration, |c.upgrades|) + 10 * Level(f.upgrades, "stargazer")
  }

  lemma DurationBounds(c: Config, f: Farm) returns (shortest: int, longest: int)
    requires Sound(c, f) && EventsFit(c, 0)
    ensures FloorOf(shortest, c.eventsConfig.minDurationSec * (100 + DurationBonus(c, f)), 100)
    ensures FloorOf(longest, c.eventsConfig.maxDurationSec * (100 + DurationBonus(c, f)), 100)
    ensures Durations(c, f) == (shortest, longest - shortest) && 1 <= shortest <= longest <= MAX
  {
    EventDurationsInOrder(c);
    hide Sound, TopDuration, Stretched, EffectSum, PlainSum, TopSum, Wrap, FloorOf, Valid;
    var top := TopDuration(c);
    var lo: int, hi: int := c.eventsConfig.minDurationSec, c.eventsConfig.maxDurationSec;
    TopDurationNonNegative(c);
    MulMono(1, hi, 100 + top);
    MulMono(lo, hi, 100 + top);
    DurationBonusIs(c, f);
    var bonus := DurationBonusFits(c, f);
    StretchedFloor(lo, bonus, top);
    StretchedFloor(hi, bonus, top);
    MulMono(lo, hi, 100 + bonus);
    DivMono(lo * (100 + bonus), hi * (100 + bonus), 100);
    shortest, longest := Stretched(lo, bonus), Stretched(hi, bonus);
    Fitting(longest - shortest);
  }

  lemma EventDurationsInOrder(c: Config)
    ensures 1 <= c.eventsConfig.minDurationSec <= c.eventsConfig.maxDurationSec
  {
  }

  lemma StretchedFloor(duration: int64, bonus: int64, top: int)
    requires duration >= 1 && 0 <= bonus <= top && duration * (100 + top) <= MAX
    ensures 1 <= Stretched(duration, bonus) == duration * (100 + bonus) / 100
    ensures FloorOf(Stretched(duration, bonus), duration * (100 + bonus), 100)
  {
    hide Stretched;
    StretchedFits(duration, bonus, top);
  }

  /** A started event lasts between the shortest and the longest duration, both stretched by the owned bonus and rounded
      down, and as long as the draw between them says. */
  lemma DurationIs(c: Config, f: Farm, rng: nat) returns (shortest: int, longest: int)
    requires Sound(c, f) && EventsFit(c, 0)
    ensures FloorOf(shortest, c.eventsConfig.minDurationSec * (100 + DurationBonus(c, f)), 100)
    ensures FloorOf(longest, c.eventsConfig.maxDurationSec * (100 + DurationBonus(c, f)), 100)
    ensures RolledDuration(c, f, rng) == shortest + RollRange(c, rng, 0, longest - shortest)
    ensures shortest <= RolledDuration(c, f, rng) <= longest
  {
    hide Sound, EventsFit, Durations, FloorOf, RollRange, Wrap, Valid;
    shortest, longest := DurationBounds(c, f);
    Fitting(shortest + RollRange(c, rng, 0, longest - shortest));
  }

  /** A tick whose roll starts an event starts the one that the next draw names, reports it, and lets it end after the
      duration drawn then. */
  lemma EventStarted(c: Config, t: Tick, elapsed: int, to: int) returns (rng: nat, k: nat)
    requires Sound(c, t.farm) && EventsFit(c, to) && elapsed >= 0 && to >= 0
    requires c.events != [] && !EventActive(t.farm, to) && EventRoll(c, t.farm, elapsed).0
    ensures k < |c.events| && k == RollRange(c, EventRoll(c, t.farm, elapsed).1, 0, |c.events| - 1)
    ensures rng == RangeRng(EventRoll(c, t.farm, elapsed).1, 0, |c.events| - 1)
    ensures var r := RollOnlineEvent(c, t, elapsed, to);
            && r.farm == t.farm.(rng := r.farm.rng, eventId := c.events[k].id,
                                 eventEndsAt := to + RolledDuration(c, t.farm, rng))
            && r.report == t.report.(eventStarted := c.events[k].id)
  {
    hide Sound, Roll, RollRange, RangeRng, NextRng, EventIntervals, EventRoll, RolledDuration, Durations, Wrap, Valid;
    var start := EventRoll(c, t.farm, elapsed).1;
    k := RollRange(c, start, 0, |c.events| - 1);
    rng := RangeRng(start, 0, |c.events| - 1);
    DurationIgnoresStream(c, t.farm, t.farm.(rng := start), start);
    RolledDurationFits(c, t.farm, rng, to);
    Fitting(to + RolledDuration(c, t.farm, rng));
  }

  /** Without events to choose from, with one running, or with no luck, no event changes. */
  lemma EventNotStarted(c: Config, t: Tick, elapsed: int, to: int)
    requires elapsed >= 0
    requires c.events == [] || EventActive(t.farm, to) || !EventRoll(c, t.farm, elapsed).0
    ensures RollOnlineEvent(c, t, elapsed, to)
            == t.(farm := t.farm.(rng := RollOnlineEvent(c, t, elapsed, to).farm.rng))
  {
    hide EventRoll, Valid;
  }

  lemma DurationBonusIs(c: Config, f: Farm)
    requires Sound(c, f) && 100 + TopDuration(c) <= MAX
    ensures Wrap(UpgradeSum(c, f, EventDuration) + Wrap(Level(f.upgrades, "stargazer") * 10)) == DurationBonus(c, f)
  {
    hide Sound, PlainSum, TopSum, EffectSum, Valid;
    OwnedFit(c, f, EventDuration);
    StarLevel(c, f);
  }

  /** A tick of at most two seconds ends the event, rolls for an event and then for a parcel; after a longer absence
      there is no roll for an event, and the parcel's is the offline one. */
  lemma TickRolls(c: Config, f: Farm, to: int)
    requires to > f.updatedAt
    ensures var elapsed := to - f.updatedAt;
            var ended := ExpireEvent(Tick(f, QUIET.(elapsed := elapsed)), to);
            Prelude(c, f, to)
            == if elapsed <= 2 then RollGiftArrival(c, RollOnlineEvent(c, ended, elapsed, to), elapsed, true, to)
               else RollGiftArrival(c, ended, elapsed, false, to)
  {
    hide ExpireEvent, RollOnlineEvent, RollGiftArrival, Valid;
  }

  /** An event ends with the first tick at its end instant or after it, and is reported. */
  lemma EventEndsAt(t: Tick, to: int)
    ensures var r := ExpireEvent(t, to);
            if t.farm.eventId != "" && t.farm.eventEndsAt <= to then
              r.farm == t.farm.(eventId := "", eventEndsAt := 0) && r.report == t.report.(eventEnded := t.farm.eventId)
            else r == t
  {
  }

  // ---------- critters ----------

  /** A critter comes to a plot that has none when there are kinds of them and the roll of a hundred is below the
      chance; it is one of the kinds. */
  lemma CritterComesIff(c: Config, rng: nat, here: string)
    ensures var v := CritterVisit(c, rng, here);
            && (v.comes <==> here == "" && c.critters.kinds != [] && Roll(c, rng, 100) < c.critters.visitChancePct)
            && (v.comes ==> v.kind == c.critters.kinds[RollRange(c, NextRng(rng), 0, |c.critters.kinds| - 1)])
            && (!v.comes ==> v.kind == here)
  {
    hide Roll, NextRng, RollRange, RangeRng, Valid;
  }

  /** An empty plot without a critter gets the one that comes, and the report lists it; no other plot changes. */
  lemma CritterSettles(c: Config, t: Tick, i: nat)
    requires i < |t.farm.plots|
    ensures var v := CritterVisit(c, t.farm.rng, t.farm.plots[i].critter);
            var r := MaybeCritterVisit(c, t, i);
            && r.farm == t.farm.(rng := v.rng, plots := r.farm.plots) && |r.farm.plots| == |t.farm.plots|
            && (forall k | 0 <= k < |t.farm.plots| ::
                  r.farm.plots[k] == if k == i && v.comes then t.farm.plots[k].(critter := v.kind) else t.farm.plots[k])
            && r.report.critterVisits == t.report.critterVisits + (if v.comes then [v.kind] else [])
  {
    CritterComesIff(c, t.farm.rng, t.farm.plots[i].critter);
    hide CritterVisit, Valid;
  }

  // ---------- what is in a parcel ----------

  function Between(x: int, floor: int, ceiling: int): int {
    if x <= floor then floor else if x >= ceiling then ceiling else x
  }

  lemma ClampIs(x: int64, floor: int64, ceiling: int64)
    requires floor <= ceiling
    ensures Clamp(x, floor, ceiling) == Between(x, floor, ceiling)
  {
  }

  /** The reward grows with the root of a tenth of the run's earnings and with 50 for every rebirth, within its
      bounds. */
  lemma GiftBaseIs(c: Config, f: Farm, root: nat)
    requires 0 <= f.runEarnings && 0 <= f.rebirths && root + 10 + 50 * f.rebirths <= MAX
    requires c.gifts.coinRewardFloor <= c.gifts.coinRewardCeiling
    requires 10 * root * root <= f.runEarnings < 10 * (root + 1) * (root + 1)
    ensures GiftBase(c, f) == Between(root + 10 + 50 * f.rebirths, c.gifts.coinRewardFloor, c.gifts.coinRewardCeiling)
  {
    hide Isqrt, Valid, Clamp, Between;
    TenthRoot(f.runEarnings, root);
    ClampIs(root + 10 + 50 * f.rebirths, c.gifts.coinRewardFloor, c.gifts.coinRewardCeiling);
  }

  lemma TenthRoot(n: nat, root: nat)
    requires 10 * root * root <= n < 10 * (root + 1) * (root + 1)
    ensures Isqrt(Quo(n, 10)) == root
  {
    hide Isqrt;
    var tenth := Quo(n, 10);
    assert root * root <= tenth < (root + 1) * (root + 1);
    IsqrtIsRoot(tenth);
    RootUnique(tenth, root, Isqrt(tenth));
  }

  /** A parcel's coins are the reward, moved by a draw of up to a fifth of it either way, within its bounds. */
  lemma GiftCoinsAre(c: Config, f: Farm, rng: nat)
    requires 0 <= c.gifts.coinRewardFloor <= c.gifts.coinRewardCeiling <= MAX / 2
    ensures var base := GiftBase(c, f);
            0 <= base && GiftCoins(c, f, rng)
            == Between(base + RollRange(c, rng, -(base / 5), base / 5), c.gifts.coinRewardFloor,
                c.gifts.coinRewardCeiling)
  {
    var base: int := GiftBase(c, f);
    hide RollRange, Isqrt, Valid, GiftBase;
    assert 0 <= base <= MAX / 2 by { RewardInBounds(c, f); }
    assert Quo(Wrap(-base), 5) == -(base / 5) && Quo(base, 5) == base / 5;
    ClampIs(base + RollRange(c, rng, -(base / 5), base / 5), c.gifts.coinRewardFloor, c.gifts.coinRewardCeiling);
  }

  lemma RewardInBounds(c: Config, f: Farm)
    requires 0 <= c.gifts.coinRewardFloor <= c.gifts.coinRewardCeiling
    ensures c.gifts.coinRewardFloor <= GiftBase(c, f) <= c.gifts.coinRewardCeiling
  {
    hide Isqrt, Valid, Wrap;
  }

  /** Whether the parcel holds Starseeds: only after a rebirth, when the roll of a hundred is below the chance. */
  predicate SeedsInside(c: Config, f: Farm) { f.rebirths >= 1 && Roll(c, f.rng, 100) < c.gifts.starseedChancePct }

  /** Opening a parcel of Starseeds takes it off the gate and adds what a rebirth would gain, one more, and one for
      every rebirth. */
  lemma RedeemSeeds(c: Config, f: Farm)
    requires f.giftPending && SeedsInside(c, f) && 0 <= f.prestige && PrestigeGain(c, f) + 1 + f.rebirths <= MAX
    ensures var seeds := PrestigeGain(c, f) + 1 + f.rebirths;
            RedeemGiftStep(c, f)
            == Done(f.(giftPending := false, giftArrivedAt := 0, rng := NextRng(f.rng),
                       prestige := Min(f.prestige + seeds, MAX)), Parcel(0, seeds))
  {
    hide PrestigeGain, Roll, NextRng, SatAdd, Wrap, Valid;
    var seeds: int := PrestigeGain(c, f) + 1 + f.rebirths;
    SatAddClips(f.prestige, seeds);
    Fitting(seeds);
  }

  /** Opening any other takes it off the gate and credits its coins; opening none is refused. */
  lemma RedeemCoins(c: Config, f: Farm)
    ensures RedeemGiftStep(c, f) == Refused(NoGift) <==> !f.giftPending
    ensures f.giftPending && !SeedsInside(c, f) ==>
              var rng := if f.rebirths >= 1 then NextRng(f.rng) else f.rng;
              var g := f.(giftPending := false, giftArrivedAt := 0, rng := RedeemGiftStep(c, f).farm.rng);
              RedeemGiftStep(c, f) == Done(Credit(g, GiftCoins(c, f, rng)), Parcel(GiftCoins(c, f, rng), 0))
    ensures f.giftPending && !SeedsInside(c, f) && 0 <= c.gifts.coinRewardFloor <= c.gifts.coinRewardCeiling ==>
              var rng := if f.rebirths >= 1 then NextRng(f.rng) else f.rng;
              RedeemGiftStep(c, f).farm.rng == if GiftBase(c, f) >= 5 then NextRng(rng) else rng
  {
    hide PrestigeGain, Roll, NextRng, GiftCoins, GiftRng, Credit, SatAdd, Wrap, Valid;
    RewardOfRun(c, f);
    GiftStream(c, f);
  }

  /** The draw for the coins takes one roll if a fifth of the reward is a coin at least, and none otherwise. */
  lemma GiftStream(c: Config, f: Farm)
    ensures 0 <= c.gifts.coinRewardFloor <= c.gifts.coinRewardCeiling ==>
              GiftRng(c, f) == if GiftBase(c, f) >= 5 then NextRng(Unwrapped(f).rng) else Unwrapped(f).rng
  {
    hide Isqrt, NextRng, GiftBase, Valid;
    if 0 <= c.gifts.coinRewardFloor <= c.gifts.coinRewardCeiling { RewardInBounds(c, f); }
  }

  lemma RewardOfRun(c: Config, f: Farm)
    ensures forall rng: nat :: GiftCoins(c, Unwrapped(f), rng) == GiftCoins(c, f, rng)
    ensures PrestigeGain(c, Unwrapped(f)) == PrestigeGain(c, f)
  {
    hide RollRange, Isqrt, Clamp, Valid, NextRng;
  }
}
