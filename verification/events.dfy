// Whether the event that drives prices has ended: exactly when a started event outlives its tick, and the content on
// which every event does.
module EventTimes {
  import opened Int64
  import opened Content
  import opened Farms
  import opened Derive
  import opened Actions
  import opened Advancing
  import opened Invariant
  import opened Bonuses
  import opened History

  /** A set event has not run out at `now`. */
  predicate EventLive(f: Farm, now: int) { f.eventId != "" ==> now < f.eventEndsAt }

  /** `activeEvent`, which ignores the end time and drives all prices, agrees with `EventActive` at the save's instant
      exactly when the set event has not run out. */
  lemma EventAgreementIff(c: Config, f: Farm)
    requires Inv(c, f)
    ensures (HasEvent(c, f) <==> EventActive(f, f.updatedAt)) <==> EventLive(f, f.updatedAt)
  {
    hide Sound;
  }

  // ---------- one tick ----------

  /** The duration an event started from the stream position `rng` gets. */
  function StartedDuration(c: Config, f: Farm, rng: nat): int64
    requires |c.events| > 0
  {
    RolledDuration(c, f, RangeRng(rng, 0, |c.events| - 1))
  }

  /** A started event outlives its instant exactly when its duration is positive and the end instant fits int64. */
  lemma StartedEventLivesIff(c: Config, t: Tick, to: int)
    requires |c.events| > 0 && 0 <= to <= MAX
    ensures EventLive(StartEvent(c, t, to).farm, to) <==> 1 <= StartedDuration(c, t.farm, t.farm.rng) <= MAX - to
  {
    hide RolledDuration, Durations, RangeRng, Roll;
    var duration := StartedDuration(c, t.farm, t.farm.rng);
    EndInstant(to, duration);
    assert c.events[RollRange(c, t.farm.rng, 0, |c.events| - 1)] in c.events;
  }

  lemma EndInstant(to: int, duration: int64)
    requires 0 <= to <= MAX
    ensures to < Wrap(to + duration) <==> 1 <= duration <= MAX - to
  {
  }

  /** The tick to `to` starts an event whose duration is not positive or whose end instant wraps. */
  predicate StartsDead(c: Config, f: Farm, to: int)
    requires to > f.updatedAt
  {
    var elapsed := to - f.updatedAt;
    var g := ExpireEvent(Tick(f, QUIET.(elapsed := elapsed)), to).farm;
    && Online(elapsed) && |c.events| > 0 && !EventActive(g, to) && EventRoll(c, g, elapsed).0
    && !(1 <= StartedDuration(c, g, EventRoll(c, g, elapsed).1) <= MAX - to)
  }

  /** The roll of a tick whose set event, if any, has not run out. */
  lemma RollEventIff(c: Config, t: Tick, elapsed: int, to: int)
    requires elapsed >= 0 && 0 <= to <= MAX && EventLive(t.farm, to)
    ensures EventLive(RollOnlineEvent(c, t, elapsed, to).farm, to)
            <==> !(|c.events| > 0 && !EventActive(t.farm, to) && EventRoll(c, t.farm, elapsed).0
                   && !(1 <= StartedDuration(c, t.farm, EventRoll(c, t.farm, elapsed).1) <= MAX - to))
  {
    hide StartEvent, EventRoll, StartedDuration, Valid;
    if |c.events| > 0 && !EventActive(t.farm, to) {
      var rolled := Tick(t.farm.(rng := EventRoll(c, t.farm, elapsed).1), t.report);
      StartedEventLivesIff(c, rolled, to);
      DurationIgnoresStream(c, t.farm, rolled.farm, rolled.farm.rng);
    }
  }

  lemma ExpiredIsLive(t: Tick, to: int)
    ensures EventLive(ExpireEvent(t, to).farm, to)
  {
  }

  lemma PreludeEventIff(c: Config, f: Farm, to: int)
    requires f.updatedAt < to && 0 <= to <= MAX
    ensures EventLive(Prelude(c, f, to).farm, to) <==> !StartsDead(c, f, to)
  {
    hide EventRoll, ExpireEvent, RollOnlineEvent, RollGiftArrival, StartedDuration, EventActive, Untouched, Valid;
    var elapsed := to - f.updatedAt;
    var t0 := ExpireEvent(Tick(f, QUIET.(elapsed := elapsed)), to);
    ExpiredIsLive(Tick(f, QUIET.(elapsed := elapsed)), to);
    if Online(elapsed) { RollEventIff(c, t0, elapsed, to); }
  }

  lemma DurationIgnoresStream(c: Config, f: Farm, g: Farm, rng: nat)
    requires |c.events| > 0 && g == f.(rng := g.rng)
    ensures StartedDuration(c, f, rng) == StartedDuration(c, g, rng)
  {
    hide Valid, EffectSum, Wrap, Stretched;
  }

  /** After any catch-up, whatever event was set before, the set event has not run out unless this very tick started one
      whose duration is not positive or whose end instant wraps. */
  lemma AdvanceEventIff(c: Config, f: Farm, to: int)
    requires Inv(c, f) && f.updatedAt < to && 0 <= to <= MAX
    ensures EventLive(Advance(c, f, to).farm, to) <==> !StartsDead(c, f, to)
  {
    hide Sound, Prelude, TendPlots, Award, Awarded, StartsDead, EventKnown;
    PreludeEventIff(c, f, to);
    PreludeKeeps(c, f, to);
    TendPlotsKeeps(c, Prelude(c, f, to), 0, f.updatedAt, to, Online(to - f.updatedAt));
  }

  // ---------- content on which every event outlives its tick ----------

  /** The most the duration bonus can come to. */
  function TopDuration(c: Config): int {
    TopSum(c.upgrades, EventDuration, |c.upgrades|)
    + if "stargazer" in c.upgradeById then c.upgradeById["stargazer"].maxLevel * 10 else 0
  }

  /** With every perk at its top level the longest event, started at `horizon` or before, ends at an int64 instant. */
  predicate EventsFit(c: Config, horizon: int) {
    var longest := c.eventsConfig.maxDurationSec * (100 + TopDuration(c));
    longest <= MAX && horizon + longest / 100 <= MAX
  }

  lemma StarLevel(c: Config, f: Farm)
    requires Sound(c, f)
    ensures 0 <= Level(f.upgrades, "stargazer")
            <= if "stargazer" in c.upgradeById then c.upgradeById["stargazer"].maxLevel else 0
  {
    hide PlotsOk, LandOk, StrainsWithin;
    if "stargazer" in f.upgrades {
      var u :| u in c.upgrades && u.id == "stargazer";
      var k :| 0 <= k < |c.upgrades| && c.upgrades[k] == u;
      assert c.upgrades[k].id in c.upgradeById;
    } else if "stargazer" in c.upgradeById {
      assert c.upgradeById["stargazer"] in c.upgrades;
    }
  }

  /** The bonus in force, and that it is the plain one. */
  lemma DurationBonusFits(c: Config, f: Farm) returns (bonus: int64)
    requires Sound(c, f) && 100 + TopDuration(c) <= MAX
    ensures bonus == Wrap(UpgradeSum(c, f, EventDuration) + Wrap(Level(f.upgrades, "stargazer") * 10))
    ensures 0 <= bonus <= TopDuration(c)
  {
    hide Sound, PlainSum, TopSum, EffectSum, Valid;
    OwnedFit(c, f, EventDuration);
    StarLevel(c, f);
    var own, stars := UpgradeSum(c, f, EventDuration), Level(f.upgrades, "stargazer") * 10;
    bonus := own + stars;
  }

  lemma StretchedFits(duration: int64, bonus: int64, top: int)
    requires duration >= 1 && 0 <= bonus <= top && duration * (100 + top) <= MAX
    ensures 1 <= Stretched(duration, bonus) == duration * (100 + bonus) / 100 <= duration * (100 + top) / 100
  {
    MulMono(100 + bonus, 100 + top, duration);
    MulMono(100, 100 + bonus, duration);
    MulMono(1, duration, 100 + top);
    DivMono(duration * (100 + bonus), duration * (100 + top), 100);
    DivMono(100, duration * (100 + bonus), 100);
    if bonus == 0 { QuotientUnique(duration * 100, 100, duration, 0); }
  }

  lemma DurationsFit(c: Config, f: Farm, horizon: int)
    requires Sound(c, f) && EventsFit(c, horizon) && 0 <= horizon
    ensures var (lo, span) := Durations(c, f); 1 <= lo && 0 <= span && lo + span <= MAX - horizon
  {
    hide Sound, TopDuration, Stretched, EffectSum, Indexed;
    var top := TopDuration(c);
    var lo, hi := c.eventsConfig.minDurationSec, c.eventsConfig.maxDurationSec;
    TopDurationNonNegative(c);
    MulMono(1, hi, 100 + top);
    MulMono(lo, hi, 100 + top);
    var bonus := DurationBonusFits(c, f);
    StretchedFits(lo, bonus, top);
    StretchedFits(hi, bonus, top);
    DivMono(lo * (100 + top), hi * (100 + top), 100);
  }

  lemma TopDurationNonNegative(c: Config)
    ensures TopDuration(c) >= 0
  {
    hide Indexed;
    TopSumNonNegative(c.upgrades, EventDuration, |c.upgrades|);
    if "stargazer" in c.upgradeById { StarTop(c); }
  }

  lemma StarTop(c: Config)
    requires "stargazer" in c.upgradeById
    ensures c.upgradeById["stargazer"].maxLevel >= 1
  {
    assert c.upgradeById["stargazer"] in c.upgrades;
  }

  lemma RolledDurationFits(c: Config, f: Farm, rng: nat, horizon: int)
    requires Sound(c, f) && EventsFit(c, horizon) && 0 <= horizon
    ensures 1 <= RolledDuration(c, f, rng) <= MAX - horizon
  {
    hide Sound, EventsFit, Durations, Valid;
    DurationsFit(c, f, horizon);
  }

  /** On such content no tick up to the horizon leaves an event that has run out. */
  lemma EventsStayLive(c: Config, f: Farm, to: int, horizon: int)
    requires Inv(c, f) && EventsFit(c, horizon) && f.updatedAt < to && 0 <= to <= horizon <= MAX
    ensures EventLive(Advance(c, f, to).farm, to)
  {
    hide Sound, Advance, EventsFit, RolledDuration, EventRoll, EventKnown, Valid;
    AdvanceEventIff(c, f, to);
    var g := ExpireEvent(Tick(f, QUIET.(elapsed := to - f.updatedAt)), to).farm;
    if |c.events| > 0 {
      assert Sound(c, g) by { ExpiredIsSound(c, f, to); }
      RolledDurationFits(c, g, RangeRng(EventRoll(c, g, to - f.updatedAt).1, 0, |c.events| - 1), horizon);
    }
  }

  lemma ExpiredIsSound(c: Config, f: Farm, to: int)
    requires Sound(c, f)
    ensures Sound(c, ExpireEvent(Tick(f, QUIET.(elapsed := to - f.updatedAt)), to).farm)
  {
    hide Sound, Valid;
    SoundBoard(c, f);
    SameBoardKeeps(c, f, ExpireEvent(Tick(f, QUIET.(elapsed := to - f.updatedAt)), to).farm);
  }

  // ---------- whole histories ----------

  /** The instant a move names. */
  function Instant(m: Move): int {
    match m
    case Pass(to) => to
    case Do(_, now) => now
    case Check(now) => now
  }

  lemma AfterStaysLive(c: Config, f: Farm, m: Move, horizon: int)
    requires Inv(c, f) && EventsFit(c, horizon) && 0 <= Instant(m) <= horizon <= MAX && EventLive(f, f.updatedAt)
    ensures EventLive(After(c, f, m), After(c, f, m).updatedAt)
  {
    hide Inv, EventsFit, Act, Advance, Award, Valid;
    match m
    case Pass(to) =>
      AdvanceClock(c, f, to);
      if to > f.updatedAt { EventsStayLive(c, f, to, horizon); }
    case Do(a, now) => if Act(c, f, a, now).Done? { EventAfterAct(c, f, a, now); }
    case Check(now) =>
  }

  /** An action leaves the event and the clock alone, or is a rebirth, which clears the event and sets the clock. */
  lemma EventAfterAct(c: Config, f: Farm, a: Action, now: int)
    requires Act(c, f, a, now).Done?
    ensures var g := Act(c, f, a, now).farm;
            if a.Rebirth? then g.eventId == "" && g.updatedAt == now
            else g.eventId == f.eventId && g.eventEndsAt == f.eventEndsAt && g.updatedAt == f.updatedAt
  {
    hide EmptyPlots, OpeningCoins, PrestigeGain, CanRebirth, Valid, PlantStep, HarvestStep, BuyPlotStep, BuyZoneStep,
         BuyMultiplierStep, BuySeedUpgradeStep, UpgradePlotAutoStep, BuyUpgradeStep, RedeemGiftStep, ShooCritterStep,
         SetFarmNameStep;
    if !a.Rebirth? { ActKeepsEvent(c, f, a, now); }
  }

  /** On such content, in every save reached from a new one by moves at instants up to the horizon, the event that
      drives prices is one that has not run out. */
  lemma {:induction false} ReachableEventsAgree(c: Config, seed: nat, start: int, ms: seq<Move>, horizon: int)
    requires EventsFit(c, horizon) && 0 <= horizon <= MAX
    requires forall k | 0 <= k < |ms| :: 0 <= Instant(ms[k]) <= horizon
    ensures var f := Play(c, New(c, seed, start), ms);
            EventLive(f, f.updatedAt) && (HasEvent(c, f) <==> EventActive(f, f.updatedAt))
  {
    hide Inv, EventsFit, After, Instant, Valid, HasEvent, EventActive, EventLive;
    var f := Play(c, New(c, seed, start), ms);
    if ms == [] {
      assert EventLive(f, f.updatedAt) by { NewIsLive(c, seed, start); }
    } else {
      ReachableEventsAgree(c, seed, start, ms[..|ms| - 1], horizon);
      Reachable(c, seed, start, ms[..|ms| - 1]);
      AfterStaysLive(c, Play(c, New(c, seed, start), ms[..|ms| - 1]), ms[|ms| - 1], horizon);
    }
    Reachable(c, seed, start, ms);
    EventAgreementIff(c, f);
  }

  lemma NewIsLive(c: Config, seed: nat, start: int)
    ensures EventLive(New(c, seed, start), New(c, seed, start).updatedAt)
  {
  }

  // ---------- where it fails ----------

  const LONG_EVENT := Event("e", Effect.SellBonus, 1)

  /** Content that passes validation, with an event every second that lasts as long as int64 can say. */
  ghost function LongEvents(): (c: Content)
    ensures Accepted(c) && Valid(c) && c.events == [LONG_EVENT] && c.upgrades == []
    ensures c.eventById == map["e" := LONG_EVENT] && c.eventsConfig == EventsConfig(1, 1, MAX, MAX)
  {
    hide Valid, Accepted;
    WithEvent(SimpleContent(), LONG_EVENT, EventsConfig(1, 1, MAX, MAX))
  }

  /** The first tick of a new farm starts an event that is already over, and leaves prices to it. */
  lemma DeadEvent(c: Config, rng: nat)
    requires c == LongEvents()
    ensures var f := New(c, rng, 0); var g := Advance(c, f, 1).farm;
            && Inv(c, f) && StartsDead(c, f, 1) && !EventLive(g, 1)
            && HasEvent(c, g) && !EventActive(g, g.updatedAt)
  {
    hide Valid, Accepted, LongEvents, Inv;
    var f := New(c, rng, 0);
    NewIsInv(c, rng, 0);
    LongRoll(c, f);
    LongDuration(c, f, EventRoll(c, f, 1).1);
    hide EventRoll, StartedDuration, New, Advance;
    assert StartsDead(c, f, 1);
    AdvanceEventIff(c, f, 1);
    AdvanceKeeps(c, f, 1);
    AdvanceClock(c, f, 1);
    EventAgreementIff(c, Advance(c, f, 1).farm);
    LiveIfNone(c, Advance(c, f, 1).farm);
  }

  lemma LiveIfNone(c: Config, f: Farm)
    requires Inv(c, f) && !EventLive(f, f.updatedAt)
    ensures HasEvent(c, f) && !EventActive(f, f.updatedAt)
  {
    hide Sound;
  }

  lemma LongRoll(c: Config, f: Farm)
    requires c.eventsConfig == EventsConfig(1, 1, MAX, MAX) && c.upgrades == [] && f.upgrades == map[]
    ensures EventRoll(c, f, 1).0
  {
    hide Valid;
    assert EventIntervals(c, f) == (1, 1);
  }

  lemma LongDuration(c: Config, f: Farm, rng: nat)
    requires c.eventsConfig == EventsConfig(1, 1, MAX, MAX) && c.upgrades == [] && f.upgrades == map[] && |c.events| > 0
    ensures StartedDuration(c, f, rng) == MAX
  {
    hide Valid;
  }
}
