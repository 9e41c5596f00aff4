// Catch-up simulation: `Advance` as a function of the save and the target time.
module Advancing {
  import opened Int64
  import opened Content
  import opened Farms
  import opened Derive
  import opened Actions

  const AUTO_CYCLE_CAP: nat := 50_000
  const ONLINE_TICK_THRESHOLD := 2

  /** The source's `Events` report. `seedCoins` is the model's own tally of what replanting took
      out of the wallet; the source only keeps the net in `autoCoins`. */
  datatype Report = Report(
    elapsed: int, matured: map<string, int>, autoHarvested: map<string, int>, autoCoins: int64,
    discoveries: nat, discoveryCoins: int64, achievements: seq<string>, failedHarvests: map<string, int>,
    goldenHarvests: nat, giftArrived: bool, eventStarted: string, eventEnded: string,
    critterVisits: seq<string>, seedCoins: int)

  const QUIET := Report(0, map[], map[], 0, 0, 0, [], map[], 0, false, "", "", [], 0)

  /** A save together with the report of what has happened to it so far. */
  datatype Tick = Tick(farm: Farm, report: Report)

  function Bump(m: map<string, int>, id: string, n: int): map<string, int> {
    m[id := Level(m, id) + n]
  }

  // ---------- before the plots ----------

  /** Only the stream, the event and the gift differ; nothing has been earned, reaped or seen yet. */
  ghost predicate Untouched(t: Tick, r: Tick) {
    && r.farm == t.farm.(rng := r.farm.rng, eventId := r.farm.eventId, eventEndsAt := r.farm.eventEndsAt,
                         giftPending := r.farm.giftPending, giftArrivedAt := r.farm.giftArrivedAt)
    && r.report == t.report.(eventEnded := r.report.eventEnded, eventStarted := r.report.eventStarted,
                             giftArrived := r.report.giftArrived)
  }

  function ExpireEvent(t: Tick, to: int): (r: Tick)
    ensures Untouched(t, r)
  {
    if t.farm.eventId != "" && to >= t.farm.eventEndsAt then
      Tick(t.farm.(eventId := "", eventEndsAt := 0), t.report.(eventEnded := t.farm.eventId))
    else t
  }

  function Shortened(interval: int64, bonus: int64): int {
    if bonus > 0 then Div(Wrap(interval * 100), Divisor(bonus)) else interval
  }

  function Stretched(duration: int64, bonus: int64): int64 {
    if bonus > 0 then Quo(Wrap(duration * Divisor(bonus)), 100) else duration
  }

  /** The two interval bounds in force, as `rollOnlineEvent` repairs them. */
  function EventIntervals(c: Config, f: Farm): (lohi: (int, int))
    ensures 1 <= lohi.0 <= lohi.1
  {
    var bonus := UpgradeSum(c, f, EventRate);
    var lo := Shortened(c.eventsConfig.minIntervalSec, bonus);
    var hi := Shortened(c.eventsConfig.maxIntervalSec, bonus);
    var lo1 := if lo < 1 then 1 else lo;
    (lo1, if hi < lo1 then lo1 else hi)
  }

  /** Whether a tick's roll starts an event, and the stream after it. */
  function EventRoll(c: Config, f: Farm, elapsed: int): (bool, nat) {
    var (lo, hi) := EventIntervals(c, f);
    var interval := lo + RollRange(c, f.rng, 0, hi - lo);
    var rng1 := RangeRng(f.rng, 0, hi - lo);
    var perTick := Quo(Wrap(elapsed * 10000), interval);
    (Roll(c, rng1, 10000) < (if perTick < 1 then 1 else perTick), NextRng(rng1))
  }

  function RollOnlineEvent(c: Config, t: Tick, elapsed: int, to: int): (r: Tick)
    requires elapsed >= 0
    ensures Untouched(t, r)
  {
    var f := t.farm;
    if |c.events| == 0 || EventActive(f, to) then t
    else
      var (starts, rng) := EventRoll(c, f, elapsed);
      var rolled := Tick(f.(rng := rng), t.report);
      if starts then StartEvent(c, rolled, to) else rolled
  }

  /** The shortest duration in force, and how much longer a roll may make it. */
  function Durations(c: Config, f: Farm): (int64, int64) {
    var bonus := Wrap(UpgradeSum(c, f, EventDuration) + Wrap(Level(f.upgrades, "stargazer") * 10));
    var lo, hi := Stretched(c.eventsConfig.minDurationSec, bonus), Stretched(c.eventsConfig.maxDurationSec, bonus);
    (lo, if hi > lo then Wrap(hi - lo) else 0)
  }

  /** How long an event lasts that starts with the stream at `rng`. */
  function RolledDuration(c: Config, f: Farm, rng: nat): int64 {
    var (lo, span) := Durations(c, f);
    Wrap(lo + RollRange(c, rng, 0, span))
  }

  function StartEvent(c: Config, t: Tick, to: int): (r: Tick)
    requires |c.events| > 0
    ensures Untouched(t, r)
  {
    var f := t.farm;
    var last := |c.events| - 1;
    var e := c.events[RollRange(c, f.rng, 0, last)];
    var rng1 := RangeRng(f.rng, 0, last);
    Tick(f.(rng := RangeRng(rng1, 0, Durations(c, f).1), eventId := e.id,
            eventEndsAt := Wrap(to + RolledDuration(c, f, rng1))),
         t.report.(eventStarted := e.id))
  }

  function RollGiftArrival(c: Config, t: Tick, elapsed: int, online: bool, to: int): (r: Tick)
    requires elapsed >= 0
    ensures Untouched(t, r) && r.farm.eventId == t.farm.eventId && r.farm.eventEndsAt == t.farm.eventEndsAt
  {
    var f := t.farm;
    var interval :=
      if online then Shortened(c.gifts.onlineIntervalSec, UpgradeSum(c, f, GiftRate)) else c.gifts.offlineIntervalSec;
    if f.giftPending || interval < 1 then t
    else
      var chance := Min(Quo(Wrap(elapsed * 10000), interval), 10000);
      if chance <= 0 then t
      else if Roll(c, f.rng, 10000) < chance then
        Tick(f.(rng := NextRng(f.rng), giftPending := true, giftArrivedAt := to), t.report.(giftArrived := true))
      else Tick(f.(rng := NextRng(f.rng)), t.report)
  }

  // ---------- one plot ----------

  /** Whether a critter turns up on an empty plot that has none, which one, and the stream after the rolls. */
  datatype Visit = Visit(rng: nat, comes: bool, kind: string)

  function CritterVisit(c: Config, rng: nat, here: string): Visit {
    if here != "" || |c.critters.kinds| == 0 || c.critters.visitChancePct <= 0 then Visit(rng, false, here)
    else
      var rng1 := NextRng(rng);
      var last := |c.critters.kinds| - 1;
      if Roll(c, rng, 100) >= c.critters.visitChancePct then Visit(rng1, false, here)
      else Visit(RangeRng(rng1, 0, last), true, c.critters.kinds[RollRange(c, rng1, 0, last)])
  }

  function MaybeCritterVisit(c: Config, t: Tick, i: nat): Tick
    requires i < |t.farm.plots|
  {
    var f := t.farm;
    var v := CritterVisit(c, f.rng, f.plots[i].critter);
    Tick(f.(rng := v.rng, plots := f.plots[i := f.plots[i].(critter := v.kind)]),
         if v.comes then t.report.(critterVisits := t.report.critterVisits + [v.kind]) else t.report)
  }

  ghost predicate SameHead(t: Tick, r: Tick) {
    r.report.elapsed == t.report.elapsed && r.farm.version == t.farm.version
  }

  /** The report with one more automatic harvest in it. */
  function Noted(r: Report, crop: Crop, y: Yield): Report {
    r.(autoCoins := SatAdd(r.autoCoins, y.payout),
       failedHarvests := if y.failed then Bump(r.failedHarvests, crop.id, 1) else r.failedHarvests,
       goldenHarvests := r.goldenHarvests + if y.golden then 1 else 0,
       discoveries := r.discoveries + if y.discovery > 0 then 1 else 0,
       discoveryCoins := if y.discovery > 0 then Wrap(r.discoveryCoins + y.discovery) else r.discoveryCoins,
       autoHarvested := Bump(r.autoHarvested, crop.id, 1))
  }

  /** One automatic harvest, before the plot is replanted or cleared. */
  function Reap(c: Config, t: Tick, crop: Crop): (r: Tick)
    ensures r.farm.plots == t.farm.plots && SameHead(t, r)
  {
    var y := HarvestYield(c, t.farm, crop);
    Tick(Bank(t.farm, y), Noted(t.report, crop, y))
  }

  predicate CanReplant(c: Config, f: Farm, i: nat, crop: Crop)
    requires i < |f.plots|
  {
    f.plots[i].autoSow && f.coins >= SeedCost(c, f, crop) && Unlocked(f, crop.unlock)
  }

  function Replant(c: Config, t: Tick, i: nat, crop: Crop, matureAt: int): (r: Tick)
    requires i < |t.farm.plots|
    ensures r.farm.plots == t.farm.plots[i := t.farm.plots[i].(plantedAt := matureAt)]
    ensures SameHead(t, r)
  {
    var f := t.farm;
    var seed := SeedCost(c, f, crop);
    Tick(f.(coins := Wrap(f.coins - seed), plots := f.plots[i := f.plots[i].(plantedAt := matureAt)]),
         t.report.(autoCoins := Wrap(t.report.autoCoins - seed), seedCoins := t.report.seedCoins + seed))
  }

  function ClearPlot(t: Tick, i: nat): (r: Tick)
    requires i < |t.farm.plots|
    ensures r.farm.plots == t.farm.plots[i := t.farm.plots[i].(crop := "", plantedAt := 0)]
    ensures SameHead(t, r)
  {
    t.(farm := t.farm.(plots := t.farm.plots[i := t.farm.plots[i].(crop := "", plantedAt := 0)]))
  }

  predicate CanBatch(c: Config, f: Farm, i: nat, crop: Crop)
    requires i < |f.plots|
  {
    f.plots[i].autoSow && f.coins >= SeedCost(c, f, crop) && ExpectedPayout(c, f, crop) > SeedCost(c, f, crop)
  }

  /** Maturities at `matureAt`, `matureAt + grow`, ... that are not after `to`. */
  function Due(matureAt: int, grow: int, to: int): int
    requires grow >= 1
  {
    if matureAt > to then 0 else (to - matureAt) / grow + 1
  }

  /** All remaining cycles of plot `i` settled in one go. */
  function Batch(c: Config, t: Tick, i: nat, crop: Crop, grow: int, matureAt: int, to: int): (r: Tick)
    requires i < |t.farm.plots| && grow >= 1 && matureAt <= to
    requires CanBatch(c, t.farm, i, crop)
    ensures r.farm.plots
            == t.farm.plots[i := t.farm.plots[i].(plantedAt := matureAt + (Due(matureAt, grow, to) - 1) * grow)]
    ensures SameHead(t, r)
  {
    var f := t.farm;
    var n := Due(matureAt, grow, to);
    var gross := SatMul(ExpectedPayout(c, f, crop), n);
    var paid := Credit(f, gross);
    var seeds := Min(SatMul(SeedCost(c, f, crop), n), paid.coins);
    Tick(paid.(coins := Wrap(paid.coins - seeds), lifetimeHarvests := SatAdd(paid.lifetimeHarvests, Min(n, MAX)),
               plots := f.plots[i := f.plots[i].(plantedAt := matureAt + (n - 1) * grow)]),
         t.report.(autoCoins := SatAdd(t.report.autoCoins, Wrap(gross - seeds)),
                   seedCoins := t.report.seedCoins + seeds,
                   autoHarvested := Bump(t.report.autoHarvested, crop.id, n)))
  }

  /** A plot's loop, run to its end: what it left, the cursor, replants made one by one, batches used. */
  datatype Settled = Settled(tick: Tick, matureAt: int, cycles: nat, batches: nat)

  /** The harvest/replant loop of an auto-harvest plot. */
  function Settle(c: Config, t: Tick, i: nat, crop: Crop, grow: int, matureAt: int, cycles: nat, batches: nat,
                  to: int): (r: Settled)
    requires i < |t.farm.plots| && grow >= 1
    ensures |r.tick.farm.plots| == |t.farm.plots|
    decreases if matureAt <= to then to - matureAt + 1 else 0
  {
    hide Reap, Replant, ClearPlot, Batch, CanBatch, CanReplant;
    if matureAt > to then Settled(t, matureAt, cycles, batches)
    else if cycles >= AUTO_CYCLE_CAP then
      if CanBatch(c, t.farm, i, crop) then
        var t1 := Batch(c, t, i, crop, grow, matureAt, to);
        DueReaches(matureAt, grow, to);
        Settle(c, t1, i, crop, grow, t1.farm.plots[i].plantedAt + grow, cycles, batches + 1, to)
      else Settled(t, matureAt, cycles, batches)
    else
      var t1 := Reap(c, t, crop);
      if CanReplant(c, t1.farm, i, crop) then
        Settle(c, Replant(c, t1, i, crop, matureAt), i, crop, grow, matureAt + grow, cycles + 1, batches, to)
      else Settled(ClearPlot(t1, i), matureAt, cycles, batches)
  }

  lemma DueReaches(matureAt: int, grow: int, to: int)
    requires grow >= 1 && matureAt <= to
    ensures Due(matureAt, grow, to) >= 1
    ensures matureAt + (Due(matureAt, grow, to) - 1) * grow <= to < matureAt + Due(matureAt, grow, to) * grow
  {
    QuotientBound(to - matureAt, grow);
  }

  function TendPlot(c: Config, t: Tick, i: nat, from: int, to: int, online: bool): (r: Tick)
    requires i < |t.farm.plots|
    ensures |r.farm.plots| == |t.farm.plots|
  {
    var plot := t.farm.plots[i];
    if plot.crop == "" then if online then MaybeCritterVisit(c, t, i) else t
    else if plot.crop !in c.cropById then t
    else
      var crop := c.cropById[plot.crop];
      var grow := GrowSeconds(c, t.farm, crop);
      var matureAt := plot.plantedAt + grow;
      if plot.autoHarvest then Settle(c, t, i, crop, grow, matureAt, 0, 0, to).tick
      else if from < matureAt <= to then t.(report := t.report.(matured := Bump(t.report.matured, crop.id, 1)))
      else t
  }

  function TendPlots(c: Config, t: Tick, i: nat, from: int, to: int, online: bool): (r: Tick)
    requires i <= |t.farm.plots|
    ensures |r.farm.plots| == |t.farm.plots|
    decreases |t.farm.plots| - i
  {
    if i == |t.farm.plots| then t
    else TendPlots(c, TendPlot(c, t, i, from, to, online), i + 1, from, to, online)
  }

  // ---------- achievements ----------

  predicate Met(f: Farm, cond: Condition) {
    match cond
    case Harvests(v) => f.lifetimeHarvests >= v
    case Earnings(v) => f.lifetimeEarnings >= v
    case PlotCount(v) => |f.plots| >= v
    case Rebirths(v) => f.rebirths >= v
    case Balance(v) => f.coins >= v
  }

  predicate Earns(f: Farm, a: Achievement) { a.id !in f.achievements && Met(f, a.condition) }

  /** The farm after looking at the first `n` achievements. */
  function Award(c: Config, f: Farm, now: int, n: nat): (g: Farm)
    requires n <= |c.achievements|
    ensures g == f.(achievements := g.achievements)
  {
    if n == 0 then f
    else
      var g := Award(c, f, now, n - 1);
      if Earns(g, c.achievements[n - 1]) then g.(achievements := g.achievements[c.achievements[n - 1].id := now]) else g
  }

  /** The ids newly recorded by `Award`, in order. */
  function Awarded(c: Config, f: Farm, now: int, n: nat): seq<string>
    requires n <= |c.achievements|
  {
    if n == 0 then []
    else
      Awarded(c, f, now, n - 1)
      + if Earns(Award(c, f, now, n - 1), c.achievements[n - 1]) then [c.achievements[n - 1].id] else []
  }

  function CheckAchievements(c: Config, f: Farm, now: int): Farm {
    Award(c, f, now, |c.achievements|)
  }

  // ---------- the whole catch-up ----------

  predicate Online(elapsed: int) { elapsed <= ONLINE_TICK_THRESHOLD }

  /** Event expiry and the gift and event rolls, which precede the plots. */
  function Prelude(c: Config, f: Farm, to: int): (t: Tick)
    requires to > f.updatedAt
    ensures Untouched(Tick(f, QUIET.(elapsed := to - f.updatedAt)), t)
  {
    var elapsed := to - f.updatedAt;
    var t0 := ExpireEvent(Tick(f, QUIET.(elapsed := elapsed)), to);
    var t1 := if Online(elapsed) then RollOnlineEvent(c, t0, elapsed, to) else t0;
    RollGiftArrival(c, t1, elapsed, Online(elapsed), to)
  }

  function Advance(c: Config, f: Farm, to: int): Tick {
    if to <= f.updatedAt then Tick(f, QUIET)
    else
      var t := TendPlots(c, Prelude(c, f, to), 0, f.updatedAt, to, Online(to - f.updatedAt));
      var g := t.farm.(updatedAt := to);
      Tick(CheckAchievements(c, g, to), t.report.(achievements := Awarded(c, g, to, |c.achievements|)))
  }

  /** A catch-up ends at the later of its target and the save's instant; one that is not ahead does nothing. */
  lemma AdvanceClock(c: Config, f: Farm, to: int)
    ensures to <= f.updatedAt ==> Advance(c, f, to) == Tick(f, QUIET)
    ensures to > f.updatedAt ==> Advance(c, f, to).farm.updatedAt == to
  {
    hide Prelude, TendPlots, Award, Awarded;
  }
}
