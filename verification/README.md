# A verified model of the idle-farm engine, its save actors and its text wrapper

The project models three parts of ssh-idlefarmer in Dafny and proves what they are for.

**The farm engine** (`internal/sim`). A save is a value, `Farm` (farm.dfy); every action of `actions.go` and the
catch-up of `advance.go` is a function of it (derive.dfy, actions.dfy, advance.dfy), and `class State` (state.dfy) is
the same engine as the source has it: one object whose methods update its fields in place, each proved equal to the
function. The theorems are about the functions, so they hold of the methods: the reachable-state invariant
(invariant.dfy), the coin and Starseed ledgers over whole histories (ledger.dfy, history.dfy), the balance of the
catch-up report (report.dfy), the refinement of the uncapped harvest loop by the batched one (catchup.dfy), cutting a
stretch of time anywhere (timecut.dfy), the absence of soft locks (softlock.dfy), achievements (achieve.dfy), the sums
of owned effects and the sale's divisor (bonuses.dfy), the events (events.dfy), the times (times.dfy), the price
curves and the integer square root (pricing.dfy), and the stored payload with its migrations (payload.dfy). What the
functions compute is also said without their formulas: prices, growth, payouts and batches from the content and the
rolls (values.dfy), what comes by itself (chances.dfy), and what every action asks for and leaves (effects.dfy).

**The save actors** (`internal/game`). registry.dfy is a state machine over the manager lock, every actor's loop and
channels, every session's `kicked` channel, the store and the shutdown flush; one step is one critical section or one
closure run by a loop, and steps of different goroutines interleave freely. Any write may fail, any load may fail, any
session may act at any moment after it was handed out, and `Detach` may be called any number of times. writers.dfy
proves the structural invariant, saves.dfy that no acknowledged progress is lost, shutdown.dfy that a held lock can
always be released, that the flush can always finish and what it leaves, server.dfy that the engine's invariant holds
of every save in memory and in the store. intent.dfy and actor.dfy hold the link between the two halves: the `dirty`
flag is sound because a refused action changes nothing and a catch-up over no time changes nothing. runtime.dfy is the
goroutine's code as objects updated in place (`Loop`, `Handle`, `Store`); manager.dfy is the manager's methods, each
run with nobody in between, calls.dfy shows that such calls are runs of the state machine, and opening.dfy says which
save an attach opens.

**The word wrapper** `wrapIndent` (`internal/tui/format.go`): wrap.dfy, with white space and trimming in text.dfy.

int64.dfy has the source's integers: money, prices and effect sums are a 64-bit subset type, products and sums that
the source does not guard go through `Wrap`, and division truncates. Instants and maturities are whole numbers, and
times.dfy proves that none of them leaves int64 up to a horizon of some 29 million years; the end of an event, which
content can push past int64, wraps (events.dfy). content.dfy has two tests of content: `Valid` is the part of content
validation the proofs rely on, and `Config` is the type of content that satisfies it; `Accepted` is all of validation
but for names and texts, and every content given below as a failing input passes it. The random stream is the counter
the source steps, with the mixing function a parameter of the content, so every theorem holds whatever the rolls come
out as.

Properties one would like that are false of the code are stated as the exact condition under which they hold, each
with an input at which they fail:

- the batched catch-up is the plain loop exactly when the cap is harmless, that is when the plot matures no more often
  than the cap allows or a seed can still be paid for when the cap is reached (`CatchUp.BatchRefinesLoop`,
  `CatchUp.CapShows`). A wallet that holds one seed at the start is enough;
- the automation, upgrade, multiplier and strain prices never fall exactly when their base cost is at most
  MaxInt64/100 (`Pricing.CurveRisesIff`, `Pricing.DearFirstLevel`). Validation does not bound base costs; above the
  bound the saturation branch lowers the price after the first step;
- the plot price never falls exactly when its base cost is at most MaxInt64/100 or its discounted first price, whose
  product is not guarded and may wrap, is at most that of the saturated cost (`Pricing.PlotCurveRisesIff`,
  `Pricing.DiscountedPlotFalls`). Without a discount it never falls, because the wrapped first price is small: a base
  cost of MaxInt64 makes the first plot cost one coin (`Pricing.WrappedPlotIsCheap`);
- the catch-up report agrees with the wallet exactly when no automatic harvest meets a product that wraps below zero
  (`Reporting.ReportBalancesIff`, `Reporting.PayoutNegativeIff`); the golden multiplication is unguarded and can
  (`Reporting.GoldenCatchUp`);
- "sown implies harvested" survives migration exactly when every old plot sown by flag or by tool was harvested by
  flag or by tool (`Payloads.MigratedSowRule`, `Payloads.SowerAloneBreaksRule`);
- no sale divides by zero exactly while what is owned, the event, the moon and 100 are no multiple of 2^64. Validation
  bounds neither the full-moon bonus from below nor effect values from above (`Bonuses.DivisorZeroIff`,
  `Bonuses.FullMoonDividesByZero`, `Bonuses.OwnedBonusDividesByZero`); `Bonuses.Sellable` is a test of the content
  alone;
- bonuses never lengthen growth, and the next plot never gets cheaper by a wrapped discount, on content whose effect
  sums fit int64; validation's own product can wrap past its check (`SoftLock.GrowsInTimeIff`,
  `SoftLock.OwnedBonusLengthensGrowth`, `Pricing.PlotPriceRisesIff`, `Pricing.OwnedDiscountWraps`);
- the event that drives prices is one that has not ended exactly as long as no tick starts one whose duration is not
  positive or whose end wraps (`EventTimes.AdvanceEventIff`, `EventTimes.DeadEvent`);
- a save's clock goes back in exactly one case, an earned rebirth asked for while the system clock is behind the
  save's (`Intents.ClockGoesBackIff`, `Intents.ClockGoesBack`).

Where a comment and the code differ the model follows the code: the comment at `internal/game/session.go:10-11` says
that a kicked player's intents fail, but after a takeover they still run on the actor, which has not stopped; and the
comment at `internal/game/manager.go:192-194` says that no progress is lost in a shutdown, which holds when the final
writes succeed.

`dafny verify dfyconfig.toml` checks the whole project.

## Model

| member | source | states |
|---|---|---|
| Int64.SatAddClips | internal/sim/state.go:178-183 | saturating addition of a non-negative amount is exact up to MaxInt64 and stays there beyond it |
| Invariant.CreditClips | internal/sim/state.go:197-204 | each counter grows by exactly the amount or stops at MaxInt64, and never falls |
| Farms.RollRange | internal/sim/state.go:224-229 | a range draw lies within its bounds, and an empty range gives the lower bound |
| Farms.RangeIsExact | internal/sim/state.go:224-229 | the source's wrapped width and wrapped sum give the plain draw, unless the range is all of int64: then, and only then, the width is zero |
| Values.DrawReaches | internal/sim/state.go:224-229 | a draw between bounds can come out as each value between them |
| Engine.State.constructor | internal/sim/state.go:69-86 | the object starts as the new save of the model |
| Values.NewGameIs | internal/sim/state.go:69-86 | a new game has the start coins and plots, all empty, owns and has earned nothing, and is dated and its moon counted from its instant |
| Engine.State.Credit | internal/sim/state.go:197-204 | the in-place credit is the model's |
| Engine.State.RollRange | internal/sim/state.go:224-229 | the in-place draw returns the model's value and leaves the model's stream |
| Engine.State.SeedCost | internal/sim/derive.go:61-74 | the seed price with the active event's discount |
| Values.SeedCostIs | internal/sim/derive.go:61-74 | a seed costs its price less the running event's discount, at most 99%, rounded down; another event leaves it |
| Values.EventBonusIs | internal/sim/derive.go:84-142 | the running event, looked up among the content's, adds its value to its own effect and to no other |
| Engine.State.GrowSeconds | internal/sim/derive.go:84-107 | growth time after upgrades, multipliers and event, with their sums and the product as int64 has them, never below one second |
| Values.GrowthIs | internal/sim/derive.go:84-107 | in a sound save on content whose bonuses fit, growth is the crop's time shortened by all owned bonuses and the event together, by 99% at most, rounded down, and one second at least |
| Values.HarvestWaits | internal/sim/actions.go:76-82 | a planted crop is refused as not mature exactly before its planting instant plus that time |
| Engine.State.SellMultiplied | internal/sim/derive.go:110-135 | the sale price with all bonuses, summed as int64 has them, saturating; where the divisor is not zero |
| Values.SaleIs | internal/sim/derive.go:110-135 | on sellable content a sale is the base boosted by everything owned, the event and the full moon together, rounded down, or MaxInt64 if that is more |
| Values.MoonPhaseIs | internal/sim/derive.go:160-170 | the phase is the days since the epoch modulo 28, and 0 without an epoch |
| Values.FullMoonIff | internal/sim/derive.go:150-157 | the bonus crop is under a full moon exactly when the phase is half the content's cycle, rounded down |
| Values.SalvageIs | internal/sim/derive.go:77-81 | a failed risky harvest salvages an eighth, a quarter, a half or three quarters by strain level, rounded down |
| Engine.State.CheapestUnlockedCrop | internal/sim/derive.go:25-37 | the search loop finds the model's cheapest unlocked crop |
| Engine.State.MercyPlantEligible | internal/sim/derive.go:40-58 | mercy planting: broke, all plots empty, and the crop is the cheapest unlocked one |
| Effects.MercyIff | internal/sim/derive.go:25-58 | mercy is for a player whose plots are all empty and whose wallet is short of the price, planting the first crop of least seed price among the unlocked ones |
| Engine.State.NextPlotCost | internal/sim/derive.go:209-235 | the plot price loop with saturation and discount computes the curve |
| Values.CurveIs | internal/sim/derive.go:209-306 | a price starts at its base and grows by its percentage, rounded down, until a step would overflow |
| Values.DiscountedIs | internal/sim/derive.go:224-234 | a discounted price is the price less the discount, at most 99%, rounded down, and one coin at least |
| Values.PlotPriceIs | internal/sim/derive.go:209-235 | the next plot costs the land's curve after the plots bought so far, less the owned discount, at most 99%, rounded down, and one coin at least |
| Engine.State.PlotAutoHarvestCost | internal/sim/derive.go:238-257 | the automation price loop computes the curve over automated plots |
| Values.CountIs | internal/sim/derive.go:238-257 | the automation price counts the plots that have auto-harvest |
| Values.AutoHarvestPriceIs | internal/sim/derive.go:238-257 | auto-harvest costs its curve after as many steps as plots have it, and one coin at least |
| Engine.State.LevelCost | internal/sim/derive.go:261-306 | the price loop shared by upgrades, multipliers and strains computes the curve |
| Engine.State.PrestigeGain | internal/sim/derive.go:309-311 | the gain is exact whatever the floating-point root answered |
| Engine.State.Plant | internal/sim/actions.go:33-66 | planting takes the model's step, or reports the model's error and changes nothing |
| Effects.PlantIff | internal/sim/actions.go:33-57 | planting is carried out exactly on an empty plot with a known, unlocked crop when the wallet holds the price, or when every plot is empty and the crop is the first cheapest; it takes the price exactly if the wallet holds it, and changes nothing else but that plot |
| Engine.State.HarvestPayout | internal/sim/advance.go:300-325 | the rolls of one harvest come in the source's order and give the model's yield |
| Values.YieldIs | internal/sim/advance.go:300-325 | a harvest fails and turns golden exactly on its rolls, pays the price of the salvage or of the sale, the golden one times the multiplier over ten, rounded down, and discovers coins only within the bounds |
| Values.DiscoveryIs | internal/sim/advance.go:300-325 | coins are discovered exactly when flavor is on and the roll after the crop's and the golden one is below the chance; the next draw says how many, and the stream moves on by the rolls that were needed |
| Engine.State.Harvest | internal/sim/actions.go:69-94 | harvesting takes the model's step and returns its yield, or refuses and changes nothing |
| Effects.HarvestLeaves | internal/sim/actions.go:69-94 | a harvest banks exactly its positive payout and discovery and one harvest, each up to MaxInt64, and leaves on its plot only the automation |
| Effects.FlavorSwitch | internal/sim/actions.go:332 | the switch changes nothing but itself, and while it is off no harvest discovers anything |
| Engine.State.BuyPlot | internal/sim/actions.go:97-109 | buying a plot takes the model's step and returns its price, or refuses and changes nothing |
| Effects.BuyPlotIff | internal/sim/actions.go:97-109 | a plot can be bought exactly below the limit with its price in the wallet; it comes empty after the others |
| Engine.State.BuyZone | internal/sim/actions.go:112-132 | buying a zone takes the model's step, or refuses and changes nothing |
| Effects.BuyZoneIff | internal/sim/actions.go:112-132 | a zone can be bought exactly if known, not owned, unlocked and affordable; it is owned then, and its plots come empty after the others |
| Engine.State.BuyMultiplier | internal/sim/actions.go:135-150 | buying a multiplier takes the model's step, or refuses and changes nothing |
| Effects.BuyMultiplierIff | internal/sim/actions.go:135-150 | a multiplier can be bought exactly if known, below its maximum and affordable; it, and no other, gains one level |
| Engine.State.BuySeedUpgrade | internal/sim/actions.go:153-172 | buying a strain takes the model's step, or refuses and changes nothing |
| Effects.BuySeedUpgradeIff | internal/sim/actions.go:153-172 | a strain can be bought exactly if its crop is open, it is below its maximum and affordable; its crop, and no other, gains one level |
| Engine.State.UpgradePlotAuto | internal/sim/actions.go:175-211 | automating a plot takes the model's step, or refuses and changes nothing |
| Effects.AutoHarvestIff | internal/sim/actions.go:175-192 | auto-harvest can be bought exactly for a plot without it, for its price; the plot gains just that flag |
| Effects.AutoSowIff | internal/sim/actions.go:193-211 | auto-sow can be bought exactly for a plot with auto-harvest and without auto-sow, from its earnings on, for its price; the plot gains just that flag |
| Engine.State.BuyUpgrade | internal/sim/actions.go:214-229 | buying a permanent upgrade takes the model's step, or refuses and changes nothing |
| Effects.BuyUpgradeIff | internal/sim/actions.go:214-229 | an upgrade can be bought exactly if known, below its maximum and affordable in Starseeds; it, and no other, gains one level |
| Engine.State.RedeemGift | internal/sim/actions.go:238-258 | opening the parcel takes the model's step with its rolls and reward, or refuses and changes nothing |
| Chances.GiftBaseIs | internal/sim/actions.go:260-268 | the reward is the root of a tenth of the run's earnings, 10, and 50 for every rebirth, within its bounds |
| Chances.GiftCoinsAre | internal/sim/actions.go:269-278 | a parcel's coins are the reward moved by a draw of up to a fifth of it either way, within its bounds |
| Chances.RedeemSeeds | internal/sim/actions.go:246-253 | a parcel holds Starseeds only after a rebirth, on its roll: what a rebirth would gain, one more, and one for every rebirth |
| Chances.RedeemCoins | internal/sim/actions.go:238-258 | any other parcel is taken off the gate and credits its coins, at the cost of a roll only if a fifth of the reward is a coin; without one the action is refused |
| Engine.State.ShooCritter | internal/sim/actions.go:281-293 | shooing takes the model's step and returns its reward, or refuses and changes nothing |
| Effects.ShooIff | internal/sim/actions.go:281-293 | shooing is carried out exactly where a critter sits, takes it away, and pays a reward between the bounds |
| Engine.State.SetFarmName | internal/sim/actions.go:296-306 | naming takes the model's step, or refuses and changes nothing |
| Actions.NameRules | internal/sim/actions.go:296-306 | a name is refused as empty exactly when it is blank, and as too long exactly when more than 24 characters are left between its outer blanks; a kept one is that text, and nothing else changes |
| Text.TrimCutsBlanks | internal/sim/actions.go:297 | trimming cuts blanks off both ends and nothing else, and leaves nothing exactly of a blank text |
| Engine.State.Rebirth | internal/sim/actions.go:309-329 | rebirth takes the model's step and returns its gain, or refuses and changes nothing |
| Values.OpeningCoinsAre | internal/sim/derive.go:197-205 | a run opens with the start coins and what the owned start-coin upgrades add, up to MaxInt64 |
| Engine.State.RollOnlineEvent | internal/sim/advance.go:232-282 | the event roll, with its repaired intervals, is the model's |
| Chances.EventIntervalsAre | internal/sim/advance.go:239-253 | the bounds of the wait are the settings shortened by the owned bonus, rounded down, one second at least and in order |
| Chances.EventStartsIff | internal/sim/advance.go:254-268 | an event starts exactly when the roll is 0 or beats the time passed over a wait drawn between the bounds |
| Chances.DurationIs | internal/sim/advance.go:270-281 | an event lasts as long as a draw between the shortest and the longest duration says, both stretched by the owned bonus and ten percent for every star gazer level |
| Chances.EventStarted | internal/sim/advance.go:268-281 | a tick that starts an event starts the one its next draw names, reports it, and lets it end after the duration drawn then |
| Chances.EventNotStarted | internal/sim/advance.go:232-268 | with no events to choose from, with one running, or with no luck, a tick changes no event |
| Chances.TickRolls | internal/sim/advance.go:55-68 | only a tick of at most two seconds rolls for an event, before the parcel; a longer absence has the offline parcel roll alone |
| Engine.State.RollGiftArrival | internal/sim/advance.go:204-230 | the gift roll is the model's |
| Chances.GiftArrivesIff | internal/sim/advance.go:204-230 | a parcel comes exactly when none waits and the roll beats the time passed over the interval, the offline one or the online one shortened by the owned bonus; it is dated and the stream moves only if there is a chance |
| Chances.GiftReported | internal/sim/advance.go:226-229 | the report tells of a parcel exactly when it came with this roll |
| Engine.State.MaybeCritterVisit | internal/sim/advance.go:284-297 | the critter roll is the model's |
| Chances.CritterComesIff | internal/sim/advance.go:284-297 | a critter comes exactly to a plot without one, if there are kinds, on its roll; it is one of the kinds |
| Chances.CritterSettles | internal/sim/advance.go:284-297 | the critter that comes sits on its plot and is listed in the report; no other plot changes |
| Engine.State.Batch | internal/sim/advance.go:95-114 | the closed-form batch moves wallet, counters, cursor and report as the model does |
| Values.ExpectedIsMean | internal/sim/advance.go:328-337 | the payout a batch reckons with for a risky crop is the price of the mean, rounded down, of what its hundred equally likely rolls are worth |
| Values.RolledPayout | internal/sim/advance.go:300-309 | each of those rolls pays the price of what it is worth |
| Values.ExpectedIsMeanPayout | internal/sim/advance.go:328-337 | without a bonus it is the mean, rounded down, of the hundred payouts |
| Values.BatchPays | internal/sim/advance.go:95-114 | a batch of n harvests brings n times the expected payout less n seeds, and counts n harvests, if there is room |
| Values.RiskyBatchPays | internal/sim/advance.go:95-114 | a batch of a risky crop without a bonus brings between n times the mean payout and n coins below it |
| Values.DueCounts | internal/sim/advance.go:99-100 | a batch counts exactly the maturities up to the target |
| Values.BatchesIff | internal/sim/advance.go:94-121 | past the cap the rest is batched exactly when the plot sows itself, the wallet holds a seed, and a harvest is expected to bring more than its seed; otherwise nothing changes |
| Values.ReplantsIff | internal/sim/advance.go:138-149 | a harvested plot is replanted at its maturity, for the price, exactly when it sows itself, the wallet then holds a seed, and the crop is unlocked; otherwise it is cleared |
| Engine.State.SettlePlot | internal/sim/advance.go:91-149 | the `matureAt`/`cycles` loop of one plot ends in the save and report of the model's recursion |
| Values.ReapNotes | internal/sim/advance.go:121-136 | one automatic harvest is noted for its crop, as failed or golden exactly on its rolls, and with its discovery |
| Values.BatchNotes | internal/sim/advance.go:108-110 | a batch is noted for its crop with all its harvests and nothing else |
| Values.MaturedIff | internal/sim/advance.go:85-90 | a plot without auto-harvest is left alone and reported exactly if its crop matured within the stretch |
| Engine.State.CheckAchievements | internal/sim/advance.go:340-365 | the loop leaves the records and the announcement of the model's recursion |
| Achieving.CheckRecordsAll | internal/sim/advance.go:340-365 | every achievement that is met is on record, one on record keeps its date, nothing else is added, exactly the new ids are announced, each once, and looking again at once changes nothing |
| Effects.AchievementMetAt | internal/sim/advance.go:346-357 | a condition is met from its value on |
| Effects.GateOpensAt | internal/sim/derive.go:334-347 | a gate is open from its value on, a zone gate to the zone's owner |
| Engine.State.Advance | internal/sim/advance.go:42-159 | the whole in-place catch-up is the model's, for any content, rolls and plots |
| EventTimes.EventAgreementIff | internal/sim/derive.go:137-147 | in every save that satisfies the invariant, the event that drives prices, whose end nobody checks, is one that has not ended if and only if the set event, if any, ends after the save's instant |
| EventTimes.StartedEventLivesIff | internal/sim/advance.go:264-281 | a started event ends after its instant if and only if its duration is positive and the end instant fits int64 |
| EventTimes.AdvanceEventIff | internal/sim/advance.go:57-70 | after any catch-up the set event has not ended unless this tick started one whose duration is not positive or whose end instant wraps |
| EventTimes.ReachableEventsAgree | internal/sim/advance.go:232-282 | on content whose longest event, at top levels, ends at an int64 instant, in every save reached by moves up to a horizon prices go by an event that has not ended |
| EventTimes.DeadEvent | internal/sim/advance.go:280 | content that passes validation where a new farm's first tick starts an event that is already over and drives prices |
| Invariant.ActKeeps | internal/sim/actions.go:33-332 | every action that succeeds keeps: planted crops known and unlocked, sown implies harvested, critters only on empty plots, the plot count accounted for, levels within maxima, balances non-negative, a set event known |
| Invariant.AdvanceKeeps | internal/sim/advance.go:42-159 | so does every catch-up, whatever the rolls and however long |
| Invariant.NewIsInv | internal/sim/state.go:69-86 | a new save satisfies the invariant |
| History.Reachable | internal/sim/actions.go:33-332 | every save reached from a new one by any sequence of actions and catch-ups satisfies the invariant |
| Ledger.ActFlows | internal/sim/actions.go:33-293 | within a run, an action moves the wallet by what it credited to the earnings less the price quoted before it |
| Ledger.AdvanceFlows | internal/sim/advance.go:42-153 | a catch-up moves the wallet by what it credited less the seeds it paid for |
| History.CoinLedger | internal/sim/state.go:197-204 | over every history, rebirths included, coins held and coins spent in this run are the run's opening coins and its earnings, and lifetime earnings are the sum over all runs, unless a counter reached MaxInt64 |
| History.StarseedLedger | internal/sim/actions.go:214-329 | over every history, Starseeds held and the price of every upgrade level owned are all rebirth gains and all gift Starseeds, unless the balance reached MaxInt64 |
| History.GainsAreEarned | internal/sim/derive.go:309-316 | the squares of all rebirth gains, times the divisor, never exceed lifetime earnings |
| History.GainFitsRun | internal/sim/derive.go:309-311 | one gain's square times the divisor never exceeds the run's earnings |
| History.RebirthIsNewGame | internal/sim/actions.go:309-329 | a rebirth is a new game on the same random stream with Starseeds, upgrades, achievements, counters, settings and a waiting parcel carried over |
| Reporting.PayoutNegativeIff | internal/sim/advance.go:300-325 | a harvest pays a negative amount if and only if the golden product, or the salvage and bonus products of a failed risky crop, wrap below zero |
| Reporting.ReportBalancesIff | internal/sim/advance.go:95-148 | for any content, rolls and mix of plots, if no counter reached MaxInt64, the wallet moves over a catch-up by exactly AutoCoins plus DiscoveryCoins if and only if no automatic harvest in it wraps below zero; otherwise the report claims more |
| Reporting.ReportBalances | internal/sim/advance.go:95-148 | it balances, whatever is rolled, if on the save before the catch-up the crops of the automatic plots fit under every event |
| Reporting.ReapReportedIff | internal/sim/advance.go:121-136 | one automatic harvest, discovery included, is reported as the wallet moved if and only if none of its products wraps below zero |
| Reporting.GoldenOverflow | internal/sim/advance.go:315 | content that passes validation whose golden harvest wraps: the payout is negative, the wallet does not move, and AutoCoins saturates |
| Reporting.GoldenCatchUp | internal/sim/advance.go:315 | a whole catch-up of that content, from a save that satisfies the invariant and with no counter near MaxInt64, that reports more than the wallet moved |
| Reporting.SettleLocal | internal/sim/advance.go:92-149 | settling one plot touches no other plot |
| CatchUp.CatchUpIsBounded | internal/sim/advance.go:92-149 | a plot's loop makes at most autoCycleCap replants and one batch, and leaves the plot empty, or not mature before the target, or at an unsettled maturity after exactly autoCycleCap cycles with replanting unprofitable or unaffordable |
| CatchUp.PlainLoopClosed | internal/sim/advance.go:92-149 | the uncapped loop on a steady crop harvests once per maturity and nets sale less seed each time |
| CatchUp.SettleClosed | internal/sim/advance.go:92-149 | the capped loop, from any cycle count, settles either every maturity or only those up to the cap |
| CatchUp.BatchRefinesLoop | internal/sim/advance.go:92-149 | the capped and batched loop yields the save and report of the uncapped loop if and only if the plot matures within the cap or a seed is affordable when the cap is reached |
| CatchUp.OneSeedIsEnough | internal/sim/advance.go:92-115 | with one seed's price in the wallet at the start, batching is never observable |
| CatchUp.CapShows | internal/sim/advance.go:94-120 | content that passes validation and a farm with an empty wallet where the capped loop stops after 50,000 of 60,000 harvests and the uncapped one does not |
| TimeCut.AdvanceClosed | internal/sim/advance.go:42-153 | with calm plots and no events, the whole catch-up over any number of plots sharing one wallet is the uncapped one, and its closed form: each automatic plot harvested once per maturity, each manual plot reported if it matured in the stretch |
| TimeCut.TimeCanBeCut | internal/sim/advance.go:42-153 | catching up to b and then to c leaves the coins, earnings, harvests and cursors of catching up to c at once, the coins reported add up, and each manual maturity is reported in exactly one piece |
| SoftLock.NeverSoftLocked | internal/sim/derive.go:24-58 | with a start-unlocked crop, on content whose growth bonuses fit int64 and whose sales never divide by zero, from every save that satisfies the invariant, whose harvest count is not saturated and whose plots ripen before int64 ends, at most two plant and harvest intents at int64 instants raise the harvest count |
| SoftLock.GrowsInTimeIff | internal/sim/derive.go:84-107 | a crop takes no longer than it says if and only if the int64 bonus is not negative or the lengthened product wraps below the crop's own time |
| SoftLock.GrowsInTime | internal/sim/derive.go:84-107 | on content whose growth bonuses fit int64, bonuses never lengthen growth |
| SoftLock.OwnedBonusLengthensGrowth | internal/sim/derive.go:84-107 | content that passes validation and a save owning two levels of one upgrade in which growth takes ten times as long |
| Times.GrowthFits | internal/sim/derive.go:102-106 | growth is never more than a hundredth of MaxInt64 |
| Times.HarvestTimeFits | internal/sim/actions.go:76-82 | a harvest compares instants that fit int64 |
| Times.CatchUpFits | internal/sim/advance.go:52-153 | on any content, for saves and targets up to a horizon, every elapsed time, maturity and batch instant of a catch-up fits int64, and the save it leaves is again dated up to the horizon |
| Times.ReachableTimesFit | internal/sim/advance.go:52-153 | every save reached by moves up to the horizon is dated up to it |
| Times.EndlessCropRipensAtOnce | internal/sim/derive.go:102 | content that passes validation with a crop of MaxInt64 seconds that ripens in one |
| Intents.CleanAdvance | internal/game/session.go:51-65 | a catch-up reports elapsed time exactly when the target lies ahead, and if it reports none it changed nothing |
| Intents.CleanIntent | internal/game/session.go:67-88 | an intent that leaves the dirty flag alone left the save alone |
| Effects.IntentIsHistory | internal/game/session.go:67-88 | an intent is a catch-up to its instant and, if the action is then allowed, the action and a look at the achievements |
| Effects.DirtiesIff | internal/game/session.go:67-88 | it marks the save dirty exactly when time passed or the action was allowed |
| Openings.IntentActs | internal/game/session.go:67-88 | an intent changes its own save alone, dirty afterwards exactly if it was, time passed, or the action was allowed; after the actor stopped it does nothing |
| Intents.IntentKeeps | internal/game/session.go:67-88 | an intent keeps the engine's invariant, allowed or refused |
| Intents.IntentKeepsVersion | internal/game/session.go:67-88 | no intent changes the payload version |
| Intents.ClockGoesBackIff | internal/sim/actions.go:309-329 | an intent moves a save's clock back if and only if it asks for a rebirth the run has earned at an instant before the save's |
| Intents.ClockGoesBack | internal/sim/actions.go:327 | a save last simulated at instant 10 and reborn at instant 5 |
| Pricing.CompoundLoop | internal/sim/derive.go:209-306 | the price loop with its overflow guard and early exit returns the recursive curve and is at least one; at every level a product that is taken fits int64 |
| Pricing.CurveRisesIff | internal/sim/derive.go:238-306 | the four undiscounted prices never fall with the level, across the saturation branch too, if and only if the base cost is at most MaxInt64/100 |
| Pricing.PlotCurveRisesIff | internal/sim/derive.go:209-235 | the plot price, whose discount product is not guarded, never falls if and only if the base cost is at most MaxInt64/100 or its wrapped discounted price is at most that of the pinned cost |
| Pricing.UndiscountedNeverFalls | internal/sim/derive.go:209-235 | without a discount the plot price never falls, whatever the base cost |
| Pricing.DiscountedPlotFalls | internal/sim/derive.go:230 | at half price a base cost of MaxInt64/50 falls after the first plot |
| Pricing.WrappedPlotIsCheap | internal/sim/derive.go:230 | content that passes validation with a base cost of MaxInt64, whose first plot costs one coin and every later one MaxInt64/100 |
| Pricing.PlotPriceRisesIff | internal/sim/derive.go:209-235 | while the int64 discount is not negative, a plot that can be bought costs at least one, and no less after more plots were bought if and only if the base cost is at most MaxInt64/100, or one was bought already, or the first price does not wrap above the pin |
| Pricing.DiscountFits | internal/sim/derive.go:224-229 | on content whose discounts fit int64 the discount is never negative |
| Pricing.SurchargedPlotRises | internal/sim/derive.go:209-235 | under a negative discount the plot price still rises while the dearer product fits int64 |
| Pricing.OwnedDiscountWraps | internal/sim/derive.go:224-230 | content that passes validation, with a base cost below MaxInt64/100, and two saves of which the one with more plots pays a single coin |
| Pricing.AutoHarvestPriceRisesIff | internal/sim/derive.go:238-257 | automation costs at least one, and no less once more plots are automated if and only if the base cost is at most MaxInt64/100 or some plot was automated already |
| Pricing.LevelPriceRisesIff | internal/sim/derive.go:261-306 | a level below the maximum costs at least one, and a later one no less than an earlier one if and only if the base cost is at most MaxInt64/100 or the earlier one is not the first |
| Pricing.DearFirstLevel | internal/sim/derive.go:261-306 | an item priced MaxInt64 whose second level is cheaper than its first |
| Bonuses.DivisorZeroIff | internal/sim/derive.go:110-131 | a sale divides by zero if and only if what is owned, the event, the moon and 100 add up to a multiple of 2^64 |
| Bonuses.BonusIsPlain | internal/sim/derive.go:84-127 | on content whose top levels and largest event fit int64, in every sound save the int64 sum of an effect is the sum it stands for, and not negative |
| Bonuses.FittingDivisorZeroIff | internal/sim/derive.go:110-131 | on such content a sale divides by zero if and only if the crop is under its full moon and what is owned equals -(100 + the moon's bonus) |
| Bonuses.SaleDivisorPositive | internal/sim/derive.go:110-131 | on such content with a full-moon bonus above -100 no sale of any sound save divides by zero |
| Bonuses.FullMoonDividesByZero | internal/sim/derive.go:131 | content that passes validation with a full-moon bonus of -100, where a new farm's first sale of the moon crop divides by zero |
| Bonuses.OwnedBonusDividesByZero | internal/sim/derive.go:111-131 | content that passes validation, with no moon bonus, and a save owning two levels of one upgrade in which every sale divides by zero |
| Pricing.IsqrtFrom | internal/sim/derive.go:319-331 | from any non-negative starting guess the two correction loops end without overflow at the exact root |
| Derive.IsqrtIsRoot | internal/sim/derive.go:319-331 | the model's root r has r*r at most n and n below (r+1)*(r+1) |
| Pricing.PrestigeIsRoot | internal/sim/derive.go:309-311 | g is the gain if and only if g*g*Divisor <= RunEarnings < (g+1)*(g+1)*Divisor |
| Pricing.RebirthThreshold | internal/sim/derive.go:314-316 | rebirth is open if and only if the run's earnings reach both the configured minimum and the divisor |
| Payloads.UpgradeState | internal/sim/state.go:109-151 | the step-by-step migration, plots one by one, is the model's |
| Payloads.RoundTrip | internal/sim/state.go:88-107 | decoding an encoded save whose maps are made gives it back if and only if it is at the current version |
| Payloads.UnmarshalEncode | internal/sim/state.go:88-107 | omit-empty loses nothing of a save but whether an empty map was nil |
| Payloads.UpgradeIdempotent | internal/sim/state.go:109-151 | migrating twice is migrating once |
| Payloads.DecodePreserves | internal/sim/state.go:96-151 | whatever decodes ends at version 3 with every map made and keeps every balance, counter, level, achievement, crop and planting time; version 2 keeps its flavor setting and version 3 everything |
| Payloads.MigrationIs | internal/sim/state.go:109-133 | of a version 1 or 2 payload each plot comes out automated, and sown, exactly if it was or its save owned the tool; flavor is on if the payload predates it, and a missing moon epoch is the day of the last instant |
| Payloads.MigratedSowRule | internal/sim/state.go:117-133 | after migration sown implies harvested if and only if every old plot that was sown, by its flag or the owned sower, was harvested, by its flag or the owned harvester |
| Payloads.FlaglessSowRule | internal/sim/state.go:117-133 | for an old save whose plots carry no flags: if and only if it had no plots, or owned the harvester, or did not own the sower |
| Payloads.SowerAloneBreaksRule | internal/sim/state.go:117-133 | a version 2 save that owns the sower alone decodes to a plot that is sown and not harvested |
| Actors.CaughtUpSynced | internal/game/session.go:51-65 | a catch-up on the loop keeps "not dirty means the row loads as this save" |
| Actors.ActedSynced | internal/game/session.go:67-88 | so does an intent, allowed or refused |
| Actors.PersistedSynced | internal/game/actor.go:83-103 | so does a write, accepted or not, and it touches no other row and creates none |
| Runtime.Store.PersistSave | internal/store/store.go:178-197 | a write fails unless the store accepts it and the row exists, and a failed write changes nothing |
| Runtime.Handle.DeliverKick | internal/game/session.go:32-42 | only the first kick sends and closes |
| Runtime.Loop.Persist | internal/game/actor.go:83-103 | the write of the loop is the model's on save, flag and store |
| Runtime.Loop.Advance | internal/game/session.go:51-65 | the catch-up closure is the model's on save and flag |
| Runtime.Loop.Apply | internal/game/session.go:91-202 | every session method carries out its action's step and returns what the action reports |
| Runtime.Loop.Intent | internal/game/session.go:67-88 | catch up, act, mark dirty and record achievements: the closure is the model's on save and flag, and returns its refusal, its report and the achievements it earned |
| Runtime.Loop.Attach | internal/game/manager.go:127-142 | the attach closure refuses under the refuse policy, and otherwise kicks the holder once, installs the newcomer, catches up and returns the catch-up's report |
| Runtime.Loop.Detach | internal/game/manager.go:166-172 | the detach closure lets the session go only if it is the holder's, and writes either way |
| Runtime.Loop.SignOff | internal/game/manager.go:211-216 | the shutdown closure kicks the holder and clears it |
| Runtime.Loop.Finish | internal/game/actor.go:74-76 | on stop: final write, then done, once |
| Writers.StepSane | internal/game/manager.go:101-227 | every step of attach, detach, intents, ticks, exits and shutdown keeps the structural invariant |
| Writers.AttachNeverFindsDead | internal/game/manager.go:143-148 | the "save is closing" branch of attach is unreachable |
| Writers.SingleWriter | internal/game/manager.go:86-190 | in every interleaving, whenever the lock is free, exactly the registered actors run, at most one for each save |
| Writers.NeverTwoWriters | internal/game/actor.go:24-35 | at no moment, lock held or not, do two loops run on one save |
| Writers.OneSessionEach | internal/game/manager.go:86-176 | before a shutdown, whenever the lock is free, every registered actor has exactly one session that was neither kicked nor detached |
| Writers.ChannelsCloseOnce | internal/game/session.go:32-48 | in every interleaving no stop, done or kicked channel is closed twice, and a kicked channel is sent at most the one notice its buffer holds |
| Writers.KickedAreTold | internal/game/session.go:32-42 | a session that lost its save without having detached was sent its notice |
| Saves.ReplayIsOwn | internal/game/session.go:67-88 | what was acknowledged for a save is decided by its own entries in their order, whatever happened to other saves in between |
| Saves.StepSafe | internal/game/manager.go:101-227 | every step, with any write failing, keeps every acknowledgement in the running save or in the row |
| Saves.NoProgressLost | internal/game/actor.go:83-103 | in every interleaving a running save is the replay of all that was acknowledged for it across all its sessions; if not dirty its row loads as exactly that; a save nobody runs has it in its row unless its final flush failed |
| Saves.NextAttachContinues | internal/game/manager.go:86-120 | the next attach of a save whose final flush did not fail starts from the last acknowledged state |
| Shutdowns.FlushedMeansSaved | internal/game/manager.go:195-227 | once the flush has finished the registry is empty, no loop runs, and every acknowledged intent is in its row unless that save's final write failed |
| Shutdowns.NothingAfterFlush | internal/game/manager.go:195-227 | after it no caller can open, change or write a save, and nothing more is acknowledged |
| Shutdowns.LockIsReady | internal/game/manager.go:86-190 | at every moment, shutdown or not, the lock holder or the loop it waits for is not blocked |
| Shutdowns.LockMoves | internal/game/manager.go:86-190 | and its turn brings the release strictly nearer |
| Shutdowns.LockCanBeReleased | internal/game/manager.go:86-190 | in every run a held lock can be released by at most four turns of its holder and of the loop it waits for |
| Shutdowns.LineIsReady | internal/game/manager.go:207-222 | during a flush the next in line, lock holder, stopping loop or flush, is never blocked |
| Shutdowns.LineMoves | internal/game/manager.go:207-222 | and its turn brings the flush strictly nearer its end |
| Shutdowns.FlushCanFinish | internal/game/manager.go:195-227 | from every moment of every shutdown the flush can be completed in a bounded number of turns, without dropping anything if the store accepts the writes |
| Servers.SavesStaySound | internal/game/actor.go:37-79 | if every stored save satisfies the engine's invariant at process start, every save in memory and every row does ever after |
| Managers.Begun | internal/game/manager.go:86-120 | attach goes on to mail its closure exactly for the registered actor of its key, and that actor is running |
| Managers.StopCallSane | internal/game/manager.go:180-190 | stopping an actor under the lock, already gone or not, keeps the structural invariant and frees the lock |
| Managers.Manager.FindActor | internal/game/manager.go:86-120 | refusing while closing, finding, loading, creating and failing are the model's step, with the outcome each reports |
| Managers.Manager.Attach | internal/game/manager.go:86-156 | an uncontended attach is the two steps in a row; it hands out a session exactly when one was added, and reports a creation exactly when there was no row |
| Openings.AttachCreates | internal/game/manager.go:101-142 | the first attach of a key opens a new game of this instant, clean, with a row that loads as it is, for a new session, and touches nothing else |
| Openings.AttachLoads | internal/game/manager.go:101-142 | an attach of a save that is not running opens what its row loads as, caught up to this instant, dirty exactly if time has passed |
| Openings.AttachTakesOver | internal/game/manager.go:99-142 | an attach of a running save tells and signs off its holder, hands it to the newcomer and catches it up; no row and nobody else changes |
| Openings.AttachRefused | internal/game/manager.go:127-133 | under the refuse policy a running save stays with its holder and nothing changes |
| Openings.AttachTooNew | internal/game/manager.go:109-112 | a row of a newer version opens nothing and stays as it is |
| Openings.AttachFails | internal/game/manager.go:90-108 | an attach during a shutdown, or one that the store fails, changes nothing |
| Openings.AutosaveWrites | internal/game/actor.go:71-103 | an accepted autosave leaves the save clean and its row loading as it is; a failed one changes nothing |
| Managers.Manager.StopActorLocked | internal/game/manager.go:180-190 | close stop unless already done, wait, forget the actor if still registered |
| Managers.Manager.Detach | internal/game/manager.go:160-176 | an uncontended detach is its steps in a row, ending with the session's last kick |
| Managers.Manager.Shutdown | internal/game/manager.go:195-222 | the loop over the actors registered at the start is the model's flush |
| Calls.AttachIsRun | internal/game/manager.go:86-156 | an uncontended attach is a run of the state machine |
| Calls.DetachIsRun | internal/game/manager.go:160-176 | so is a detach |
| Calls.DetachSaves | internal/game/manager.go:160-190 | after the holder's detach nobody runs the save, its key is free, and its row loads as it was if either of the two writes was accepted |
| Calls.ShutdownSaves | internal/game/manager.go:195-227 | after a whole shutdown nothing is registered or running and every save ever opened is in its row as acknowledged, for all of them if the store accepted every final write |
| Wrapping.FieldsEmpty | internal/tui/format.go:116-119 | a text has no word exactly when it is blank |
| Wrapping.FillIsLayout | internal/tui/format.go:126-145 | greedy filling keeps every word in order, on lines that fit or hold one word |
| Wrapping.FewestLines | internal/tui/format.go:126-145 | no other such layout of the words has fewer lines |
| Wrapping.WrapIndent | internal/tui/format.go:112-150 | the loop with its running width gives the greedy layout, set with the indent and joined by newlines; a blank text gives the indent alone |
| Wrapping.WrappedBest | internal/tui/format.go:112-150 | of the text as set: no line is wider than the width unless it holds one word, and the line count is least |
| Wrapping.WrapKeepsWords | internal/tui/format.go:112-150 | with a blank indent, splitting the wrapped text again gives exactly the words of the text |

## Left out

- Engine.State.SellMultiplied: where the divisor is zero the source panics and the model returns MaxInt64, so the
  theorems about harvests say nothing of a run that panics; Bonuses.DivisorZeroIff says when that is, and
  Bonuses.SaleDivisorPositive gives content on which it never is.
- Engine.State.Advance: instants, maturities and elapsed times are whole numbers; Times.CatchUpFits shows that int64
  has them all up to the horizon, and nothing is said of instants beyond it.
- Engine.State.RollRange: a range of all of int64, whose width is zero in the source, is drawn from like any other;
  Farms.RangeIsExact says that it is the only one.
- Engine.State.Batch: the batch's cycle count is added to the harvest counter capped at MaxInt64.
- Engine.State.PrestigeGain: the floating-point square root is an arbitrary non-negative starting guess.
- Values.ExpectedIsMean: of crops whose hundredfold sale fits int64; without golden harvests and discoveries, which a
  batch does not reckon with, for the payouts.
- Reporting.ReportBalances: only sufficient, because it is a condition on the save before any roll; ReportBalancesIff
  is exact.
- TimeCut.TimeCanBeCut: no rolls, no events and calm crops, because two catch-ups draw more random numbers than one.
- SoftLock.NeverSoftLocked: needs a start-unlocked crop, growth bonuses that fit and sales that do not divide by zero,
  none of which content validation demands.
- Writers.ChannelsCloseOnce: what the kick callback does is outside the model; it is only called once.
- Writers.SingleWriter: `Shutdown` is called at most once, as the server does.
- Managers.Manager.Attach: methods of the manager run with nobody in between; interleavings are those of registry.dfy,
  whose steps are on values because two goroutines cannot share one Dafny method body.
- Saves.NoProgressLost: rows are written by this process only; TouchAccount's own row is not modelled.
- Rows are never deleted while the process runs; the error path of a missing row is modelled in the write.
- `LoadOrCreateSave` either fails without a row or succeeds; a failure after the insert is not modelled.
- JSON text: encoding is at the level of fields, with Go's omit-empty rule; a nil plot list is an empty one.
- Report.seedCoins is the model's own tally of what replanting cost; the source keeps only the net.
- The quality of the random stream; the mixing function is a parameter and a range draw is the remainder of one draw.
- Away vignettes, headlines, moon names, progress percentages and the list of visible crops: text and display.
- SSH, terminal handling, views, configuration, logging, host keys, fingerprints, session caps, SQLite and TOML
  parsing.
- A kicked session may still act until it detaches; its intents are serialised like any other.
