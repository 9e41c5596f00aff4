// The save itself, as a value: what `State.Clone` hands out and `Encode` writes.
module Farms {
  import opened Int64
  import opened Content

  const STATE_VERSION := 3

  datatype Plot = Plot(crop: string, plantedAt: int, autoHarvest: bool, autoSow: bool, critter: string)

  const EMPTY_PLOT := Plot("", 0, false, false, "")

  datatype Farm = Farm(
    version: int, rng: nat, updatedAt: int,
    coins: int64, plots: seq<Plot>, purchasedPlots: int, tools: map<string, bool>, zones: map<string, bool>,
    runEarnings: int64, multipliers: map<string, int>, seedUpgrades: map<string, int>,
    giftPending: bool, giftArrivedAt: int, eventId: string, eventEndsAt: int,
    prestige: int64, upgrades: map<string, int>, achievements: map<string, int>,
    rebirths: int, lifetimeEarnings: int64, lifetimeHarvests: int64,
    flavorEnabled: bool, farmName: string, moonEpoch: int)

  /** Reading a Go map yields the zero value for a missing key. */
  function Level(levels: map<string, int>, id: string): int {
    if id in levels then levels[id] else 0
  }

  function Owns(owned: map<string, bool>, id: string): bool {
    id in owned && owned[id]
  }

  function EmptyPlots(n: nat): (ps: seq<Plot>)
    ensures |ps| == n && forall p <- ps :: p == EMPTY_PLOT
  {
    seq(n, _ => EMPTY_PLOT)
  }

  function New(c: Config, seed: nat, now: int): Farm
  {
    Farm(STATE_VERSION, seed, now, c.start.coins, EmptyPlots(c.start.plots), 0, map[], map[], 0, map[], map[],
         false, 0, "", 0, 0, map[], map[], 0, 0, 0, true, "", Quo(now, 86400))
  }

  // ---------- the random stream (splitmix64 counter, abstract output) ----------

  const GAMMA := 0x9E37_79B9_7F4A_7C15

  function NextRng(rng: nat): nat { (rng + GAMMA) % TWO64 }

  /** The value drawn together with the step to `NextRng(rng)`. */
  function Draw(c: Config, rng: nat): (z: nat)
    ensures z < TWO64
  {
    c.mix(NextRng(rng)) % TWO64
  }

  function Roll(c: Config, rng: nat, sides: nat): (r: int)
    requires sides > 0
    ensures 0 <= r < sides
  {
    Draw(c, rng) % sides
  }

  /** `rollRange`: no draw at all when the range is a single value. */
  function RangeRng(rng: nat, lo: int, hi: int): nat { if hi <= lo then rng else NextRng(rng) }

  function RollRange(c: Config, rng: nat, lo: int, hi: int): (r: int)
    ensures if hi <= lo then r == lo else lo <= r <= hi
  {
    if hi <= lo then lo else lo + Draw(c, rng) % (hi - lo + 1)
  }

  /** What the source computes for a range with int64 ends, by way of a wrapped width read as uint64 and a wrapped draw,
      is the plain draw, unless the range is all of int64: then the width is zero and the source divides by it. */
  lemma RangeIsExact(lo: int64, hi: int64, draw: nat)
    requires lo < hi
    ensures Wrap(hi - lo + 1) % TWO64 == 0 <==> lo == MIN && hi == MAX
    ensures Wrap(hi - lo + 1) % TWO64 != 0 ==>
              Wrap(hi - lo + 1) % TWO64 == hi - lo + 1
              && Wrap(lo + Wrap(draw % (hi - lo + 1))) == lo + draw % (hi - lo + 1)
  {
    hide Wrap;
    var width: int := hi - lo + 1;
    WidthRead(width);
    DrawAdds(lo, hi, draw % width);
  }

  lemma WidthRead(width: int)
    requires 1 <= width <= TWO64
    ensures Wrap(width) % TWO64 == if width == TWO64 then 0 else width
  {
    if width > MAX { assert Wrap(width) == width - TWO64; }
  }

  lemma DrawAdds(lo: int64, hi: int64, r: int)
    requires 0 <= r <= hi - lo
    ensures Wrap(lo + Wrap(r)) == lo + r
  {
    if r > MAX { assert Wrap(r) == r - TWO64; }
  }

  // ---------- money in ----------

  function Credit(f: Farm, amount: int64): (g: Farm)
    ensures g == f.(coins := g.coins, runEarnings := g.runEarnings, lifetimeEarnings := g.lifetimeEarnings)
  {
    if amount <= 0 then f
    else f.(coins := SatAdd(f.coins, amount), runEarnings := SatAdd(f.runEarnings, amount),
            lifetimeEarnings := SatAdd(f.lifetimeEarnings, amount))
  }
}
