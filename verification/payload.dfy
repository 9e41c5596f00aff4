// The stored payload, field by field with Go's omit-empty rule, and the migration of older versions.
module Payloads {
  import Int64
  import opened Farms

  // ---------- the wire ----------

  /** A JSON member: left out, null, or present. */
  datatype Field<T> = Absent | Null | Present(value: T)

  datatype PlotPayload = PlotPayload(crop: Field<string>, plantedAt: Field<int>, autoHarvest: Field<bool>,
                                     autoSow: Field<bool>, critter: Field<string>)

  /** Members without `omitempty` are plain values; the maps among them can still be null. */
  datatype Payload = Payload(
    version: int, rng: nat, updatedAt: int,
    coins: Int64.int64, plots: seq<PlotPayload>, purchasedPlots: int, tools: Field<map<string, bool>>,
    zones: Field<map<string, bool>>, runEarnings: Int64.int64,
    multipliers: Field<map<string, int>>, seedUpgrades: Field<map<string, int>>,
    giftPending: Field<bool>, giftArrivedAt: Field<int>, eventId: Field<string>, eventEndsAt: Field<int>,
    prestige: Int64.int64, upgrades: Field<map<string, int>>, achievements: Field<map<string, int>>,
    rebirths: int, lifetimeEarnings: Int64.int64, lifetimeHarvests: Int64.int64,
    flavorEnabled: bool, farmName: Field<string>, moonEpoch: Field<int>)

  /** `omitempty`: a zero value is left out. */
  function Omit<T(==)>(value: T, zero: T): Field<T> { if value == zero then Absent else Present(value) }

  /** Reading a member: left out or null leaves the zero value. */
  function Read<T>(field: Field<T>, zero: T): T { if field.Present? then field.value else zero }

  // ---------- the decoded save ----------

  datatype MapName = Tools | Zones | Upgrades | Achievements | Multipliers | SeedUpgrades

  /** A save as unmarshalled: `nils` names the maps that are nil. A nil map reads as an empty one. */
  datatype Raw = Raw(farm: Farm, nils: set<MapName>)

  ghost predicate NilsAreEmpty(r: Raw) {
    && (Tools in r.nils ==> r.farm.tools == map[]) && (Zones in r.nils ==> r.farm.zones == map[])
    && (Upgrades in r.nils ==> r.farm.upgrades == map[]) && (Achievements in r.nils ==> r.farm.achievements == map[])
    && (Multipliers in r.nils ==> r.farm.multipliers == map[])
    && (SeedUpgrades in r.nils ==> r.farm.seedUpgrades == map[])
  }

  function EncodePlot(p: Plot): PlotPayload {
    PlotPayload(Omit(p.crop, ""), Omit(p.plantedAt, 0), Omit(p.autoHarvest, false), Omit(p.autoSow, false),
        Omit(p.critter, ""))
  }

  function DecodePlot(p: PlotPayload): Plot {
    Plot(Read(p.crop, ""), Read(p.plantedAt, 0), Read(p.autoHarvest, false), Read(p.autoSow, false),
        Read(p.critter, ""))
  }

  /** A map without `omitempty`. */
  function WriteMap<V>(m: map<string, V>, isNil: bool): Field<map<string, V>> { if isNil then Null else Present(m) }

  function Encode(r: Raw): Payload {
    var f := r.farm;
    Payload(f.version, f.rng, f.updatedAt, f.coins,
        seq(|f.plots|, i requires 0 <= i < |f.plots| => EncodePlot(f.plots[i])),
            f.purchasedPlots, Omit(f.tools, map[]), WriteMap(f.zones, Zones in r.nils), f.runEarnings,
            Omit(f.multipliers, map[]), Omit(f.seedUpgrades, map[]),
            Omit(f.giftPending, false), Omit(f.giftArrivedAt, 0), Omit(f.eventId, ""), Omit(f.eventEndsAt, 0),
            f.prestige, WriteMap(f.upgrades, Upgrades in r.nils), WriteMap(f.achievements, Achievements in r.nils),
            f.rebirths, f.lifetimeEarnings, f.lifetimeHarvests, f.flavorEnabled, Omit(f.farmName, ""),
            Omit(f.moonEpoch, 0))
  }

  function Unmarshal(p: Payload): Raw {
    Raw(Farm(p.version, p.rng, p.updatedAt, p.coins,
        seq(|p.plots|, i requires 0 <= i < |p.plots| => DecodePlot(p.plots[i])),
             p.purchasedPlots, Read(p.tools, map[]), Read(p.zones, map[]), p.runEarnings,
             Read(p.multipliers, map[]), Read(p.seedUpgrades, map[]),
             Read(p.giftPending, false), Read(p.giftArrivedAt, 0), Read(p.eventId, ""), Read(p.eventEndsAt, 0),
             p.prestige, Read(p.upgrades, map[]), Read(p.achievements, map[]),
             p.rebirths, p.lifetimeEarnings, p.lifetimeHarvests, p.flavorEnabled, Read(p.farmName, ""),
             Read(p.moonEpoch, 0)),
        (if p.tools.Present? then {} else {Tools}) + (if p.zones.Present? then {} else {Zones})
        + (if p.upgrades.Present? then {} else {Upgrades}) + (if p.achievements.Present? then {} else {Achievements})
        + (if p.multipliers.Present? then {} else {Multipliers})
            + (if p.seedUpgrades.Present? then {} else {SeedUpgrades}))
  }

  // ---------- migration ----------

  function MigratedPlot(p: Plot, harvester: bool, sower: bool): Plot {
    p.(autoHarvest := p.autoHarvest || harvester, autoSow := p.autoSow || sower)
  }

  function MigratedPlots(ps: seq<Plot>, harvester: bool, sower: bool): (qs: seq<Plot>)
    ensures |qs| == |ps|
  {
    seq(|ps|, i requires 0 <= i < |ps| => MigratedPlot(ps[i], harvester, sower))
  }

  function ToVersion2(f: Farm): Farm {
    if f.version < 2 then f.(flavorEnabled := true, version := 2) else f
  }

  function ToVersion3(f: Farm): Farm {
    if f.version < 3 then
      f.(plots := MigratedPlots(f.plots, Owns(f.tools, "auto_harvester"), Owns(f.tools, "auto_sower")),
         moonEpoch := if f.moonEpoch == 0 && f.updatedAt > 0 then Int64.Quo(f.updatedAt, 86400) else f.moonEpoch,
         version := 3)
    else f
  }

  /** `upgradeState`: old versions migrated, every nil map made. */
  function Upgraded(r: Raw): Raw { Raw(ToVersion3(ToVersion2(r.farm)), {}) }

  /** `upgradeState` as written: the save is changed step by step, the plots one by one. */
  method UpgradeState(r: Raw) returns (s: Raw)
    ensures s == Upgraded(r)
  {
    var f := r.farm;
    if f.version < 2 {
      f := f.(flavorEnabled := true);
      f := f.(version := 2);
    }
    if f.version < 3 {
      var hadHarvester := Owns(f.tools, "auto_harvester");
      var hadSower := Owns(f.tools, "auto_sower");
      if hadHarvester || hadSower {
        var plots := f.plots;
        for i := 0 to |plots|
          invariant |plots| == |f.plots|
          invariant forall k :: 0 <= k < i ==> plots[k] == MigratedPlot(f.plots[k], hadHarvester, hadSower)
          invariant forall k :: i <= k < |plots| ==> plots[k] == f.plots[k]
        {
          if hadHarvester { plots := plots[i := plots[i].(autoHarvest := true)]; }
          if hadSower { plots := plots[i := plots[i].(autoSow := true)]; }
        }
        assert plots == MigratedPlots(f.plots, hadHarvester, hadSower);
        f := f.(plots := plots);
      } else {
        assert f.plots == MigratedPlots(f.plots, hadHarvester, hadSower);
      }
      if f.moonEpoch == 0 && f.updatedAt > 0 {
        f := f.(moonEpoch := Int64.Quo(f.updatedAt, 86400));
      }
      f := f.(version := 3);
    }
    s := Raw(f, {});
  }

  datatype Decoded = Loaded(save: Raw) | TooNew(version: int)

  function DecodeState(p: Payload): Decoded {
    if p.version > STATE_VERSION then TooNew(p.version) else Loaded(Upgraded(Unmarshal(p)))
  }

  // ---------- round trip ----------

  lemma PlotRoundTrip(p: Plot)
    ensures DecodePlot(EncodePlot(p)) == p
  {
  }

  /** Writing a save and reading it back loses only the distinction between an omitted empty map and a nil one. */
  lemma UnmarshalEncode(r: Raw)
    requires NilsAreEmpty(r)
    ensures Unmarshal(Encode(r)).farm == r.farm
  {
    var f, g := r.farm, Unmarshal(Encode(r)).farm;
    forall i | 0 <= i < |f.plots| ensures g.plots[i] == f.plots[i] {
      assert Encode(r).plots[i] == EncodePlot(f.plots[i]);
      assert g.plots[i] == DecodePlot(Encode(r).plots[i]);
      PlotRoundTrip(f.plots[i]);
    }
    assert f.plots == g.plots;
  }

  /** Decode after encode is the identity on saves whose maps are made, exactly at the current version. */
  lemma RoundTrip(f: Farm)
    ensures DecodeState(Encode(Raw(f, {}))) == Loaded(Raw(f, {})) <==> f.version == STATE_VERSION
  {
    hide Encode, Unmarshal, MigratedPlots;
    UnmarshalEncode(Raw(f, {}));
    EncodeVersion(Raw(f, {}));
  }

  lemma EncodeVersion(r: Raw)
    ensures Encode(r).version == r.farm.version
  {
  }

  // ---------- migration properties ----------

  lemma UpgradeIdempotent(r: Raw)
    ensures Upgraded(Upgraded(r)) == Upgraded(r)
  {
  }

  /** Whatever `DecodeState` accepts comes out at the current version with every map made, and a payload of any older
      version keeps every balance, counter, level, achievement, crop and planting time. */
  lemma DecodePreserves(p: Payload)
    requires p.version <= STATE_VERSION
    ensures DecodeState(p).Loaded?
    ensures var before, after := Unmarshal(p).farm, DecodeState(p).save.farm;
            && DecodeState(p).save.nils == {} && after.version == STATE_VERSION
            && after == before.(version := 3, flavorEnabled := after.flavorEnabled, plots := after.plots,
                moonEpoch := after.moonEpoch)
            && |after.plots| == |before.plots|
            && (forall i :: 0 <= i < |before.plots| ==>
                  && after.plots[i] == before.plots[i].(autoHarvest := after.plots[i].autoHarvest,
                      autoSow := after.plots[i].autoSow)
                  && (before.plots[i].autoHarvest ==> after.plots[i].autoHarvest)
                  && (before.plots[i].autoSow ==> after.plots[i].autoSow))
            && (p.version >= 2 ==> after.flavorEnabled == before.flavorEnabled)
            && (p.version >= 3 ==> after == before)
  {
  }

  /** What migration makes of a version 1 or 2 payload: every plot is automated that was, or whose save owned the tool;
      flavor is on if the payload predates the setting; and a missing moon epoch is the day of the last instant. */
  lemma MigrationIs(p: Payload)
    requires p.version < 3
    ensures DecodeState(p).Loaded? && |DecodeState(p).save.farm.plots| == |Unmarshal(p).farm.plots|
    ensures var before, after := Unmarshal(p).farm, DecodeState(p).save.farm;
            && (forall i | 0 <= i < |before.plots| ::
                  && (after.plots[i].autoHarvest
                      <==> before.plots[i].autoHarvest || Owns(before.tools, "auto_harvester"))
                  && (after.plots[i].autoSow <==> before.plots[i].autoSow || Owns(before.tools, "auto_sower"))
                  && after.plots[i].crop == before.plots[i].crop
                  && after.plots[i].plantedAt == before.plots[i].plantedAt
                  && after.plots[i].critter == before.plots[i].critter)
            && (after.flavorEnabled <==> p.version < 2 || before.flavorEnabled)
            && (if before.moonEpoch == 0 && before.updatedAt > 0 then
                  86400 * after.moonEpoch <= before.updatedAt < 86400 * (after.moonEpoch + 1)
                else after.moonEpoch == before.moonEpoch)
  {
    UnmarshalVersion(p);
    hide Unmarshal;
    MigrationOf(Unmarshal(p).farm);
  }

  lemma MigrationOf(before: Farm)
    requires before.version < 3
    ensures var after := ToVersion3(ToVersion2(before));
            && |after.plots| == |before.plots|
            && (forall i | 0 <= i < |before.plots| ::
                  && (after.plots[i].autoHarvest
                      <==> before.plots[i].autoHarvest || Owns(before.tools, "auto_harvester"))
                  && (after.plots[i].autoSow <==> before.plots[i].autoSow || Owns(before.tools, "auto_sower"))
                  && after.plots[i].crop == before.plots[i].crop
                  && after.plots[i].plantedAt == before.plots[i].plantedAt
                  && after.plots[i].critter == before.plots[i].critter)
            && (after.flavorEnabled <==> before.version < 2 || before.flavorEnabled)
            && (if before.moonEpoch == 0 && before.updatedAt > 0 then
                  86400 * after.moonEpoch <= before.updatedAt < 86400 * (after.moonEpoch + 1)
                else after.moonEpoch == before.moonEpoch)
  {
    hide Owns;
    UpgradedPlots(before);
    EpochDay(before);
  }

  lemma EpochDay(f: Farm)
    requires f.version < 3
    ensures ToVersion3(ToVersion2(f)).moonEpoch
            == if f.moonEpoch == 0 && f.updatedAt > 0 then Int64.Quo(f.updatedAt, 86400) else f.moonEpoch
    ensures f.updatedAt > 0 ==>
              86400 * Int64.Quo(f.updatedAt, 86400) <= f.updatedAt < 86400 * (Int64.Quo(f.updatedAt, 86400) + 1)
    ensures ToVersion3(ToVersion2(f)).flavorEnabled == (f.version < 2 || f.flavorEnabled)
  {
    hide ToVersion2, ToVersion3, Int64.Quo;
    SecondEpoch(f);
    ThirdEpoch(ToVersion2(f));
    if f.updatedAt > 0 { Int64.QuotientFloor(f.updatedAt, 86400); }
  }

  lemma SecondEpoch(f: Farm)
    ensures var g := ToVersion2(f);
            g.moonEpoch == f.moonEpoch && g.updatedAt == f.updatedAt && (f.version < 3 ==> g.version < 3)
    ensures ToVersion2(f).flavorEnabled == (f.version < 2 || f.flavorEnabled)
  {
  }

  lemma ThirdEpoch(f: Farm)
    requires f.version < 3
    ensures ToVersion3(f).moonEpoch
            == if f.moonEpoch == 0 && f.updatedAt > 0 then Int64.Quo(f.updatedAt, 86400) else f.moonEpoch
    ensures ToVersion3(f).flavorEnabled == f.flavorEnabled
  {
    hide MigratedPlots, Owns, Int64.Quo;
  }

  ghost predicate SowRule(ps: seq<Plot>) { forall i :: 0 <= i < |ps| ==> (ps[i].autoSow ==> ps[i].autoHarvest) }

  /** What the rule comes to on an old plot, given which automations the save owned. */
  predicate KeepsSowRule(p: Plot, harvester: bool, sower: bool) {
    p.autoSow || sower ==> p.autoHarvest || harvester
  }

  lemma MigratedPlotsSowRule(ps: seq<Plot>, harvester: bool, sower: bool)
    ensures SowRule(MigratedPlots(ps, harvester, sower))
            <==> forall i :: 0 <= i < |ps| ==> KeepsSowRule(ps[i], harvester, sower)
  {
    var qs := MigratedPlots(ps, harvester, sower);
    forall i | 0 <= i < |ps| ensures (qs[i].autoSow ==> qs[i].autoHarvest) <==> KeepsSowRule(ps[i], harvester, sower) {
      assert qs[i] == MigratedPlot(ps[i], harvester, sower);
    }
  }

  /** "Sown implies harvested" holds of a migrated save exactly when each old plot that was sown, by its flag or by the
      sower the save owned, was harvested too, by its flag or by the harvester. */
  lemma MigratedSowRule(p: Payload)
    requires p.version < 3
    ensures DecodeState(p).Loaded?
    ensures var f := Unmarshal(p).farm;
            SowRule(DecodeState(p).save.farm.plots)
            <==> forall i :: 0 <= i < |f.plots| ==>
                   KeepsSowRule(f.plots[i], Owns(f.tools, "auto_harvester"), Owns(f.tools, "auto_sower"))
  {
    UnmarshalVersion(p);
    hide Unmarshal;
    var f := Unmarshal(p).farm;
    UpgradedSowRule(f);
  }

  /** Of an old save whose plots carry no flags yet: exactly when it has no plots, or did not own the sower alone. */
  lemma FlaglessSowRule(p: Payload)
    requires p.version < 3
    requires forall i :: 0 <= i < |Unmarshal(p).farm.plots| ==>
               !Unmarshal(p).farm.plots[i].autoHarvest && !Unmarshal(p).farm.plots[i].autoSow
    ensures var f := Unmarshal(p).farm;
            DecodeState(p).Loaded?
            && (SowRule(DecodeState(p).save.farm.plots)
                <==> |f.plots| == 0 || Owns(f.tools, "auto_harvester") || !Owns(f.tools, "auto_sower"))
  {
    hide Unmarshal, SowRule, Owns, DecodeState;
    MigratedSowRule(p);
    var f := Unmarshal(p).farm;
    if |f.plots| > 0 { assert !f.plots[0].autoHarvest && !f.plots[0].autoSow; }
  }

  lemma UnmarshalVersion(p: Payload)
    ensures Unmarshal(p).farm.version == p.version
  {
  }

  lemma UpgradedSowRule(f: Farm)
    requires f.version < 3
    ensures SowRule(ToVersion3(ToVersion2(f)).plots)
            <==> forall i :: 0 <= i < |f.plots| ==>
                   KeepsSowRule(f.plots[i], Owns(f.tools, "auto_harvester"), Owns(f.tools, "auto_sower"))
  {
    hide MigratedPlots, SowRule, ToVersion2, ToVersion3, KeepsSowRule;
    UpgradedPlots(f);
    MigratedPlotsSowRule(f.plots, Owns(f.tools, "auto_harvester"), Owns(f.tools, "auto_sower"));
  }

  lemma UpgradedPlots(f: Farm)
    requires f.version < 3
    ensures ToVersion3(ToVersion2(f)).plots
            == MigratedPlots(f.plots, Owns(f.tools, "auto_harvester"), Owns(f.tools, "auto_sower"))
  {
    hide MigratedPlots, ToVersion2, ToVersion3, Owns;
    var g := ToVersion2(f);
    FlavorOnly(f);
    ThirdPlots(g);
  }

  lemma FlavorOnly(f: Farm)
    ensures var g := ToVersion2(f); g.plots == f.plots && g.tools == f.tools && (f.version < 3 ==> g.version < 3)
  {
  }

  lemma ThirdPlots(f: Farm)
    requires f.version < 3
    ensures ToVersion3(f).plots == MigratedPlots(f.plots, Owns(f.tools, "auto_harvester"), Owns(f.tools, "auto_sower"))
  {
    hide MigratedPlots, Owns;
  }

  /** An old save with one empty plot and the given tools. */
  function OldSave(tools: map<string, bool>): Payload {
    Payload(2, 0, 0, 0, [PlotPayload(Absent, Absent, Absent, Absent, Absent)], 0, Present(tools), Null, 0, Absent,
        Absent,
            Absent, Absent, Absent, Absent, 0, Null, Null, 0, 0, 0, true, Absent, Absent)
  }

  /** The save that breaks the rule: it owned the sower and nothing else. */
  lemma SowerAloneBreaksRule()
    ensures DecodeState(OldSave(map["auto_sower" := true])).Loaded?
    ensures var p := DecodeState(OldSave(map["auto_sower" := true])).save.farm.plots[0]; p.autoSow && !p.autoHarvest
  {
  }
}
