// The goroutine's own code: the closures mailed to a save's loop, its write, and the session's kick, updating their
// objects in place. Each is proved against the step of the registry model it stands for.
module Runtime {
  import opened Int64
  import opened Content
  import opened Derive
  import opened Actions
  import opened Advancing
  import opened Payloads
  import opened Intents
  import opened Actors
  import opened Registry
  import Engine

  /** The store: one row per save, updated only where a row exists. */
  class Store {
    var rows: Rows

    /** `up` says whether the database accepts the statement. */
    method PersistSave(key: Key, payload: Payload, up: bool) returns (failed: bool)
      modifies `rows
      ensures failed <==> !(up && key in old(rows))
      ensures rows == if failed then old(rows) else old(rows)[key := payload]
    {
      if !up || key !in rows { return true; }
      rows := rows[key := payload];
      return false;
    }
  }

  /** A session's handle. */
  class Handle {
    const id: nat
    const actor: nat
    var fired: bool
    var sends: nat
    var closes: nat
    var detached: bool

    function Snapshot(): Session reads this { Session(actor, fired, sends, closes, detached) }

    constructor (id: nat, actor: nat)
      ensures this.id == id && this.actor == actor && Snapshot() == Session(actor, false, 0, 0, false)
    {
      this.id, this.actor := id, actor;
      fired, sends, closes, detached := false, 0, 0, false;
    }

    method DeliverKick(reason: string)
      modifies `fired, `sends, `closes
      ensures Snapshot() == Kicked(old(Snapshot()), reason != "")
    {
      if fired { return; }
      fired := true;
      if reason != "" { sends := sends + 1; }
      closes := closes + 1;
    }
  }

  const TAKEN_OVER := "Your farm was opened from another session, so this one is signing off."
  const CLOSING := "The farm is closing for a moment of maintenance. Your progress is saved — come right back!"

  /** The loop that owns one save. */
  class Loop {
    const key: Key
    const save: Engine.State
    var dirty: bool
    var session: Handle?
    var stops: nat
    var exits: nat

    function Holder(): Option<nat> reads this, session { if session == null then None else Some(session.id) }

    function Snapshot(): Actor
      reads this, save, session
    {
      Actor(key, save.Clone(), dirty, Holder(), stops, exits)
    }

    constructor (key: Key, save: Engine.State)
      ensures this.key == key && this.save == save && Snapshot() == Actor(key, save.Clone(), false, None, 0, 0)
    {
      this.key, this.save := key, save;
      dirty, session, stops, exits := false, null, 0, 0;
    }

    method Persist(store: Store, up: bool)
      modifies `dirty, store`rows
      ensures Snapshot() == Persisted(old(Snapshot()), old(store.rows), up)
      ensures store.rows == RowsAfter(old(Snapshot()), old(store.rows), up)
    {
      hide Encode;
      if !dirty { return; }
      var failed := store.PersistSave(key, Stored(save.Clone()), up);
      if failed { return; }
      dirty := false;
    }

    method Advance(c: Config, now: int) returns (r: Report)
      modifies `dirty, save
      ensures Snapshot() == CaughtUp(c, old(Snapshot()), now)
      ensures r == Advancing.Advance(c, old(save.Clone()), now).report
    {
      hide Valid, Advancing.Advance, Engine.State.Clone;
      r := save.Advance(c, now);
      if r.elapsed > 0 { dirty := true; }
    }

    /** Carry out one action on the save. `guess` is the float square root's answer. */
    method Apply(c: Config, now: int, act: Action, guess: int64) returns (err: Option<Error>, receipt: Receipt)
      requires guess >= 0
      modifies save
      ensures Engine.Follows(Act(c, old(save.Clone()), act, now), old(save.Clone()), save.Clone(), err)
      ensures err.None? ==> receipt == Act(c, old(save.Clone()), act, now).receipt
    {
      hide Valid, Engine.State.Clone, PlantStep, HarvestStep, BuyPlotStep, BuyZoneStep, BuyMultiplierStep,
           BuySeedUpgradeStep,
           UpgradePlotAutoStep, BuyUpgradeStep, RedeemGiftStep, ShooCritterStep, SetFarmNameStep, RebirthStep;
      receipt := Plain;
      ghost var before := save.Clone();
      if SaysNothing(act) && Act(c, before, act, now).Done? { PlainReceipt(c, before, act, now); }
      match act {
        case Plant(i, cropId) => err := save.Plant(c, i, cropId, now);
        case Harvest(i) =>
          var y;
          err, y := save.Harvest(c, i, now);
          receipt := Yielded(y);
        case BuyPlot =>
          var cost;
          err, cost := save.BuyPlot(c);
          receipt := Cost(cost);
        case BuyZone(id) => err := save.BuyZone(c, id);
        case BuyMultiplier(id) => err := save.BuyMultiplier(c, id);
        case BuySeedUpgrade(id) => err := save.BuySeedUpgrade(c, id);
        case UpgradePlotAuto(i, kind) => err := save.UpgradePlotAuto(c, i, kind);
        case BuyUpgrade(id) => err := save.BuyUpgrade(c, id);
        case RedeemGift =>
          var coins, seeds;
          err, coins, seeds := save.RedeemGift(c, guess);
          receipt := Parcel(coins, seeds);
        case ShooCritter(i) =>
          var reward;
          err, reward := save.ShooCritter(c, i);
          receipt := Reward(reward);
        case SetFarmName(name) => err := save.SetFarmName(name);
        case Rebirth =>
          var gain;
          err, gain := save.Rebirth(c, now, guess);
          receipt := Gain(gain);
        case SetFlavor(enabled) => save.SetFlavor(enabled); err := None;
      }
    }

    /** The closure of every session method but `Advance`: catch up, act, and record achievements if it was allowed. */
    method Intent(c: Config, now: int, act: Action, guess: int64)
      returns (err: Option<Error>, receipt: Receipt, newly: seq<string>)
      requires guess >= 0
      modifies `dirty, save
      ensures Snapshot() == Acted(c, old(Snapshot()), now, act)
      ensures err == IntentError(c, old(save.Clone()), now, act) && newly == IntentNews(c, old(save.Clone()), now, act)
      ensures err.None? ==> receipt == Act(c, Advancing.Advance(c, old(save.Clone()), now).farm, act, now).receipt
    {
      hide Valid, Engine.State.Clone, Advancing.Advance, Act, Award, Awarded;
      var r := Advance(c, now);
      err, receipt := Apply(c, now, act, guess);
      newly := [];
      if err.None? {
        dirty := true;
        newly := save.CheckAchievements(c, now);
      }
    }

    /** The closure `Attach` mails. */
    method Attach(c: Config, policy: Policy, sess: Handle, now: int) returns (refused: bool, away: Report)
      modifies `dirty, `session, save, session
      ensures refused <==> old(session) != null && policy.Refuse?
      ensures refused ==> Snapshot() == old(Snapshot())
      ensures !refused ==> session == sess && Snapshot() == Installed(c, old(Snapshot()), sess.id, now)
      ensures away == if refused then QUIET else Advancing.Advance(c, old(save.Clone()), now).report
      ensures old(session) != null ==>
        old(session).Snapshot() == if refused then old(session.Snapshot()) else Kicked(old(session.Snapshot()), true)
    {
      hide Valid, Engine.State.Clone, Advancing.Advance;
      refused, away := false, QUIET;
      if session != null {
        if policy.Refuse? { return true, away; }
        session.DeliverKick(TAKEN_OVER);
      }
      session := sess;
      away := Advance(c, now);
    }

    /** The closure `detach` mails: let the session go if it is the holder's, and write. */
    method Detach(sess: Handle, store: Store, up: bool) returns (idle: bool)
      modifies `dirty, `session, store`rows
      ensures idle <==> old(session) == sess
      ensures var b := if idle then old(Snapshot()).(session := None) else old(Snapshot());
              Snapshot() == Persisted(b, old(store.rows), up) && store.rows == RowsAfter(b, old(store.rows), up)
    {
      hide Engine.State.Clone, Persisted, RowsAfter;
      idle := false;
      if session == sess {
        session := null;
        idle := true;
      }
      Persist(store, up);
    }

    /** The closure of the shutdown. */
    method SignOff()
      modifies `session, session
      ensures Snapshot() == SignedOff(old(Snapshot()))
      ensures old(session) != null ==> old(session).Snapshot() == Kicked(old(session.Snapshot()), true)
    {
      if session != null {
        session.DeliverKick(CLOSING);
        session := null;
      }
    }

    /** The loop sees `stop`: final flush, then `done`. */
    method Finish(store: Store, up: bool)
      modifies `dirty, `exits, store`rows
      ensures var b := Persisted(old(Snapshot()), old(store.rows), up);
              Snapshot() == b.(exits := b.exits + 1) && store.rows == RowsAfter(old(Snapshot()), old(store.rows), up)
    {
      hide Engine.State.Clone, Persisted, RowsAfter;
      Persist(store, up);
      exits := exits + 1;
    }
  }
}
