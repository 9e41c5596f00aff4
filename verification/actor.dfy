// One running save: what its goroutine does to it, one closure or tick at a time, as functions of its fields.
module Actors {
  import opened Content
  import opened Farms
  import opened Derive
  import opened Actions
  import opened Advancing
  import opened Intents
  import opened Payloads

  datatype Key = Key(fingerprint: string, slot: string)

  /** A save in memory. `stops` and `exits` count how often the `stop` and `done` channels were closed. */
  datatype Actor = Actor(key: Key, state: Farm, dirty: bool, session: Option<nat>, stops: nat, exits: nat)
  {
    predicate Exited() { exits > 0 }
  }

  type Rows = map<Key, Payload>

  function Stored(f: Farm): Payload { Encode(Raw(f, {})) }

  /** The row of `key` loads as exactly `f`. */
  ghost predicate Loads(rows: Rows, key: Key, f: Farm) {
    key in rows && DecodeState(rows[key]) == Loaded(Raw(f, {}))
  }

  // ---------- what runs on the goroutine ----------

  /** A write happens only if there is something new, the store accepts it, and the row still exists. */
  predicate Writes(a: Actor, rows: Rows, ok: bool) { a.dirty && ok && a.key in rows }

  function Persisted(a: Actor, rows: Rows, ok: bool): Actor {
    if Writes(a, rows, ok) then a.(dirty := false) else a
  }

  function RowsAfter(a: Actor, rows: Rows, ok: bool): Rows {
    if Writes(a, rows, ok) then rows[a.key := Stored(a.state)] else rows
  }

  function CaughtUp(c: Config, a: Actor, now: int): (b: Actor)
    ensures b == a.(state := b.state, dirty := b.dirty)
  {
    a.(state := Advance(c, a.state, now).farm, dirty := a.dirty || AdvanceDirties(c, a.state, now))
  }

  function Acted(c: Config, a: Actor, now: int, act: Action): (b: Actor)
    ensures b == a.(state := b.state, dirty := b.dirty)
  {
    a.(state := AfterIntent(c, a.state, now, act), dirty := a.dirty || IntentDirties(c, a.state, now, act))
  }

  /** `Attach`'s closure, past the refusal and the kick: the newcomer `s` takes over and the save is caught up. */
  function Installed(c: Config, a: Actor, s: nat, now: int): Actor { CaughtUp(c, a.(session := Some(s)), now) }

  /** `detach`'s closure before it writes: `s` lets go if it is the holder. */
  function Released(a: Actor, s: nat): Actor { if a.session == Some(s) then a.(session := None) else a }

  /** The shutdown's closure. */
  function SignedOff(a: Actor): Actor { a.(session := None) }

  // ---------- the dirty flag ----------

  /** What `dirty == false` stands for: the row is this save. */
  ghost predicate Synced(a: Actor, rows: Rows) {
    a.state.version == STATE_VERSION && (!a.dirty ==> Loads(rows, a.key, a.state))
  }

  /** Catching up never leaves unsaved progress unmarked: a catch-up that sets no flag changed nothing. */
  lemma CaughtUpSynced(c: Config, a: Actor, now: int, rows: Rows)
    requires Synced(a, rows)
    ensures Synced(CaughtUp(c, a, now), rows)
  {
    hide Advance, AdvanceDirties, Loads;
    CleanAdvance(c, a.state, now);
    AdvanceKeepsVersion(c, a.state, now);
  }

  /** Nor does an intent: a refused action at an instant already simulated is a no-op. */
  lemma ActedSynced(c: Config, a: Actor, now: int, act: Action, rows: Rows)
    requires Synced(a, rows)
    ensures Synced(Acted(c, a, now, act), rows)
  {
    hide AfterIntent, IntentDirties, Loads;
    CleanIntent(c, a.state, now, act);
    IntentKeepsVersion(c, a.state, now, act);
  }

  /** A write, whether it fails or not, keeps the flag honest and touches no other row. */
  lemma PersistedSynced(a: Actor, rows: Rows, ok: bool)
    requires Synced(a, rows)
    ensures Synced(Persisted(a, rows, ok), RowsAfter(a, rows, ok))
    ensures forall k <- rows :: k in RowsAfter(a, rows, ok) && (k != a.key ==> RowsAfter(a, rows, ok)[k] == rows[k])
    ensures RowsAfter(a, rows, ok).Keys == rows.Keys
  {
    hide Encode, DecodeState;
    RoundTrip(a.state);
  }
}
