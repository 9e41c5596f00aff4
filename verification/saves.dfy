// No acknowledged progress is lost: what was acknowledged, replayed from the first load across every disconnect, is
// what the running save holds, or, when none is running, what the stored row loads as.
module Saves {
  import opened Content
  import opened Farms
  import opened Derive
  import opened Actions
  import opened Advancing
  import opened Intents
  import opened Payloads
  import opened Actors
  import opened Registry
  import opened Writers

  /** One more acknowledgement. Opening a save again must not change it: only the first load counts. */
  function Heard(c: Config, f: Option<Farm>, e: Entry): Option<Farm> {
    match e
    case Opened(_, farm) => if f.Some? then f else Some(farm)
    case Simulated(_, now) => if f.Some? then Some(Advance(c, f.value, now).farm) else None
    case Intended(_, now, act) => if f.Some? then Some(AfterIntent(c, f.value, now, act)) else None
    case Dropped(_) => None
  }

  /** The save of `key` as everything acknowledged makes it; None if it was never opened, or since progress was dropped
      because its last write failed. */
  function Replay(c: Config, log: seq<Entry>, key: Key): Option<Farm> {
    if log == [] then None
    else
      var f := Replay(c, log[..|log| - 1], key);
      if log[|log| - 1].key == key then Heard(c, f, log[|log| - 1]) else f
  }

  lemma ReplayMore(c: Config, log: seq<Entry>, e: Entry, key: Key)
    ensures Replay(c, log + [e], key) == if e.key == key then Heard(c, Replay(c, log, key), e) else Replay(c, log, key)
  {
    hide Heard;
    assert (log + [e])[..|log|] == log;
  }

  /** The entries about `key`, in order. */
  function Own(log: seq<Entry>, key: Key): seq<Entry> {
    if log == [] then []
    else Own(log[..|log| - 1], key) + if log[|log| - 1].key == key then [log[|log| - 1]] else []
  }

  /** Saves are apart: what was acknowledged for one is decided by its own entries, whatever happened to others
      between. */
  lemma {:induction false} ReplayIsOwn(c: Config, log: seq<Entry>, key: Key)
    ensures Replay(c, log, key) == Replay(c, Own(log, key), key)
  {
    hide Heard;
    if log != [] {
      var init, last := log[..|log| - 1], log[|log| - 1];
      ReplayIsOwn(c, init, key);
      if last.key == key {
        ReplayMore(c, Own(init, key), last, key);
      } else {
        assert Own(init, key) + [] == Own(init, key);
      }
    }
  }

  ghost predicate Live(w: World, key: Key) {
    key in w.registry && w.registry[key] < |w.actors| && !w.actors[w.registry[key]].Exited()
  }

  ghost predicate KeyOk(c: Config, w: World, key: Key) {
    var f := Replay(c, w.log, key);
    if Live(w, key) then
      f == Some(w.actors[w.registry[key]].state) && Synced(w.actors[w.registry[key]], w.rows) && key in w.rows
    else f.Some? ==> Loads(w.rows, key, f.value) && f.value.version == STATE_VERSION
  }

  ghost predicate Safe(c: Config, w: World) { forall key :: KeyOk(c, w, key) }

  /** A key whose actor, row and log are as before. */
  lemma Unmoved(c: Config, w: World, v: World, key: Key)
    requires KeyOk(c, w, key) && Replay(c, v.log, key) == Replay(c, w.log, key)
    requires Live(w, key) <==> Live(v, key)
    requires Live(w, key) ==>
               v.actors[v.registry[key]].(session := None, stops := 0)
               == w.actors[w.registry[key]].(session := None, stops := 0)
    requires key in w.rows ==> key in v.rows && v.rows[key] == w.rows[key]
    requires Live(w, key) ==> w.actors[w.registry[key]].key == key
    ensures KeyOk(c, v, key)
  {
    hide DecodeState;
  }

  lemma AttachBegunSafe(c: Config, w: World, key: Key, now: int, seed: nat, fault: Fault)
    requires Sane(w) && Safe(c, w) && w.holder.Free?
    ensures Safe(c, AttachBegun(c, w, key, now, seed, fault))
  {
    hide Valid, DecodeState, Encode, Farms.New, Heard;
    var v := AttachBegun(c, w, key, now, seed, fault);
    forall k ensures KeyOk(c, v, k) {
      assert KeyOk(c, w, k);
      if k in w.registry { assert ActorOk(w, w.registry[k]); }
      OpenedWell(c, w, key, now, seed, fault, k);
    }
  }

  /** What a load finds is what was acknowledged, if anything was. */
  lemma OpenedWell(c: Config, w: World, key: Key, now: int, seed: nat, fault: Fault, k: Key)
    requires Sane(w) && KeyOk(c, w, k) && w.holder.Free?
    ensures KeyOk(c, AttachBegun(c, w, key, now, seed, fault), k)
  {
    hide Valid, DecodeState, Farms.New, Sane, Stored, KeyOk;
    var v := AttachBegun(c, w, key, now, seed, fault);
    assert RegistryOk(w) by { SaneRegistry(w); }
    if |v.actors| == |w.actors| {
      NotStartedWell(c, w, v, k);
    } else {
      var row := if key in w.rows then w.rows[key] else Stored(New(c, seed, now));
      var farm := DecodeState(row).save.farm;
      if k != key {
        OtherStartedWell(c, w, v, key, k, farm);
      } else {
        LoadedIsStored(row);
        if key in w.rows {
          RowFoundWell(c, w, v, key, farm);
        } else {
          NewLoads(c, seed, now);
          RowCreatedWell(c, w, v, key, farm);
        }
      }
    }
  }

  lemma SaneRegistry(w: World)
    requires Sane(w)
    ensures RegistryOk(w)
  {
  }

  /** No actor was started: it is already running, or the call failed. */
  lemma NotStartedWell(c: Config, w: World, v: World, k: Key)
    requires RegistryOk(w) && KeyOk(c, w, k) && v.registry == w.registry && v.actors == w.actors && v.log == w.log
    requires forall key <- w.rows :: key in v.rows && v.rows[key] == w.rows[key]
    ensures KeyOk(c, v, k)
  {
    hide KeyOk, Replay;
    Unmoved(c, w, v, k);
  }

  /** `v` is `w` with an actor for `key` started on `farm`. */
  ghost predicate Started(w: World, v: World, key: Key, farm: Farm) {
    && key !in w.registry && v.registry == w.registry[key := |w.actors|]
    && v.actors == w.actors + [Actor(key, farm, false, None, 0, 0)] && v.log == w.log + [Opened(key, farm)]
    && key in v.rows && forall k <- w.rows :: k in v.rows && v.rows[k] == w.rows[k]
  }

  lemma OtherStartedWell(c: Config, w: World, v: World, key: Key, k: Key, farm: Farm)
    requires RegistryOk(w) && KeyOk(c, w, k) && Started(w, v, key, farm) && k != key
    ensures KeyOk(c, v, k)
  {
    hide KeyOk, Replay, Heard;
    ReplayMore(c, w.log, Opened(key, farm), k);
    Unmoved(c, w, v, k);
  }

  /** A row was there: it loads as what was acknowledged, if anything was. */
  lemma RowFoundWell(c: Config, w: World, v: World, key: Key, farm: Farm)
    requires KeyOk(c, w, key) && Started(w, v, key, farm) && key in w.rows && Loads(w.rows, key, farm)
    requires farm.version == STATE_VERSION
    ensures KeyOk(c, v, key)
  {
    hide DecodeState, Replay, Valid;
    ReplayMore(c, w.log, Opened(key, farm), key);
  }

  /** No row was there, so nothing was acknowledged: a new save, stored as it is. */
  lemma RowCreatedWell(c: Config, w: World, v: World, key: Key, farm: Farm)
    requires KeyOk(c, w, key) && Started(w, v, key, farm) && key !in w.rows && Loads(v.rows, key, farm)
    requires farm.version == STATE_VERSION
    ensures KeyOk(c, v, key)
  {
    hide DecodeState, Replay, Valid;
    ReplayMore(c, w.log, Opened(key, farm), key);
  }

  /** Whatever loads is at the current version with every map made. */
  lemma LoadedIsStored(row: Payload)
    ensures DecodeState(row).Loaded?
        ==> DecodeState(row).save.nils == {} && DecodeState(row).save.farm.version == STATE_VERSION
  {
    hide Unmarshal;
    UnmarshalVersion(row);
  }

  lemma NewLoads(c: Config, seed: nat, now: int)
    ensures DecodeState(Stored(New(c, seed, now))) == Loaded(Raw(New(c, seed, now), {}))
  {
    hide DecodeState, Encode, Valid, EmptyPlots;
    RoundTrip(New(c, seed, now));
  }

  /** The running actor `id` does something that is acknowledged as `e`. */
  lemma EffectSafe(c: Config, w: World, v: World, id: nat, b: Actor, e: Entry)
    requires Sane(w) && Safe(c, w) && Running(w, id)
    requires var a := w.actors[id]; b == a.(state := b.state, dirty := b.dirty, session := b.session)
    requires e.key == b.key && Heard(c, Some(w.actors[id].state), e) == Some(b.state) && Synced(b, w.rows)
    requires v.registry == w.registry && v.rows == w.rows && v.actors == w.actors[id := b] && v.log == w.log + [e]
    ensures Safe(c, v)
  {
    hide Valid, DecodeState, Heard, SessionOk, HolderOk, FlushOk, Synced;
    assert ActorOk(w, id);
    forall k ensures KeyOk(c, v, k) {
      assert KeyOk(c, w, k);
      ReplayMore(c, w.log, e, k);
      if k != b.key {
        Apart(w, k, id);
        Unmoved(c, w, v, k);
      }
    }
  }

  /** Actor `id` is not the one of key `k`. */
  lemma Apart(w: World, k: Key, id: nat)
    requires RegistryOk(w) && id < |w.actors| && w.actors[id].key != k
    ensures Live(w, k) ==> w.registry[k] != id && w.actors[w.registry[k]].key == k
  {
  }

  /** The running actor `id` tries to write. */
  lemma WriteSafe(c: Config, w: World, v: World, id: nat, b: Actor, ok: bool)
    requires Sane(w) && Safe(c, w) && Running(w, id) && b == w.actors[id].(session := b.session)
    requires v.registry == w.registry && v.rows == RowsAfter(b, w.rows, ok) && v.log == w.log
    requires v.actors == w.actors[id := Persisted(b, w.rows, ok)]
    ensures Safe(c, v)
  {
    hide Valid, DecodeState, SessionOk, HolderOk, FlushOk, Encode;
    assert ActorOk(w, id) && KeyOk(c, w, b.key);
    PersistedSynced(b, w.rows, ok);
    forall k ensures KeyOk(c, v, k) {
      assert KeyOk(c, w, k);
      if k != b.key {
        Apart(w, k, id);
        Unmoved(c, w, v, k);
      }
    }
  }

  /** The final flush: either the row now is the save, or its progress is written off. */
  lemma ExitedSafe(c: Config, w: World, id: nat, ok: bool)
    requires Sane(w) && Safe(c, w) && Enabled(w, LoopExits(id, ok))
    ensures Safe(c, Exited(w, id, ok))
  {
    hide Valid, DecodeState, SessionOk, HolderOk, FlushOk, Encode, Heard;
    var v := Exited(w, id, ok);
    var a := w.actors[id];
    assert ActorOk(w, id) && KeyOk(c, w, a.key);
    PersistedSynced(a, w.rows, ok);
    forall k ensures KeyOk(c, v, k) {
      assert KeyOk(c, w, k);
      ReplayMore(c, w.log, Dropped(a.key), k);
      if k != a.key {
        Apart(w, k, id);
        Unmoved(c, w, v, k);
      } else {
        DroppedIsForgotten(c, Replay(c, w.log, k), a.key);
      }
    }
  }

  lemma DroppedIsForgotten(c: Config, f: Option<Farm>, key: Key)
    ensures Heard(c, f, Dropped(key)) == None
  {
  }

  /** A step that leaves every save, row and acknowledgement alone. */
  lemma QuietSafe(c: Config, w: World, v: World)
    requires Sane(w) && Safe(c, w) && v.rows == w.rows && v.log == w.log && |v.actors| == |w.actors|
    requires forall k :: Live(w, k) <==> Live(v, k)
    requires forall k :: Live(w, k) ==> k in v.registry && v.registry[k] == w.registry[k]
    requires forall i | 0 <= i < |w.actors| ::
               v.actors[i].(session := None, stops := 0) == w.actors[i].(session := None, stops := 0)
    ensures Safe(c, v)
  {
    hide Valid, DecodeState, SessionOk, HolderOk, FlushOk, ActorOk;
    forall k ensures KeyOk(c, v, k) {
      assert KeyOk(c, w, k);
      Unmoved(c, w, v, k);
    }
  }

  lemma StoppedSafe(c: Config, w: World, id: nat, flusher: bool)
    requires Sane(w) && Safe(c, w) && id < |w.actors| && w.actors[id].Exited()
    ensures Safe(c, Stopped(w, id, flusher))
  {
    hide Safe, SessionOk, HolderOk, FlushOk, ActorOk;
    QuietSafe(c, w, Stopped(w, id, flusher));
  }

  lemma AttachedSafe(c: Config, p: Policy, w: World)
    requires Sane(w) && Safe(c, w) && Enabled(w, AttachRuns)
    ensures Safe(c, Attached(c, p, w))
  {
    hide Safe, Valid, ActorOk, SessionOk, FlushOk, Synced, KeyOk, Advance, AdvanceDirties;
    var v := Attached(c, p, w);
    var id, now := w.holder.actor, w.holder.now;
    var a := w.actors[id];
    if v.log == w.log {
      QuietSafe(c, w, v);
    } else {
      RunningSynced(c, w, id);
      var b := a.(session := v.actors[id].session);
      SyncedAnySession(a, b, w.rows);
      CaughtUpSynced(c, b, now, w.rows);
      EffectSafe(c, w, v, id, CaughtUp(c, b, now), Simulated(a.key, now));
    }
  }

  lemma SyncedAnySession(a: Actor, b: Actor, rows: Rows)
    requires Synced(a, rows) && b == a.(session := b.session)
    ensures Synced(b, rows)
  {
    hide Loads;
  }

  lemma RunningSynced(c: Config, w: World, id: nat)
    requires Sane(w) && Safe(c, w) && Running(w, id)
    ensures Synced(w.actors[id], w.rows) && Registered(w, id)
  {
    hide Loads, Replay;
    assert ActorOk(w, id) && KeyOk(c, w, w.actors[id].key);
  }

  lemma SessionActsSafe(c: Config, w: World, id: nat, now: int, act: Action)
    requires Sane(w) && Safe(c, w) && Running(w, id)
    ensures var a := w.actors[id];
            Safe(c, w.(actors := w.actors[id := Acted(c, a, now, act)], log := w.log + [Intended(a.key, now, act)]))
  {
    hide Safe, Sane, Valid, Synced, AfterIntent, IntentDirties;
    var a := w.actors[id];
    RunningSynced(c, w, id);
    ActedSynced(c, a, now, act, w.rows);
    var v := w.(actors := w.actors[id := Acted(c, a, now, act)], log := w.log + [Intended(a.key, now, act)]);
    EffectSafe(c, w, v, id, Acted(c, a, now, act), Intended(a.key, now, act));
  }

  lemma SessionAdvancesSafe(c: Config, w: World, id: nat, now: int)
    requires Sane(w) && Safe(c, w) && Running(w, id)
    ensures var a := w.actors[id];
            Safe(c, w.(actors := w.actors[id := CaughtUp(c, a, now)], log := w.log + [Simulated(a.key, now)]))
  {
    hide Safe, Sane, Valid, Synced, Advance, AdvanceDirties;
    var a := w.actors[id];
    RunningSynced(c, w, id);
    CaughtUpSynced(c, a, now, w.rows);
    var v := w.(actors := w.actors[id := CaughtUp(c, a, now)], log := w.log + [Simulated(a.key, now)]);
    EffectSafe(c, w, v, id, CaughtUp(c, a, now), Simulated(a.key, now));
  }

  lemma DetachedSafe(c: Config, w: World, ok: bool)
    requires Sane(w) && Safe(c, w) && Enabled(w, DetachRuns(ok))
    ensures Safe(c, Detached(w, ok))
  {
    hide Safe, ActorOk, SessionOk, FlushOk, HolderOk, Persisted, RowsAfter;
    var v := Detached(w, ok);
    var s := w.holder.session;
    var id := w.sessions[s].actor;
    var a := w.actors[id];
    if a.Exited() {
      QuietSafe(c, w, v);
    } else {
      WriteSafe(c, w, v, id, Released(a, s), ok);
    }
  }

  lemma AutosaveSafe(c: Config, w: World, id: nat, ok: bool)
    requires Sane(w) && Safe(c, w) && Enabled(w, Autosave(id, ok))
    ensures Safe(c, w.(actors := w.actors[id := Persisted(w.actors[id], w.rows, ok)],
        rows := RowsAfter(w.actors[id], w.rows, ok)))
  {
    hide Safe, Sane, Persisted, RowsAfter;
    var v := w.(actors := w.actors[id := Persisted(w.actors[id], w.rows, ok)],
        rows := RowsAfter(w.actors[id], w.rows, ok));
    WriteSafe(c, w, v, id, w.actors[id], ok);
  }

  lemma AskedSafe(c: Config, w: World)
    requires Sane(w) && Safe(c, w) && Enabled(w, FlushAsks)
    ensures Safe(c, Asked(w))
  {
    hide Safe, ActorOk, SessionOk, FlushOk, HolderOk;
    QuietSafe(c, w, Asked(w));
  }

  lemma CloseStopSafe(c: Config, w: World)
    requires Sane(w) && Safe(c, w) && Enabled(w, CloseStop) && !w.actors[w.holder.actor].Exited()
    ensures var id := w.holder.actor;
            Safe(c, StopClosed(w, id, w.holder.flusher))
  {
    hide Safe, ActorOk, SessionOk, FlushOk, HolderOk;
    var id := w.holder.actor;
    QuietSafe(c, w, StopClosed(w, id, w.holder.flusher));
  }

  /** A step of the lock, the flush or a session's channel. */
  lemma OutsideSafe(c: Config, w: World, v: World)
    requires Sane(w) && Safe(c, w)
    requires v == w.(sessions := v.sessions, closing := v.closing, holder := v.holder, flush := v.flush)
    ensures Safe(c, v)
  {
    hide Safe, ActorOk, SessionOk, FlushOk, HolderOk;
    QuietSafe(c, w, v);
  }

  /** Every step keeps every acknowledgement. */
  lemma StepSafe(c: Config, p: Policy, w: World, e: Turn)
    requires Sane(w) && Safe(c, w) && Enabled(w, e)
    ensures Safe(c, Fire(c, p, w, e))
  {
    hide Valid, Sane, Safe, AttachBegun, Attached, Detached, Stopped, Exited, Asked, CaughtUp, Acted, Persisted,
         RowsAfter, Lists;
    var v := Fire(c, p, w, e);
    match e
    case BeginAttach(key, now, seed, fault) => AttachBegunSafe(c, w, key, now, seed, fault);
    case AttachRuns => AttachedSafe(c, p, w);
    case AttachFindsDead => AttachNeverFindsDead(w);
    case SessionActs(s, now, act) =>
      if Running(w, w.sessions[s].actor) { SessionActsSafe(c, w, w.sessions[s].actor, now, act); }
    case SessionAdvances(s, now) =>
      if Running(w, w.sessions[s].actor) { SessionAdvancesSafe(c, w, w.sessions[s].actor, now); }
    case Autosave(id, ok) => AutosaveSafe(c, w, id, ok);
    case BeginDetach(s) => OutsideSafe(c, w, v);
    case DetachRuns(ok) => DetachedSafe(c, w, ok);
    case LastKick(s) => OutsideSafe(c, w, v);
    case CloseStop =>
      if w.actors[w.holder.actor].Exited() {
        StoppedSafe(c, w, w.holder.actor, w.holder.flusher);
      } else {
        CloseStopSafe(c, w);
      }
    case LoopExits(id, ok) => ExitedSafe(c, w, id, ok);
    case StopReturns => StoppedSafe(c, w, w.holder.actor, w.holder.flusher);
    case BeginShutdown(queue) => OutsideSafe(c, w, v);
    case FlushAsks => AskedSafe(c, w);
    case FlushLocks => OutsideSafe(c, w, v);
    case FlushEnds => OutsideSafe(c, w, v);
  }

  lemma {:induction false} RunsAreSafe(c: Config, p: Policy, rows: Rows, turns: seq<Turn>, w: World)
    requires Reaches(c, p, rows, turns, w)
    ensures Sane(w) && Safe(c, w)
    decreases |turns|
  {
    hide Sane, Safe, Fire, Enabled, Valid;
    if turns == [] {
      FreshIsSane(rows);
      FreshIsSafe(c, rows);
    } else {
      var last := |turns| - 1;
      var v :| Reaches(c, p, rows, turns[..last], v) && Enabled(v, turns[last]) && w == Fire(c, p, v, turns[last]);
      RunsAreSafe(c, p, rows, turns[..last], v);
      StepSane(c, p, v, turns[last]);
      StepSafe(c, p, v, turns[last]);
    }
  }

  lemma FreshIsSafe(c: Config, rows: Rows)
    ensures Safe(c, Fresh(rows))
  {
    hide Loads, Synced;
  }

  // ---------- what it comes to ----------

  /** In every interleaving: a running save is the replay of all that was acknowledged for it, over all its sessions,
      and if it is not marked dirty its row loads as exactly that; a save nobody runs has it in its row, unless its
      final flush failed. */
  lemma NoProgressLost(c: Config, p: Policy, rows: Rows, turns: seq<Turn>, w: World, key: Key)
    requires Reaches(c, p, rows, turns, w)
    ensures var f := Replay(c, w.log, key);
            if Live(w, key) then
              var a := w.actors[w.registry[key]];
              f == Some(a.state) && (!a.dirty ==> Loads(w.rows, key, a.state))
            else f.Some? ==> Loads(w.rows, key, f.value)
  {
    hide Valid, Reaches, Loads, ActorOk, SessionOk, HolderOk, FlushOk;
    RunsAreSafe(c, p, rows, turns, w);
    assert KeyOk(c, w, key);
  }

  /** The next `Attach` of a save that was opened before and whose final flush did not fail starts from the last
      acknowledged state, whatever the new game it would have created. */
  lemma NextAttachContinues(c: Config, p: Policy, rows: Rows, turns: seq<Turn>, w: World, key: Key, now: int, seed: nat)
    requires Reaches(c, p, rows, turns, w) && w.holder.Free? && !w.closing && Replay(c, w.log, key).Some?
    ensures var v := AttachBegun(c, w, key, now, seed, NoFault);
            && v.holder.Attaching? && Live(v, key) && v.registry[key] == v.holder.actor
            && v.actors[v.holder.actor].state == Replay(c, w.log, key).value
  {
    hide Valid, Reaches, Heard, DecodeState, Encode, Farms.New, SessionOk, FlushOk;
    RunsAreSafe(c, p, rows, turns, w);
    assert KeyOk(c, w, key);
    var v := AttachBegun(c, w, key, now, seed, NoFault);
    if key in w.registry {
      assert ActorOk(w, w.registry[key]);
      assert v == w.(holder := Attaching(w.registry[key], now));
      assert Live(v, key) && v.registry[key] == v.holder.actor;
    } else {
      assert Loads(w.rows, key, Replay(c, w.log, key).value);
      assert v.registry == w.registry[key := |w.actors|] && v.holder == Attaching(|w.actors|, now);
      assert Live(v, key) && v.registry[key] == v.holder.actor;
    }
  }
}
