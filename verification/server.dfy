// The engine's invariant over the life of the server: if every stored save satisfies it at the start, every save in
// memory and every row satisfies it ever after, whatever sessions do and whenever they do it.
module Servers {
  import opened Content
  import opened Farms
  import opened Derive
  import opened Actions
  import opened Advancing
  import opened Invariant
  import opened Intents
  import opened Payloads
  import opened Actors
  import opened Registry
  import opened Writers
  import opened Saves

  ghost predicate RowSound(c: Config, row: Payload) {
    DecodeState(row).Loaded? ==> Inv(c, DecodeState(row).save.farm)
  }

  ghost predicate RowsSound(c: Config, rows: Rows) { forall key <- rows :: RowSound(c, rows[key]) }

  ghost predicate AllSound(c: Config, w: World) {
    RowsSound(c, w.rows) && forall i | 0 <= i < |w.actors| :: Inv(c, w.actors[i].state)
  }

  /** A write of a sound save leaves the store sound. */
  lemma WriteSound(c: Config, a: Actor, rows: Rows, ok: bool)
    requires RowsSound(c, rows) && Inv(c, a.state) && Synced(a, rows)
    ensures RowsSound(c, RowsAfter(a, rows, ok)) && Persisted(a, rows, ok).state == a.state
  {
    hide Valid, Inv, Encode, DecodeState, Loads;
    RoundTrip(a.state);
  }

  lemma AttachBegunSound(c: Config, w: World, key: Key, now: int, seed: nat, fault: Fault)
    requires AllSound(c, w)
    ensures AllSound(c, AttachBegun(c, w, key, now, seed, fault))
  {
    hide Valid, Inv, DecodeState, Stored, Farms.New;
    NewIsInv(c, seed, now);
    NewLoads(c, seed, now);
  }

  lemma AttachedSound(c: Config, p: Policy, w: World)
    requires AllSound(c, w) && Enabled(w, AttachRuns)
    ensures AllSound(c, Attached(c, p, w))
  {
    hide Valid, Inv, RowsSound, Advance, AdvanceDirties;
    AdvanceKeeps(c, w.actors[w.holder.actor].state, w.holder.now);
  }

  lemma ActedSound(c: Config, a: Actor, now: int, act: Action)
    requires Inv(c, a.state)
    ensures Inv(c, Acted(c, a, now, act).state) && Inv(c, CaughtUp(c, a, now).state)
  {
    hide Valid, Inv, Advance, AfterIntent, AdvanceDirties, IntentDirties;
    IntentKeeps(c, a.state, now, act);
    AdvanceKeeps(c, a.state, now);
  }

  lemma DetachedSound(c: Config, w: World, ok: bool)
    requires Sane(w) && Safe(c, w) && AllSound(c, w) && Enabled(w, DetachRuns(ok))
    ensures AllSound(c, Detached(w, ok))
  {
    hide Valid, Inv, RowsSound, Sane, Safe, Synced, Persisted, RowsAfter;
    var s := w.holder.session;
    var id := w.sessions[s].actor;
    var a := w.actors[id];
    if !a.Exited() {
      var b := Released(a, s);
      RunningSynced(c, w, id);
      SyncedAnySession(a, b, w.rows);
      WriteSound(c, b, w.rows, ok);
    }
  }

  lemma WrittenSound(c: Config, w: World, id: nat, ok: bool)
    requires Sane(w) && Safe(c, w) && AllSound(c, w) && Running(w, id)
    ensures RowsSound(c, RowsAfter(w.actors[id], w.rows, ok)) && Inv(c, Persisted(w.actors[id], w.rows, ok).state)
  {
    hide Valid, Inv, RowsSound, Sane, Safe, Synced, Persisted, RowsAfter;
    RunningSynced(c, w, id);
    WriteSound(c, w.actors[id], w.rows, ok);
  }

  /** A step that leaves every row, and every save in memory, as it was. */
  lemma SameSaves(c: Config, w: World, v: World)
    requires AllSound(c, w) && v.rows == w.rows && |v.actors| == |w.actors|
    requires forall i | 0 <= i < |w.actors| :: v.actors[i].state == w.actors[i].state
    ensures AllSound(c, v)
  {
    hide Inv, RowsSound;
  }

  /** A step that changes one save, or the rows. */
  lemma OneSave(c: Config, w: World, v: World, id: nat)
    requires AllSound(c, w) && RowsSound(c, v.rows) && id < |w.actors| && |v.actors| == |w.actors|
    requires Inv(c, v.actors[id].state) && v.actors == w.actors[id := v.actors[id]]
    ensures AllSound(c, v)
  {
    hide Inv, RowsSound;
  }

  lemma SessionActsSound(c: Config, w: World, id: nat, now: int, act: Action)
    requires AllSound(c, w) && id < |w.actors|
    ensures var a := w.actors[id];
            && AllSound(c, w.(actors := w.actors[id := Acted(c, a, now, act)], log := w.log
                + [Intended(a.key, now, act)]))
            && AllSound(c, w.(actors := w.actors[id := CaughtUp(c, a, now)], log := w.log + [Simulated(a.key, now)]))
  {
    assert Inv(c, w.actors[id].state) && RowsSound(c, w.rows);
    hide Valid, Inv, RowsSound, AllSound, Acted, CaughtUp;
    var a := w.actors[id];
    ActedSound(c, a, now, act);
    OneSave(c, w, w.(actors := w.actors[id := Acted(c, a, now, act)], log := w.log + [Intended(a.key, now, act)]), id);
    OneSave(c, w, w.(actors := w.actors[id := CaughtUp(c, a, now)], log := w.log + [Simulated(a.key, now)]), id);
  }

  lemma AutosaveSound(c: Config, w: World, id: nat, ok: bool)
    requires Sane(w) && Safe(c, w) && AllSound(c, w) && Running(w, id)
    ensures AllSound(c, w.(actors := w.actors[id := Persisted(w.actors[id], w.rows, ok)],
                           rows := RowsAfter(w.actors[id], w.rows, ok)))
  {
    hide Valid, Inv, RowsSound, AllSound, Persisted, RowsAfter, Sane, Safe;
    WrittenSound(c, w, id, ok);
    OneSave(c, w, w.(actors := w.actors[id := Persisted(w.actors[id], w.rows, ok)],
                     rows := RowsAfter(w.actors[id], w.rows, ok)), id);
  }

  lemma ExitedSound(c: Config, w: World, id: nat, ok: bool)
    requires Sane(w) && Safe(c, w) && AllSound(c, w) && Running(w, id)
    ensures AllSound(c, Exited(w, id, ok))
  {
    hide Valid, Inv, RowsSound, AllSound, Persisted, RowsAfter, Sane, Safe;
    WrittenSound(c, w, id, ok);
    OneSave(c, w, Exited(w, id, ok), id);
  }

  lemma StopStepSound(c: Config, w: World, id: nat, flusher: bool)
    requires AllSound(c, w) && id < |w.actors|
    ensures AllSound(c, Stopped(w, id, flusher)) && AllSound(c, StopClosed(w, id, flusher))
  {
    hide Valid, AllSound;
    SameSaves(c, w, Stopped(w, id, flusher));
    SameSaves(c, w, StopClosed(w, id, flusher));
  }

  lemma AskedSound(c: Config, w: World)
    requires AllSound(c, w) && Enabled(w, FlushAsks)
    ensures AllSound(c, Asked(w))
  {
    hide Valid, AllSound;
    SameSaves(c, w, Asked(w));
  }

  lemma StepSound(c: Config, p: Policy, w: World, e: Turn)
    requires Sane(w) && Safe(c, w) && AllSound(c, w) && Enabled(w, e)
    ensures AllSound(c, Fire(c, p, w, e))
  {
    hide Valid, AllSound, Sane, Safe, AttachBegun, Attached, Detached, Stopped, StopClosed, Exited, Asked, CaughtUp,
         Acted,
         Persisted, RowsAfter, Lists;
    match e
    case BeginAttach(key, now, seed, fault) => AttachBegunSound(c, w, key, now, seed, fault);
    case AttachRuns => AttachedSound(c, p, w);
    case SessionActs(s, now, act) => SessionActsSound(c, w, w.sessions[s].actor, now, act);
    case SessionAdvances(s, now) => SessionActsSound(c, w, w.sessions[s].actor, now, RedeemGift);
    case Autosave(id, ok) => AutosaveSound(c, w, id, ok);
    case DetachRuns(ok) => DetachedSound(c, w, ok);
    case LoopExits(id, ok) => ExitedSound(c, w, id, ok);
    case CloseStop => StopStepSound(c, w, w.holder.actor, w.holder.flusher);
    case StopReturns => StopStepSound(c, w, w.holder.actor, w.holder.flusher);
    case FlushAsks => AskedSound(c, w);
    case _ => SameSaves(c, w, Fire(c, p, w, e));
  }

  /** The engine's promises hold of every save in memory and every row, at every moment of every run of the server. */
  lemma {:induction false} SavesStaySound(c: Config, p: Policy, rows: Rows, turns: seq<Turn>, w: World)
    requires Reaches(c, p, rows, turns, w) && RowsSound(c, rows)
    ensures AllSound(c, w)
    decreases |turns|
  {
    hide Sane, Safe, AllSound, RowsSound, Fire, Enabled, Valid;
    if turns == [] {
      FreshSound(c, rows);
    } else {
      var last := |turns| - 1;
      var v :| Reaches(c, p, rows, turns[..last], v) && Enabled(v, turns[last]) && w == Fire(c, p, v, turns[last]);
      SavesStaySound(c, p, rows, turns[..last], v);
      RunsAreSafe(c, p, rows, turns[..last], v);
      StepSound(c, p, v, turns[last]);
    }
  }

  lemma FreshSound(c: Config, rows: Rows)
    requires RowsSound(c, rows)
    ensures AllSound(c, Fresh(rows))
  {
    hide Inv, RowsSound;
  }
}
