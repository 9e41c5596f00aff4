// One writer per save, no leaked loop, no channel closed twice, and a flush that leaves nothing running.
module Writers {
  import opened Content
  import opened Farms
  import opened Derive
  import opened Payloads
  import opened Actors
  import opened Registry

  ghost predicate Registered(w: World, id: nat) {
    id < |w.actors| && w.actors[id].key in w.registry && w.registry[w.actors[id].key] == id
  }

  /** The lock holder is in the middle of something with actor `id`. */
  ghost predicate Busy(w: World, id: nat) {
    (w.holder.Attaching? || w.holder.Stopping? || w.holder.Waiting?) && w.holder.actor == id
  }

  ghost predicate Stopped1(w: World, id: nat) { w.holder.Waiting? && w.holder.actor == id }

  ghost predicate ActorOk(w: World, id: nat)
    requires id < |w.actors|
  {
    var a := w.actors[id];
    && (a.session.Some? ==>
          && a.session.value < |w.sessions|
          && var s := w.sessions[a.session.value]; s.actor == id && !s.fired && !s.detached)
    && (if !Registered(w, id) then a.stops == 1 && a.exits == 1 && a.session.None?
        else if Stopped1(w, id) then a.stops == 1 && a.exits <= 1 && a.session.None?
        else a.stops == 0 && a.exits == 0)
    && (!w.closing && Registered(w, id) && !Busy(w, id) ==> a.session.Some?)
  }

  ghost predicate SessionOk(w: World, s: nat)
    requires s < |w.sessions|
  {
    var h := w.sessions[s];
    && h.actor < |w.actors| && h.sends <= h.closes && h.closes == (if h.fired then 1 else 0)
    && (!h.fired && !h.detached ==> w.actors[h.actor].session == Some(s))
    && (h.fired && !h.detached ==> h.sends == 1)
  }

  ghost predicate HolderOk(w: World) {
    match w.holder
    case Free => true
    case Attaching(id, _) => Registered(w, id) && !w.closing
    case Detaching(s) => s < |w.sessions|
    case Stopping(id, flusher) =>
      id < |w.actors| && w.actors[id].session.None? && if flusher then Head(w, id) else Registered(w, id)
    case Waiting(id, flusher) => Registered(w, id) && (flusher ==> Head(w, id))
  }

  /** The flush has asked `id` to let its session go and is now stopping it. */
  ghost predicate Head(w: World, id: nat) {
    w.flush.Flushing? && w.flush.queue != [] && w.flush.queue[0] == id && w.flush.asked
  }

  ghost predicate FlushOk(w: World) {
    && (w.closing <==> !w.flush.NotStarted?)
    && (w.flush.Flushed? ==> w.registry == map[])
    && (w.flush.Flushing? ==>
          && (forall key <- w.registry :: w.registry[key] in w.flush.queue)
          && (forall i | 0 <= i < |w.flush.queue| :: w.flush.queue[i] < |w.actors|)
          && (w.flush.asked ==> w.flush.queue != [] && w.actors[w.flush.queue[0]].session.None?))
  }

  ghost predicate RegistryOk(w: World) {
    forall key <- w.registry :: w.registry[key] < |w.actors| && w.actors[w.registry[key]].key == key
  }

  ghost predicate Sane(w: World) {
    && RegistryOk(w) && HolderOk(w) && FlushOk(w)
    && (forall id | 0 <= id < |w.actors| :: ActorOk(w, id))
    && (forall s | 0 <= s < |w.sessions| :: SessionOk(w, s))
  }

  /** `Attach` goes on with an actor that is registered, or gives up. */
  lemma AttachFoundSane(w: World, v: World)
    requires Sane(w) && w.holder.Free? && v == w.(rows := v.rows, holder := v.holder)
    requires v.holder.Free? || (v.holder.Attaching? && Registered(w, v.holder.actor) && !w.closing)
    ensures Sane(v)
  {
    forall id | 0 <= id < |v.actors| ensures ActorOk(v, id) { assert ActorOk(w, id); }
    forall s | 0 <= s < |v.sessions| ensures SessionOk(v, s) { assert SessionOk(w, s); }
  }

  /** `Attach` starts an actor. */
  lemma AttachStartedSane(w: World, v: World, key: Key, farm: Farm, now: int)
    requires Sane(w) && w.holder.Free? && !w.closing && key !in w.registry
    requires v == w.(rows := v.rows, log := v.log, actors := w.actors + [Actor(key, farm, false, None, 0, 0)],
                     registry := w.registry[key := |w.actors|], holder := Attaching(|w.actors|, now))
    ensures Sane(v)
  {
    forall id | 0 <= id < |v.actors| ensures ActorOk(v, id) {
      if id < |w.actors| { assert ActorOk(w, id); }
    }
    forall s | 0 <= s < |v.sessions| ensures SessionOk(v, s) { assert SessionOk(w, s); }
  }

  lemma AttachBegunSane(c: Config, w: World, key: Key, now: int, seed: nat, fault: Fault)
    requires Sane(w) && w.holder.Free?
    ensures Sane(AttachBegun(c, w, key, now, seed, fault))
  {
    hide Valid, DecodeState, Stored, Farms.New, ActorOk, SessionOk;
    var v := AttachBegun(c, w, key, now, seed, fault);
    if |v.actors| == |w.actors| {
      AttachFoundSane(w, v);
    } else {
      AttachStartedSane(w, v, key, v.actors[|w.actors|].state, now);
    }
  }

  lemma AttachedSane(c: Config, p: Policy, w: World)
    requires Sane(w) && Enabled(w, AttachRuns)
    ensures Sane(Attached(c, p, w))
  {
    hide Valid, CaughtUp;
    var v := Attached(c, p, w);
    assert ActorOk(w, w.holder.actor);
    forall id | 0 <= id < |v.actors| ensures ActorOk(v, id) { assert ActorOk(w, id); }
    forall s | 0 <= s < |v.sessions| ensures SessionOk(v, s) {
      if s < |w.sessions| { assert SessionOk(w, s); }
    }
  }

  /** `v` is `w` but for its holder, and for session `s`, now detached. */
  ghost predicate MarkedDetached(w: World, v: World, s: nat) {
    && s < |w.sessions| && v.sessions == w.sessions[s := w.sessions[s].(detached := true)]
    && v.registry == w.registry && v.closing == w.closing && v.flush == w.flush && v.log == w.log
  }

  /** The loop was gone: only the mark changes. */
  lemma DetachedGoneSane(w: World, v: World, s: nat)
    requires Sane(w) && w.holder == Detaching(s) && s < |w.sessions|
    requires w.sessions[s].actor < |w.actors| && w.actors[w.sessions[s].actor].Exited()
    requires MarkedDetached(w, v, s) && v.actors == w.actors && v.rows == w.rows && v.holder == Free
    ensures Sane(v)
  {
    var id := w.sessions[s].actor;
    assert SessionOk(w, s) && ActorOk(w, id);
    forall k | 0 <= k < |v.actors| ensures ActorOk(v, k) { assert ActorOk(w, k); }
    forall k | 0 <= k < |v.sessions| ensures SessionOk(v, k) { assert SessionOk(w, k); }
  }

  /** The session was not the holder's: nothing but the mark and the actor's save changes. */
  lemma DetachedOtherSane(w: World, v: World, s: nat)
    requires Sane(w) && w.holder == Detaching(s) && s < |w.sessions|
    requires MarkedDetached(w, v, s) && v.holder == Free && |v.actors| == |w.actors|
    requires w.sessions[s].actor < |w.actors| && w.actors[w.sessions[s].actor].session != Some(s)
    requires forall k | 0 <= k < |w.actors| :: v.actors[k] == w.actors[k].(dirty := v.actors[k].dirty)
    ensures Sane(v)
  {
    assert SessionOk(w, s);
    forall k | 0 <= k < |v.actors| ensures ActorOk(v, k) { assert ActorOk(w, k); }
    forall k | 0 <= k < |v.sessions| ensures SessionOk(v, k) { assert SessionOk(w, k); }
  }

  /** The holder let go: its actor is next to be stopped. */
  lemma DetachedIdleSane(w: World, v: World, s: nat, id: nat)
    requires Sane(w) && w.holder == Detaching(s) && s < |w.sessions| && id == w.sessions[s].actor
    requires id < |w.actors| && !w.actors[id].Exited() && w.actors[id].session == Some(s)
    requires MarkedDetached(w, v, s) && v.holder == Stopping(id, false)
    requires |v.actors| == |w.actors|
        && v.actors == w.actors[id := w.actors[id].(session := None, dirty := v.actors[id].dirty)]
    ensures Sane(v)
  {
    assert SessionOk(w, s) && ActorOk(w, id);
    forall k | 0 <= k < |v.actors| ensures ActorOk(v, k) { assert ActorOk(w, k); }
    forall k | 0 <= k < |v.sessions| ensures SessionOk(v, k) { assert SessionOk(w, k); }
  }

  lemma DetachedSane(w: World, ok: bool)
    requires Sane(w) && Enabled(w, DetachRuns(ok))
    ensures Sane(Detached(w, ok))
  {
    hide Sane, RowsAfter;
    var v, s := Detached(w, ok), w.holder.session;
    var id := w.sessions[s].actor;
    if w.actors[id].Exited() {
      DetachedGoneSane(w, v, s);
    } else if w.actors[id].session == Some(s) {
      DetachedIdleSane(w, v, s, id);
    } else {
      DetachedOtherSane(w, v, s);
    }
  }

  lemma StoppedSane(w: World, id: nat, flusher: bool)
    requires Sane(w) && id < |w.actors| && w.actors[id].Exited()
    requires (w.holder.Stopping? || w.holder.Waiting?) && w.holder.actor == id && w.holder.flusher == flusher
    ensures Sane(Stopped(w, id, flusher))
  {
    var v := Stopped(w, id, flusher);
    assert ActorOk(w, id);
    if v.flush.Flushing? {
      forall key <- v.registry ensures v.registry[key] in v.flush.queue {
        assert ActorOk(w, v.registry[key]);
      }
    }
    forall k | 0 <= k < |v.actors| ensures ActorOk(v, k) { assert ActorOk(w, k); }
    forall s | 0 <= s < |v.sessions| ensures SessionOk(v, s) { assert SessionOk(w, s); }
  }

  lemma ExitedSane(w: World, id: nat, ok: bool)
    requires Sane(w) && Enabled(w, LoopExits(id, ok))
    ensures Sane(Exited(w, id, ok))
  {
    hide Encode;
    var v := Exited(w, id, ok);
    assert ActorOk(w, id);
    forall k | 0 <= k < |v.actors| ensures ActorOk(v, k) { assert ActorOk(w, k); }
    forall s | 0 <= s < |v.sessions| ensures SessionOk(v, s) { assert SessionOk(w, s); }
  }

  lemma AskedSane(w: World)
    requires Sane(w) && Enabled(w, FlushAsks)
    ensures Sane(Asked(w))
  {
    var v := Asked(w);
    assert ActorOk(w, w.flush.queue[0]);
    forall k | 0 <= k < |v.actors| ensures ActorOk(v, k) { assert ActorOk(w, k); }
    forall s | 0 <= s < |v.sessions| ensures SessionOk(v, s) { assert SessionOk(w, s); }
  }

  /** A step that touches one actor's save and row only. */
  lemma SaveOnlySane(w: World, v: World, id: nat)
    requires Sane(w) && id < |w.actors|
    requires v == w.(actors := v.actors, rows := v.rows, log := v.log) && |v.actors| == |w.actors|
    requires forall k | 0 <= k < |w.actors| ::
               v.actors[k] == w.actors[k].(state := v.actors[k].state, dirty := v.actors[k].dirty)
    ensures Sane(v)
  {
    forall k | 0 <= k < |v.actors| ensures ActorOk(v, k) { assert ActorOk(w, k); }
    forall s | 0 <= s < |v.sessions| ensures SessionOk(v, s) { assert SessionOk(w, s); }
  }

  lemma LockStepSane(w: World, v: World)
    requires Sane(w) && HolderOk(v) && FlushOk(v)
    requires v == w.(holder := v.holder, flush := v.flush, closing := v.closing)
    requires v.closing || v.holder == w.holder || (v.holder.Detaching? && w.holder.Free?)
    requires v.holder == w.holder || (w.holder.Free? && !v.holder.Waiting?)
    requires w.closing ==> v.closing
    ensures Sane(v)
  {
    forall k | 0 <= k < |v.actors| ensures ActorOk(v, k) { assert ActorOk(w, k); }
    forall s | 0 <= s < |v.sessions| ensures SessionOk(v, s) { assert SessionOk(w, s); }
  }

  lemma CloseStopSane(w: World)
    requires Sane(w) && w.holder.Stopping? && w.holder.actor < |w.actors| && !w.actors[w.holder.actor].Exited()
    ensures var id := w.holder.actor;
            Sane(StopClosed(w, id, w.holder.flusher))
  {
    var id := w.holder.actor;
    var v := StopClosed(w, id, w.holder.flusher);
    assert ActorOk(w, id);
    forall k | 0 <= k < |v.actors| ensures ActorOk(v, k) { assert ActorOk(w, k); }
    forall s | 0 <= s < |v.sessions| ensures SessionOk(v, s) { assert SessionOk(w, s); }
  }

  lemma LastKickSane(w: World, s: nat)
    requires Sane(w) && Enabled(w, LastKick(s))
    ensures Sane(w.(sessions := KickedIn(w.sessions, s, false)))
  {
    var v := w.(sessions := KickedIn(w.sessions, s, false));
    forall k | 0 <= k < |v.actors| ensures ActorOk(v, k) { assert ActorOk(w, k); }
    forall k | 0 <= k < |v.sessions| ensures SessionOk(v, k) { assert SessionOk(w, k); }
  }

  // ---------- every step, every run ----------

  /** `Attach` never finds the loop of a registered actor gone, so its "save is closing" branch is dead code. */
  lemma AttachNeverFindsDead(w: World)
    requires Sane(w)
    ensures !Enabled(w, AttachFindsDead)
  {
    if w.holder.Attaching? { assert ActorOk(w, w.holder.actor); }
  }

  lemma StepSane(c: Config, p: Policy, w: World, e: Turn)
    requires Sane(w) && Enabled(w, e)
    ensures Sane(Fire(c, p, w, e))
  {
    hide Valid, Sane, AttachBegun, Attached, Detached, Stopped, Exited, Asked, CaughtUp, Acted, Persisted, RowsAfter,
         Lists;
    match e
    case BeginAttach(key, now, seed, fault) => AttachBegunSane(c, w, key, now, seed, fault);
    case AttachRuns => AttachedSane(c, p, w);
    case AttachFindsDead => AttachNeverFindsDead(w);
    case SessionActs(s, now, act) =>
      ReplacedSane(w, w.sessions[s].actor,
                   Acted(c, w.actors[w.sessions[s].actor], now, act),
                   Intended(w.actors[w.sessions[s].actor].key, now, act));
    case SessionAdvances(s, now) =>
      ReplacedSane(w, w.sessions[s].actor,
                   CaughtUp(c, w.actors[w.sessions[s].actor], now), Simulated(w.actors[w.sessions[s].actor].key, now));
    case Autosave(id, ok) => AutosaveSane(w, id, ok);
    case BeginDetach(s) => BeginDetachSane(w, s);
    case DetachRuns(ok) => DetachedSane(w, ok);
    case LastKick(s) => LastKickSane(w, s);
    case CloseStop =>
      if w.actors[w.holder.actor].Exited() {
        StoppedSane(w, w.holder.actor, w.holder.flusher);
      } else {
        CloseStopSane(w);
      }
    case LoopExits(id, ok) => ExitedSane(w, id, ok);
    case StopReturns => StoppedSane(w, w.holder.actor, w.holder.flusher);
    case BeginShutdown(queue) => BeginShutdownSane(w, queue);
    case FlushAsks => AskedSane(w);
    case FlushLocks => FlushLocksSane(w);
    case FlushEnds => FlushEndsSane(w);
  }

  lemma ReplacedSane(w: World, id: nat, a: Actor, entry: Entry)
    requires Sane(w) && id < |w.actors| && a == w.actors[id].(state := a.state, dirty := a.dirty)
    ensures Sane(w.(actors := w.actors[id := a], log := w.log + [entry]))
  {
    hide Sane;
    SaveOnlySane(w, w.(actors := w.actors[id := a], log := w.log + [entry]), id);
  }

  lemma BeginDetachSane(w: World, s: nat)
    requires Sane(w) && Enabled(w, BeginDetach(s))
    ensures Sane(w.(holder := Detaching(s)))
  {
    hide ActorOk, SessionOk;
    LockStepSane(w, w.(holder := Detaching(s)));
  }

  lemma FlushLocksSane(w: World)
    requires Sane(w) && Enabled(w, FlushLocks)
    ensures Sane(w.(holder := Stopping(w.flush.queue[0], true)))
  {
    hide ActorOk, SessionOk;
    LockStepSane(w, w.(holder := Stopping(w.flush.queue[0], true)));
  }

  lemma AutosaveSane(w: World, id: nat, ok: bool)
    requires Sane(w) && Enabled(w, Autosave(id, ok))
    ensures Sane(w.(actors := w.actors[id := Persisted(w.actors[id], w.rows, ok)],
        rows := RowsAfter(w.actors[id], w.rows, ok)))
  {
    hide RowsAfter, Sane;
    SaveOnlySane(w, w.(actors := w.actors[id := Persisted(w.actors[id], w.rows, ok)],
        rows := RowsAfter(w.actors[id], w.rows, ok)), id);
  }

  lemma BeginShutdownSane(w: World, queue: seq<nat>)
    requires Sane(w) && Enabled(w, BeginShutdown(queue))
    ensures Sane(w.(closing := true, flush := Flushing(queue, false)))
  {
    var v := w.(closing := true, flush := Flushing(queue, false));
    forall i | 0 <= i < |queue| ensures queue[i] < |w.actors| {
      assert queue[i] in queue && queue[i] in w.registry.Values;
    }
    LockStepSane(w, v);
  }

  lemma FlushEndsSane(w: World)
    requires Sane(w) && Enabled(w, FlushEnds)
    ensures Sane(w.(flush := Flushed))
  {
    assert w.registry == map[];
    LockStepSane(w, w.(flush := Flushed));
  }

  lemma {:induction false} RunsAreSane(c: Config, p: Policy, rows: Rows, turns: seq<Turn>, w: World)
    requires Reaches(c, p, rows, turns, w)
    ensures Sane(w)
    decreases |turns|
  {
    hide Sane, Fire, Enabled, Valid;
    if turns == [] {
      FreshIsSane(rows);
    } else {
      var last := |turns| - 1;
      var v :| Reaches(c, p, rows, turns[..last], v) && Enabled(v, turns[last]) && w == Fire(c, p, v, turns[last]);
      RunsAreSane(c, p, rows, turns[..last], v);
      StepSane(c, p, v, turns[last]);
    }
  }

  lemma FreshIsSane(rows: Rows)
    ensures Sane(Fresh(rows))
  {
  }

  // ---------- what it comes to ----------

  ghost predicate Running(w: World, id: nat) { id < |w.actors| && !w.actors[id].Exited() }

  /** Whenever the lock is free, a loop runs exactly for the registered actors; so each save has at most one writer. */
  lemma SingleWriter(c: Config, p: Policy, rows: Rows, turns: seq<Turn>, w: World)
    requires Reaches(c, p, rows, turns, w) && w.holder.Free?
    ensures forall id: nat :: Running(w, id) <==> Registered(w, id)
    ensures forall i: nat, j: nat :: Running(w, i) && Running(w, j) && w.actors[i].key == w.actors[j].key ==> i == j
  {
    hide Reaches, Valid;
    RunsAreSane(c, p, rows, turns, w);
    forall id: nat ensures Running(w, id) <==> Registered(w, id) {
      if id < |w.actors| { assert ActorOk(w, id); }
    }
  }

  /** Even while the lock is held no two loops run on one save. */
  lemma NeverTwoWriters(c: Config, p: Policy, rows: Rows, turns: seq<Turn>, w: World, i: nat, j: nat)
    requires Reaches(c, p, rows, turns, w)
    requires Running(w, i) && Running(w, j) && w.actors[i].key == w.actors[j].key
    ensures i == j
  {
    hide Reaches, Valid;
    RunsAreSane(c, p, rows, turns, w);
    assert ActorOk(w, i) && ActorOk(w, j);
  }

  ghost predicate Holds(w: World, s: nat, id: nat) {
    s < |w.sessions| && w.sessions[s].actor == id && !w.sessions[s].fired && !w.sessions[s].detached
  }

  /** A session still in possession, neither kicked nor detached, is the one its actor knows; and before a shutdown,
      whenever the lock is free, every registered actor has exactly one such session: no save stays open for nobody. */
  lemma OneSessionEach(c: Config, p: Policy, rows: Rows, turns: seq<Turn>, w: World, id: nat)
    requires Reaches(c, p, rows, turns, w) && w.holder.Free? && !w.closing && Registered(w, id)
    ensures w.actors[id].session.Some?
    ensures forall s: nat :: Holds(w, s, id) <==> s == w.actors[id].session.value
  {
    hide Reaches, Valid;
    RunsAreSane(c, p, rows, turns, w);
    assert ActorOk(w, id);
    forall s: nat ensures Holds(w, s, id) <==> s == w.actors[id].session.value {
      if s < |w.sessions| { assert SessionOk(w, s); }
    }
  }

  /** A session that lost its save without having detached was sent its notice: nobody is signed off in silence. */
  lemma KickedAreTold(c: Config, p: Policy, rows: Rows, turns: seq<Turn>, w: World, s: nat)
    requires Reaches(c, p, rows, turns, w) && s < |w.sessions| && !w.sessions[s].detached
    ensures w.sessions[s].actor < |w.actors|
    ensures w.actors[w.sessions[s].actor].session == Some(s) || (w.sessions[s].sends == 1 && w.sessions[s].closes == 1)
  {
    hide Reaches, Valid;
    RunsAreSane(c, p, rows, turns, w);
    assert SessionOk(w, s);
  }

  /** No channel is closed twice, and a `kicked` channel never has to hold more than the one notice it has room for. */
  lemma ChannelsCloseOnce(c: Config, p: Policy, rows: Rows, turns: seq<Turn>, w: World)
    requires Reaches(c, p, rows, turns, w)
    ensures forall id: nat :: id < |w.actors| ==> w.actors[id].stops <= 1 && w.actors[id].exits <= w.actors[id].stops
    ensures forall s: nat :: s < |w.sessions| ==> w.sessions[s].sends <= w.sessions[s].closes <= 1
    ensures !Enabled(w, AttachFindsDead)
  {
    hide Reaches, Valid, Enabled;
    RunsAreSane(c, p, rows, turns, w);
    AttachNeverFindsDead(w);
    forall id: nat | id < |w.actors| ensures w.actors[id].stops <= 1 && w.actors[id].exits <= w.actors[id].stops {
      assert ActorOk(w, id);
    }
    forall s: nat | s < |w.sessions| ensures w.sessions[s].sends <= w.sessions[s].closes <= 1 {
      assert SessionOk(w, s);
    }
  }
}
