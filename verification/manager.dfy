// The manager's own methods, each run from lock to unlock with nobody in between, updating the registry in place. What
// a call does is what the protocol's steps do one after the other.
module Managers {
  import opened Content
  import opened Farms
  import opened Derive
  import opened Payloads
  import opened Actors
  import opened Registry
  import opened Writers

  datatype AttachOutcome = ShuttingDown | StoreFailed | TooNewSave | SaveBusy | Handed(session: nat, created: bool)

  // ---------- whole calls, as steps in a row ----------

  ghost function AttachCall(c: Config, p: Policy, w: World, key: Key, now: int, seed: nat, fault: Fault): World {
    var w1 := AttachBegun(c, w, key, now, seed, fault);
    if Enabled(w1, AttachRuns) then Attached(c, p, w1) else w1
  }

  /** `stopActorLocked` from its select to the end. */
  function StopCall(w: World, id: nat, flusher: bool, ok: bool): World
    requires id < |w.actors|
  {
    if w.actors[id].Exited() then Stopped(w, id, flusher)
    else Stopped(Exited(StopClosed(w, id, flusher), id, ok), id, flusher)
  }

  function DetachCall(w: World, s: nat, ok: bool, finalOk: bool): World
    requires s < |w.sessions| && w.sessions[s].actor < |w.actors|
  {
    var w1 := Detached(w.(holder := Detaching(s)), ok);
    var w2 := if w1.holder.Stopping? then StopCall(w1, w.sessions[s].actor, false, finalOk) else w1;
    w2.(sessions := KickedIn(w2.sessions, s, false))
  }

  /** The shutdown's goroutine: for each actor in turn, sign its session off and stop it under the lock. */
  ghost function FlushCall(w: World, up: nat -> bool): World
    requires Sane(w) && w.holder.Free? && w.flush.Flushing? && !w.flush.asked
    decreases if w.flush.Flushing? then |w.flush.queue| else 0
  {
    if w.flush.queue == [] then w.(flush := Flushed)
    else
      FlushOneSane(w, up(w.flush.queue[0]));
      FlushCall(FlushOne(w, up(w.flush.queue[0])), up)
  }

  ghost function FlushOne(w: World, ok: bool): World
    requires w.flush.Flushing? && w.flush.queue != [] && w.flush.queue[0] < |w.actors| && Enabled(w, FlushAsks)
  {
    StopCall(Asked(w).(holder := Stopping(w.flush.queue[0], true)), w.flush.queue[0], true, ok)
  }

  /** Taking the lock: a holder nobody is busy with. */
  lemma StopCallSane(w: World, id: nat, flusher: bool, ok: bool)
    requires Sane(w) && w.holder == Stopping(id, flusher)
    ensures id < |w.actors| && Sane(StopCall(w, id, flusher, ok)) && StopCall(w, id, flusher, ok).holder.Free?
  {
    hide SessionOk, Persisted, RowsAfter, FlushOk;
    if w.actors[id].Exited() {
      StoppedSane(w, id, flusher);
    } else {
      CloseStopSane(w);
      var w1 := StopClosed(w, id, flusher);
      assert ActorOk(w1, id);
      ExitedSane(w1, id, ok);
      var w2 := Exited(w1, id, ok);
      assert ActorOk(w2, id);
      StoppedSane(w2, id, flusher);
    }
  }

  lemma FlushOneSane(w: World, ok: bool)
    requires Sane(w) && w.holder.Free? && w.flush.Flushing? && !w.flush.asked && w.flush.queue != []
    ensures w.flush.queue[0] < |w.actors| && Enabled(w, FlushAsks)
    ensures var v := FlushOne(w, ok); Sane(v) && v.holder.Free? && v.flush == Flushing(w.flush.queue[1..], false)
  {
    hide SessionOk, Persisted, RowsAfter;
    assert ActorOk(w, w.flush.queue[0]);
    var w1 := Asked(w);
    AskedSane(w);
    FlushLocksSane(w1);
    hide Sane;
    var w2 := w1.(holder := Stopping(w.flush.queue[0], true));
    StopCallSane(w2, w.flush.queue[0], true, ok);
  }

  class Manager {
    const policy: Policy
    var registry: map<Key, nat>
    var actors: seq<Actor>
    var sessions: seq<Session>
    var rows: Rows
    var closing: bool
    ghost var holder: Holder
    ghost var flush: Flush
    ghost var log: seq<Entry>

    ghost function View(): World
      reads this
    {
      World(registry, actors, sessions, rows, closing, holder, flush, log)
    }

    constructor (policy: Policy, rows: Rows)
      ensures this.policy == policy && View() == Fresh(rows)
    {
      this.policy, this.rows := policy, rows;
      registry, actors, sessions, closing := map[], [], [], false;
      holder, flush, log := Free, NotStarted, [];
    }

    /** `stopActorLocked`: unless the loop is gone already, close `stop` and wait for the final flush; then forget the
        actor if it is still the registered one. */
    method StopActorLocked(id: nat, ok: bool)
      requires id < |actors| && holder.Stopping?
      modifies `registry, `actors, `rows, `holder, `flush, `log
      ensures View() == StopCall(old(View()), id, old(holder).flusher, ok)
    {
      hide Persisted, RowsAfter;
      ghost var flusher := holder.flusher;
      if !actors[id].Exited() {
        CloseStop(id, flusher);
        LoopEnds(id, ok);
      }
      Forget(id, flusher);
    }

    method CloseStop(id: nat, ghost flusher: bool)
      requires id < |actors|
      modifies `actors, `holder
      ensures View() == StopClosed(old(View()), id, flusher)
    {
      actors := actors[id := actors[id].(stops := actors[id].stops + 1)];
      holder := Waiting(id, flusher);
    }

    method LoopEnds(id: nat, ok: bool)
      requires id < |actors|
      modifies `actors, `rows, `log
      ensures View() == Exited(old(View()), id, ok)
    {
      hide Persisted, RowsAfter;
      var a := actors[id];
      var b := Persisted(a, rows, ok);
      rows := RowsAfter(a, rows, ok);
      actors := actors[id := b.(exits := b.exits + 1)];
      if b.dirty { log := log + [Dropped(a.key)]; }
    }

    method Forget(id: nat, ghost flusher: bool)
      requires id < |actors|
      modifies `registry, `holder, `flush
      ensures View() == Stopped(old(View()), id, flusher)
    {
      var key := actors[id].key;
      if key in registry && registry[key] == id { registry := registry - {key}; }
      holder := Free;
      if flusher && flush.Flushing? && flush.queue != [] { flush := Flushing(flush.queue[1..], false); }
    }

    /** `Attach` up to the actor: refuse while closing, find the running save or load or create it. */
    method FindActor(c: Config, key: Key, now: int, seed: nat, fault: Fault)
        returns (failed: Option<AttachOutcome>, created: bool)
      requires holder.Free?
      modifies `registry, `actors, `rows, `holder, `log
      ensures View() == AttachBegun(c, old(View()), key, now, seed, fault)
      ensures failed.None? <==> holder.Attaching?
      ensures failed.Some? ==> !failed.value.Handed? && failed.value != SaveBusy
      ensures failed == Some(ShuttingDown) <==> old(closing)
      ensures failed.None? ==> (created <==> key !in old(registry) && key !in old(rows))
    {
      hide Valid, DecodeState, Stored, Farms.New;
      created := false;
      if closing { return Some(ShuttingDown), false; }
      if fault.TouchFails? { return Some(StoreFailed), false; }
      if key in registry {
        holder := Attaching(registry[key], now);
        return None, false;
      }
      if fault.LoadFails? { return Some(StoreFailed), false; }
      if key !in rows {
        rows := rows[key := Stored(New(c, seed, now))];
        created := true;
      }
      assert rows == old(rows)[key := rows[key]];
      match DecodeState(rows[key]) {
        case TooNew(_) => return Some(TooNewSave), false;
        case Loaded(save) => StartActor(key, save.farm, now); return None, created;
      }
    }

    method StartActor(key: Key, state: Farm, now: int)
      modifies `registry, `actors, `holder, `log
      ensures View() == old(View()).(actors := old(actors) + [Actor(key, state, false, None, 0, 0)],
                                     registry := old(registry)[key := |old(actors)|],
                                     holder := Attaching(|old(actors)|, now),
                                     log := old(log) + [Opened(key, state)])
    {
      registry := registry[key := |actors|];
      holder := Attaching(|actors|, now);
      log := log + [Opened(key, state)];
      actors := actors + [Actor(key, state, false, None, 0, 0)];
    }

    /** The mailed closure, with the outcome it hands back. */
    method Hand(c: Config, id: nat, now: int) returns (busy: bool)
      requires id < |actors| && !actors[id].Exited() && holder == Attaching(id, now)
      requires actors[id].session.Some? ==> actors[id].session.value < |sessions|
      modifies `actors, `sessions, `holder, `log
      ensures View() == Attached(c, policy, old(View()))
      ensures busy <==> old(actors)[id].session.Some? && policy.Refuse?
      ensures |sessions| == |old(sessions)| + if busy then 0 else 1
    {
      hide Valid, CaughtUp;
      holder := Free;
      var a := actors[id];
      if a.session.Some? {
        if policy.Refuse? { return true; }
        sessions := KickedIn(sessions, a.session.value, true);
      }
      actors := actors[id := Installed(c, a, |sessions|, now)];
      sessions := sessions + [Session(id, false, 0, 0, false)];
      log := log + [Simulated(a.key, now)];
      return false;
    }

    method Attach(c: Config, key: Key, now: int, seed: nat, fault: Fault) returns (r: AttachOutcome)
      requires Sane(View()) && holder.Free?
      modifies this
      ensures View() == AttachCall(c, policy, old(View()), key, now, seed, fault)
      ensures r == ShuttingDown <==> old(closing)
      ensures r.Handed? <==> |sessions| == |old(sessions)| + 1
      ensures r.Handed? ==> r.session == |old(sessions)| && (r.created <==> key !in old(registry) && key !in old(rows))
    {
      hide Valid, AttachBegun, Attached, DecodeState, CaughtUp;
      AttachBegunSane(c, View(), key, now, seed, fault);
      Begun(c, View(), key, now, seed, fault);
      var failed, created := FindActor(c, key, now, seed, fault);
      if failed.Some? { return failed.value; }
      var id :| id < |actors| && key in registry && registry[key] == id;
      assert ActorOk(View(), id);
      var busy := Hand(c, id, now);
      r := if busy then SaveBusy else Handed(|sessions| - 1, created);
    }

    /** `detach`, then the session's last kick. */
    method Detach(s: nat, ok: bool, finalOk: bool)
      requires Sane(View()) && holder.Free? && s < |sessions|
      modifies this
      ensures old(sessions)[s].actor < |old(actors)| && View() == DetachCall(old(View()), s, ok, finalOk)
    {
      hide ActorOk, Persisted, RowsAfter, StopCall;
      assert SessionOk(View(), s);
      holder := Detaching(s);
      var id := sessions[s].actor;
      var idle := LetGo(s, ok);
      if idle { StopActorLocked(id, finalOk); }
      sessions := KickedIn(sessions, s, false);
    }

    /** The closure mailed by `detach`. */
    method LetGo(s: nat, ok: bool) returns (idle: bool)
      requires s < |sessions| && sessions[s].actor < |actors| && holder == Detaching(s)
      modifies `actors, `sessions, `rows, `holder
      ensures View() == Detached(old(View()), ok)
      ensures idle <==> holder == Stopping(sessions[s].actor, false)
      ensures !idle ==> holder.Free?
    {
      hide Persisted, RowsAfter;
      var id := sessions[s].actor;
      var a := actors[id];
      sessions := sessions[s := sessions[s].(detached := true)];
      idle := false;
      if !a.Exited() {
        idle := a.session == Some(s);
        a := Released(a, s);
        actors := actors[id := Persisted(a, rows, ok)];
        rows := RowsAfter(a, rows, ok);
      }
      holder := if idle then Stopping(id, false) else Free;
    }

    /** The closure mailed by the shutdown. */
    method SignOff(id: nat)
      requires Sane(View()) && flush.Flushing? && flush.queue != [] && !flush.asked && flush.queue[0] == id
      modifies `actors, `sessions, `flush
      ensures Enabled(old(View()), FlushAsks) && View() == Asked(old(View()))
    {
      assert ActorOk(View(), id);
      flush := flush.(asked := true);
      var a := actors[id];
      if !a.Exited() && a.session.Some? {
        sessions := KickedIn(sessions, a.session.value, true);
        actors := actors[id := SignedOff(a)];
      }
    }

    method FlushActor(id: nat, ok: bool)
      requires Sane(View()) && holder.Free? && flush.Flushing? && flush.queue != [] && !flush.asked
          && flush.queue[0] == id
      modifies this
      ensures Enabled(old(View()), FlushAsks) && View() == FlushOne(old(View()), ok)
    {
      hide Sane, StopCall;
      FlushOneSane(View(), ok);
      SignOff(id);
      holder := Stopping(id, true);
      StopActorLocked(id, ok);
    }

    /** `Shutdown`: refuse newcomers from now on, then flush every actor registered at this moment. `queue` is the order
        in which the map happens to be walked; `up` says for which actors the store accepts the final write. */
    method Shutdown(queue: seq<nat>, up: nat -> bool)
      requires Sane(View()) && holder.Free? && flush.NotStarted? && Lists(queue, registry)
      modifies this
      ensures var w := old(View()).(closing := true, flush := Flushing(queue, false));
              Sane(w) && View() == FlushCall(w, up)
    {
      hide Sane, FlushOne, Lists;
      BeginShutdownSane(View(), queue);
      closing := true;
      flush := Flushing(queue, false);
      ghost var goal := FlushCall(View(), up);
      for k := 0 to |queue|
        invariant Sane(View()) && holder.Free? && flush == Flushing(queue[k..], false)
        invariant FlushCall(View(), up) == goal
      {
        FlushOneSane(View(), up(queue[k]));
        FlushActor(queue[k], up(queue[k]));
      }
      flush := Flushed;
    }
  }

  /** `Attach` goes on to mail its closure exactly for the registered actor of its key. */
  lemma Begun(c: Config, w: World, key: Key, now: int, seed: nat, fault: Fault)
    requires Sane(w) && w.holder.Free?
    ensures var w1 := AttachBegun(c, w, key, now, seed, fault);
            && w1.sessions == w.sessions
            && (w1.holder.Attaching? ==>
                  key in w1.registry && w1.holder == Attaching(w1.registry[key], now) && Enabled(w1, AttachRuns))
            && (!w1.holder.Attaching? ==> w1.holder.Free?)
  {
    hide Valid, DecodeState, Stored, Farms.New;
    if key in w.registry { assert ActorOk(w, w.registry[key]); }
  }
}
