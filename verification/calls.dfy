// Whole calls of the manager are runs of the protocol, so what holds of every run holds after them; and what a player
// gets from a disconnect and an operator from a shutdown.
module Calls {
  import opened Content
  import opened Derive
  import opened Payloads
  import opened Actors
  import opened Registry
  import opened Writers
  import opened Saves
  import opened Shutdowns
  import opened Managers

  lemma AttachIsRun(c: Config, p: Policy, rows: Rows, turns: seq<Turn>, w: World, key: Key, now: int, seed: nat,
                    fault: Fault)
    returns (more: seq<Turn>)
    requires Reaches(c, p, rows, turns, w) && w.holder.Free?
    ensures Reaches(c, p, rows, turns + more, AttachCall(c, p, w, key, now, seed, fault))
    ensures AttachCall(c, p, w, key, now, seed, fault).holder.Free?
  {
    hide Reaches, Valid, AttachBegun, Sane;
    RunsAreSane(c, p, rows, turns, w);
    Begun(c, w, key, now, seed, fault);
    var e := BeginAttach(key, now, seed, fault);
    OneMore(c, p, rows, turns, w, e);
    var w1 := Fire(c, p, w, e);
    more := [e];
    if Enabled(w1, AttachRuns) {
      OneMore(c, p, rows, turns + [e], w1, AttachRuns);
      more := [e, AttachRuns];
      assert turns + [e] + [AttachRuns] == turns + more;
    }
  }

  /** `stopActorLocked` as turns. */
  lemma StopIsRun(c: Config, p: Policy, rows: Rows, turns: seq<Turn>, w: World, ok: bool) returns (more: seq<Turn>)
    requires Reaches(c, p, rows, turns, w) && w.holder.Stopping? && w.holder.actor < |w.actors|
    ensures Reaches(c, p, rows, turns + more, StopCall(w, w.holder.actor, w.holder.flusher, ok))
  {
    hide Reaches, Valid, Fire, Stopped, Exited, Sane;
    var id, flusher := w.holder.actor, w.holder.flusher;
    OneMore(c, p, rows, turns, w, CloseStop);
    FireCloseStop(c, p, w);
    more := [CloseStop];
    if !w.actors[id].Exited() {
      var w1 := StopClosed(w, id, flusher);
      OneMore(c, p, rows, turns + more, w1, LoopExits(id, ok));
      FireLoopExits(c, p, w1, id, ok);
      var w2 := Exited(w1, id, ok);
      ExitMoves(w1, id, flusher, ok);
      ExitedLoop(w1, id, ok);
      assert turns + more + [LoopExits(id, ok)] == turns + [CloseStop, LoopExits(id, ok)];
      more := [CloseStop, LoopExits(id, ok)];
      OneMore(c, p, rows, turns + more, w2, StopReturns);
      FireStopReturns(c, p, w2);
      assert turns + more + [StopReturns] == turns + [CloseStop, LoopExits(id, ok), StopReturns];
      more := [CloseStop, LoopExits(id, ok), StopReturns];
    }
  }

  lemma ExitedLoop(w: World, id: nat, ok: bool)
    requires id < |w.actors|
    ensures var v := Exited(w, id, ok); |v.actors| == |w.actors| && v.actors[id].Exited() && v.holder == w.holder
  {
    hide Encode;
  }

  lemma DetachIsRun(c: Config, p: Policy, rows: Rows, turns: seq<Turn>, w: World, s: nat, ok: bool, finalOk: bool)
      returns (more: seq<Turn>)
    requires Reaches(c, p, rows, turns, w) && w.holder.Free? && s < |w.sessions|
    ensures w.sessions[s].actor < |w.actors| && Reaches(c, p, rows, turns + more, DetachCall(w, s, ok, finalOk))
  {
    hide Reaches, Valid, Fire, Persisted, RowsAfter, StopCall, HolderOk, FlushOk, RegistryOk, ActorOk;
    RunsAreSane(c, p, rows, turns, w);
    assert SessionOk(w, s);
    var id := w.sessions[s].actor;
    OneMore(c, p, rows, turns, w, BeginDetach(s));
    FireSession(c, p, w, s);
    var w0 := w.(holder := Detaching(s));
    OneMore(c, p, rows, turns + [BeginDetach(s)], w0, DetachRuns(ok));
    FireDetachRuns(c, p, w0, ok);
    var w1 := Detached(w0, ok);
    more := [BeginDetach(s), DetachRuns(ok)];
    assert turns + [BeginDetach(s)] + [DetachRuns(ok)] == turns + more;
    var w2 := w1;
    if w1.holder.Stopping? {
      var rest := StopIsRun(c, p, rows, turns + more, w1, finalOk);
      assert turns + more + rest == turns + (more + rest);
      more := more + rest;
      w2 := StopCall(w1, id, false, finalOk);
      StopKeepsSessions(w1, id, false, finalOk);
    }
    OneMore(c, p, rows, turns + more, w2, LastKick(s));
    FireSession(c, p, w2, s);
    assert turns + more + [LastKick(s)] == turns + (more + [LastKick(s)]);
    more := more + [LastKick(s)];
  }

  lemma StopKeepsSessions(w: World, id: nat, flusher: bool, ok: bool)
    requires id < |w.actors|
    ensures StopCall(w, id, flusher, ok).sessions == w.sessions
  {
    hide Persisted, RowsAfter;
  }

  /** A player who disconnects leaves nobody running the save, and finds it again as it was if either of the two
      writes got through: the one on detaching or the loop's last. */
  lemma DetachSaves(c: Config, p: Policy, rows: Rows, turns: seq<Turn>, w: World, s: nat, id: nat, ok: bool,
                    finalOk: bool)
    requires Reaches(c, p, rows, turns, w) && w.holder.Free? && id < |w.actors| && w.actors[id].session == Some(s)
    requires !w.actors[id].Exited()
    ensures s < |w.sessions| && w.sessions[s].actor == id
    ensures var v := DetachCall(w, s, ok, finalOk); var key := w.actors[id].key;
            && !Live(v, key) && key !in v.registry && v.actors[id].Exited() && v.sessions[s].fired
            && (ok || finalOk ==> Loads(v.rows, key, w.actors[id].state) && v.log == w.log)
            && (!ok && !finalOk ==> v.rows == w.rows && (Loads(v.rows, key, w.actors[id].state) || w.actors[id].dirty))
  {
    hide Reaches, Valid, Encode, DecodeState, HolderOk, FlushOk;
    RunsAreSafe(c, p, rows, turns, w);
    assert ActorOk(w, id) && KeyOk(c, w, w.actors[id].key);
    RoundTrip(w.actors[id].state);
  }

  /** A final write that is accepted gives nothing up. */
  lemma StopKeepsLog(c: Config, w: World, id: nat, flusher: bool)
    requires Sane(w) && Safe(c, w) && w.holder == Stopping(id, flusher)
    ensures id < |w.actors| && StopCall(w, id, flusher, true).log == w.log
  {
    hide SessionOk, FlushOk, Encode, Loads, Valid;
    assert ActorOk(w, id) && KeyOk(c, w, w.actors[id].key);
  }

  lemma FlushOneIsRun(c: Config, p: Policy, rows: Rows, turns: seq<Turn>, w: World, ok: bool) returns (more: seq<Turn>)
    requires Reaches(c, p, rows, turns, w) && w.holder.Free? && w.flush.Flushing? && !w.flush.asked
        && w.flush.queue != []
    ensures Sane(w) && w.flush.queue[0] < |w.actors| && Enabled(w, FlushAsks)
    ensures Reaches(c, p, rows, turns + more, FlushOne(w, ok)) && (ok ==> FlushOne(w, ok).log == w.log)
  {
    hide Reaches, Valid, Sane, Safe, StopCall, Fire, Asked;
    RunsAreSane(c, p, rows, turns, w);
    FlushOneSane(w, ok);
    OneMore(c, p, rows, turns, w, FlushAsks);
    FireFlush(c, p, w);
    AskMoves(w);
    var w1 := Asked(w);
    FireFlush(c, p, w1);
    OneMore(c, p, rows, turns + [FlushAsks], w1, FlushLocks);
    var w2 := w1.(holder := Stopping(w.flush.queue[0], true));
    assert turns + [FlushAsks] + [FlushLocks] == turns + [FlushAsks, FlushLocks];
    var rest := StopIsRun(c, p, rows, turns + [FlushAsks, FlushLocks], w2, ok);
    RunsAreSafe(c, p, rows, turns + [FlushAsks, FlushLocks], w2);
    StopKeepsLog(c, w2, w.flush.queue[0], true);
    more := [FlushAsks, FlushLocks] + rest;
    assert turns + [FlushAsks, FlushLocks] + rest == turns + more;
  }

  lemma {:induction false} FlushIsRun(c: Config, p: Policy, rows: Rows, turns: seq<Turn>, w: World, up: nat -> bool)
      returns (more: seq<Turn>)
    requires Reaches(c, p, rows, turns, w) && w.holder.Free? && w.flush.Flushing? && !w.flush.asked
    ensures Sane(w) && Reaches(c, p, rows, turns + more, FlushCall(w, up)) && FlushCall(w, up).flush.Flushed?
    ensures (forall id :: up(id)) ==> FlushCall(w, up).log == w.log
    decreases if w.flush.Flushing? then |w.flush.queue| else 0
  {
    hide Reaches, Valid, Sane, FlushOne;
    RunsAreSane(c, p, rows, turns, w);
    if w.flush.queue == [] {
      OneMore(c, p, rows, turns, w, FlushEnds);
      more := [FlushEnds];
    } else {
      var ok := up(w.flush.queue[0]);
      var first := FlushOneIsRun(c, p, rows, turns, w, ok);
      FlushOneSane(w, ok);
      var rest := FlushIsRun(c, p, rows, turns + first, FlushOne(w, ok), up);
      assert turns + first + rest == turns + (first + rest);
      more := first + rest;
    }
  }

  /** A whole shutdown leaves an empty registry and no loop, and in the store every save anyone ever opened, with all
      that was acknowledged for it, but for those whose last write failed. */
  lemma ShutdownSaves(c: Config, p: Policy, rows: Rows, turns: seq<Turn>, w: World, queue: seq<nat>, up: nat -> bool)
    requires Reaches(c, p, rows, turns, w) && Enabled(w, BeginShutdown(queue))
    ensures Sane(w.(closing := true, flush := Flushing(queue, false)))
    ensures var v := FlushCall(w.(closing := true, flush := Flushing(queue, false)), up);
            && ((forall id :: up(id)) ==> v.log == w.log)
            && v.flush.Flushed? && v.registry == map[] && (forall id: nat :: !Running(v, id))
            && (forall key :: Replay(c, v.log, key).Some? ==> Loads(v.rows, key, Replay(c, v.log, key).value))
  {
    hide Reaches, Valid, Sane, FlushCall, Loads;
    var begun := w.(closing := true, flush := Flushing(queue, false));
    OneMore(c, p, rows, turns, w, BeginShutdown(queue));
    var more := FlushIsRun(c, p, rows, turns + [BeginShutdown(queue)], begun, up);
    FlushedMeansSaved(c, p, rows, turns + [BeginShutdown(queue)] + more, FlushCall(begun, up));
  }
}
