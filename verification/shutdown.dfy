// The shutdown flush: it can always finish, it leaves nothing running and nothing unsaved, and nothing moves after it.
module Shutdowns {
  import opened Content
  import opened Derive
  import opened Payloads
  import opened Actors
  import opened Registry
  import opened Writers
  import opened Saves

  /** Once the flush has finished the registry is empty, no loop runs, and every save ever acknowledged is in its row
      with every acknowledged catch-up and intent applied, unless its final write failed. */
  lemma FlushedMeansSaved(c: Config, p: Policy, rows: Rows, turns: seq<Turn>, w: World)
    requires Reaches(c, p, rows, turns, w) && w.flush.Flushed?
    ensures w.closing && w.registry == map[] && forall id: nat :: !Running(w, id)
    ensures forall key :: Replay(c, w.log, key).Some? ==> Loads(w.rows, key, Replay(c, w.log, key).value)
  {
    hide Valid, Reaches, Loads;
    RunsAreSafe(c, p, rows, turns, w);
    forall id: nat ensures !Running(w, id) {
      if id < |w.actors| { assert ActorOk(w, id); }
    }
    forall key ensures Replay(c, w.log, key).Some? ==> Loads(w.rows, key, Replay(c, w.log, key).value) {
      assert KeyOk(c, w, key);
    }
  }

  /** After the flush, whatever callers still try, no save is opened, changed or written, and nothing more is
      acknowledged. */
  lemma NothingAfterFlush(c: Config, p: Policy, rows: Rows, turns: seq<Turn>, w: World, e: Turn)
    requires Reaches(c, p, rows, turns, w) && w.flush.Flushed? && Enabled(w, e)
    ensures var v := Fire(c, p, w, e);
            && v.flush.Flushed? && v.closing && v.registry == map[]
            && v.actors == w.actors && v.rows == w.rows && v.log == w.log && |v.sessions| == |w.sessions|
  {
    hide Valid, Reaches, Safe, SessionOk, Persisted, RowsAfter, CaughtUp, Acted;
    RunsAreSafe(c, p, rows, turns, w);
    NobodyRuns(w);
    assert !w.holder.Attaching? && !w.holder.Waiting? && !w.holder.Stopping?;
  }

  lemma NobodyRuns(w: World)
    requires Sane(w) && w.registry == map[]
    ensures forall id: nat | id < |w.actors| :: w.actors[id].Exited()
  {
    forall id: nat | id < |w.actors| ensures w.actors[id].Exited() { assert ActorOk(w, id); }
  }

  // ---------- a held lock is always released ----------

  /** The next thing to do for whoever holds the lock, or for the loop it waits for. */
  function LockTurn(w: World, ok: bool): Turn
    requires !w.holder.Free?
  {
    match w.holder
    case Attaching(_, _) => AttachRuns
    case Detaching(_) => DetachRuns(ok)
    case Stopping(_, _) => CloseStop
    case Waiting(id, _) => if id < |w.actors| && w.actors[id].Exited() then StopReturns else LoopExits(id, ok)
  }

  /** How many of those turns are left at most. */
  function Held(w: World): (n: nat)
    ensures n <= 4
  {
    match w.holder
    case Free => 0
    case Attaching(_, _) => 1
    case Waiting(id, _) => if id < |w.actors| && w.actors[id].Exited() then 1 else 2
    case Stopping(_, _) => 3
    case Detaching(_) => 4
  }

  /** The holder, or the loop it waits for, is never blocked ... */
  lemma LockIsReady(w: World, ok: bool)
    requires Sane(w) && !w.holder.Free?
    ensures Enabled(w, LockTurn(w, ok))
  {
    match w.holder
    case Detaching(s) => assert SessionOk(w, s);
    case Waiting(id, _) => assert ActorOk(w, id);
    case Stopping(id, _) =>
    case Attaching(id, _) => assert ActorOk(w, id);
  }

  /** What a turn of the holder does to the flush: nothing, or the flusher has finished with the head of its queue. */
  ghost predicate FlushAfter(w: World, v: World) {
    v.flush == w.flush
    || (v.holder.Free? && ByFlusher(w) && w.flush.Flushing? && w.flush.queue != []
        && v.flush == Flushing(w.flush.queue[1..], false))
  }

  predicate ByFlusher(w: World) { (w.holder.Stopping? || w.holder.Waiting?) && w.holder.flusher }

  /** The flusher, while it holds the lock, has asked the head of its queue. */
  ghost predicate FlusherAtHead(w: World) {
    ByFlusher(w) ==> w.flush.Flushing? && w.flush.queue != [] && w.flush.asked
  }

  lemma DetachMoves(w: World, ok: bool)
    requires Enabled(w, DetachRuns(ok))
    ensures var v := Detached(w, ok); v.flush == w.flush && Held(v) < Held(w) && !ByFlusher(v)
  {
    hide Persisted, RowsAfter;
  }

  lemma StopMoves(w: World, id: nat, flusher: bool)
    requires id < |w.actors| && (w.holder == Stopping(id, flusher) || w.holder == Waiting(id, flusher))
        && FlusherAtHead(w)
    ensures var v := Stopped(w, id, flusher); FlushAfter(w, v) && v.holder.Free? && (flusher ==> v.flush != w.flush)
  {
  }

  lemma ExitMoves(w: World, id: nat, flusher: bool, ok: bool)
    requires id < |w.actors| && w.holder == Waiting(id, flusher) && !w.actors[id].Exited()
    ensures var v := Exited(w, id, ok); v.flush == w.flush && Held(v) < Held(w) && v.holder == w.holder
  {
    hide Persisted, RowsAfter;
    PersistedKeepsExits(w.actors[id], w.rows, ok);
  }

  lemma PersistedKeepsExits(a: Actor, rows: Rows, ok: bool)
    ensures Persisted(a, rows, ok).exits == a.exits
  {
  }

  lemma AttachMoves(c: Config, p: Policy, w: World)
    requires Enabled(w, AttachRuns)
    ensures var v := Fire(c, p, w, AttachRuns); v.flush == w.flush && v.holder.Free?
  {
    hide Valid, Installed;
  }

  /** ... and taking its turn brings the release nearer. */
  lemma LockMoves(c: Config, p: Policy, w: World, ok: bool)
    requires FlusherAtHead(w) && !w.holder.Free? && Enabled(w, LockTurn(w, ok))
    ensures var v := Fire(c, p, w, LockTurn(w, ok));
            && Held(v) < Held(w) && FlushAfter(w, v)
            && (if v.holder.Free? then ByFlusher(w) ==> v.flush != w.flush
                else v.flush == w.flush && ByFlusher(v) == ByFlusher(w))
  {
    hide Valid, Fire, Detached, Stopped, Exited;
    match w.holder
    case Attaching(_, _) => AttachMoves(c, p, w);
    case Detaching(s) =>
      FireDetachRuns(c, p, w, ok);
      DetachMoves(w, ok);
    case Waiting(id, flusher) =>
      if w.actors[id].Exited() {
        FireStopReturns(c, p, w);
        StopMoves(w, id, flusher);
      } else {
        FireLoopExits(c, p, w, id, ok);
        ExitMoves(w, id, flusher, ok);
      }
    case Stopping(id, flusher) =>
      FireCloseStop(c, p, w);
      if w.actors[id].Exited() { StopMoves(w, id, flusher); }
  }

  /** In every run, shutdown or not, a held lock can be released by at most four turns of its holder and of the loop it
      waits for, with no help from any session. */
  lemma {:induction false} LockCanBeReleased(c: Config, p: Policy, rows: Rows, turns: seq<Turn>, w: World, ok: bool)
    returns (more: seq<Turn>, v: World)
    requires Reaches(c, p, rows, turns, w)
    ensures Reaches(c, p, rows, turns + more, v) && v.holder.Free? && |more| <= Held(w) <= 4
    decreases Held(w)
  {
    hide Valid, Sane, Fire, Enabled, Reaches, LockTurn, Held;
    more, v := [], w;
    assert turns + [] == turns;
    if !w.holder.Free? {
      RunsAreSane(c, p, rows, turns, w);
      LockIsReady(w, ok);
      SaneHolder(w);
      LockMoves(c, p, w, ok);
      var e := LockTurn(w, ok);
      OneMore(c, p, rows, turns, w, e);
      var rest;
      rest, v := LockCanBeReleased(c, p, rows, turns + [e], Fire(c, p, w, e), ok);
      assert turns + [e] + rest == turns + ([e] + rest);
      more := [e] + rest;
    }
  }

  // ---------- the flush can always finish ----------

  /** The next thing the lock holder, a stopping loop or the flush itself has to do. */
  function NextInLine(w: World, ok: bool): Turn
    requires w.flush.Flushing?
  {
    if !w.holder.Free? then LockTurn(w, ok)
    else if w.flush.queue == [] then FlushEnds
    else if w.flush.asked then FlushLocks
    else FlushAsks
  }

  function Ahead(w: World): nat
    requires w.flush.Flushing?
  {
    10 * |w.flush.queue| + (if w.flush.asked then 0 else 1) + Held(w) + if ByFlusher(w) then 1 else 5
  }

  /** The next in line is never blocked ... */
  lemma LineIsReady(w: World, ok: bool)
    requires Sane(w) && w.flush.Flushing?
    ensures Enabled(w, NextInLine(w, ok))
  {
    if !w.holder.Free? {
      LockIsReady(w, ok);
    } else if w.flush.queue != [] {
      assert ActorOk(w, w.flush.queue[0]);
    }
  }

  lemma AskMoves(w: World)
    requires Enabled(w, FlushAsks)
    ensures Asked(w).flush == Flushing(w.flush.queue, true) && Asked(w).holder == w.holder
    ensures |Asked(w).actors| == |w.actors| && Asked(w).log == w.log
  {
  }

  /** ... and taking its turn brings the flush nearer to its end. */
  lemma LineMoves(c: Config, p: Policy, w: World, ok: bool)
    requires FlusherAtHead(w) && w.flush.Flushing? && Enabled(w, NextInLine(w, ok))
    ensures var v := Fire(c, p, w, NextInLine(w, ok));
            v.flush.Flushed? || (v.flush.Flushing? && Ahead(v) < Ahead(w))
  {
    hide Valid, Fire, Enabled, Asked, LockTurn;
    if !w.holder.Free? {
      LockMoves(c, p, w, ok);
    } else {
      hide Held;
      FireFlush(c, p, w);
      if w.flush.queue != [] { if w.flush.asked { FlusherHeld(w); } else { AskMoves(w); SameHolderHeld(w, Asked(w)); } }
    }
  }

  lemma FlusherHeld(w: World)
    requires w.holder.Free? && w.flush.Flushing? && w.flush.queue != []
    ensures Held(w) == 0 && Held(w.(holder := Stopping(w.flush.queue[0], true))) == 3
  {
  }

  lemma SameHolderHeld(w: World, v: World)
    requires w.holder.Free? && v.holder.Free?
    ensures Held(w) == Held(v) == 0
  {
  }

  /** With a store that accepts writes, no turn in line gives up any progress. */
  lemma LineKeepsProgress(c: Config, p: Policy, w: World)
    requires Sane(w) && Safe(c, w) && w.flush.Flushing? && Enabled(w, NextInLine(w, true))
    ensures Fire(c, p, w, NextInLine(w, true)).log == w.log
  {
    hide Valid, SessionOk, Encode, Loads;
    if w.holder.Waiting? && NextInLine(w, true).LoopExits? {
      assert ActorOk(w, w.holder.actor) && KeyOk(c, w, w.actors[w.holder.actor].key);
    }
  }

  /** From every moment of every shutdown the flush can be completed by the turns of those already in line, with no help
      from any session; and if the store accepts the writes, without losing anything acknowledged. */
  lemma {:induction false} FlushCanFinish(c: Config, p: Policy, rows: Rows, turns: seq<Turn>, w: World, ok: bool)
      returns (more: seq<Turn>, v: World)
    requires Reaches(c, p, rows, turns, w) && w.flush.Flushing?
    ensures Reaches(c, p, rows, turns + more, v) && v.flush.Flushed? && |more| <= Ahead(w) + 1
    ensures ok ==> v.log == w.log
    decreases Ahead(w)
  {
    hide Valid, Sane, Safe, Fire, Enabled, Reaches, NextInLine, Ahead;
    RunsAreSafe(c, p, rows, turns, w);
    LineIsReady(w, ok);
    SaneHolder(w);
    LineMoves(c, p, w, ok);
    var e := NextInLine(w, ok);
    if ok { LineKeepsProgress(c, p, w); }
    v := Fire(c, p, w, e);
    OneMore(c, p, rows, turns, w, e);
    more := [e];
    if !v.flush.Flushed? {
      var rest;
      rest, v := FlushCanFinish(c, p, rows, turns + [e], v, ok);
      assert turns + [e] + rest == turns + ([e] + rest);
      more := [e] + rest;
    }
  }

  lemma SaneHolder(w: World)
    requires Sane(w)
    ensures HolderOk(w) && FlusherAtHead(w)
  {
  }

  lemma OneMore(c: Config, p: Policy, rows: Rows, turns: seq<Turn>, w: World, e: Turn)
    requires Reaches(c, p, rows, turns, w) && Enabled(w, e)
    ensures Reaches(c, p, rows, turns + [e], Fire(c, p, w, e))
  {
    hide Fire, Enabled, Valid;
    assert (turns + [e])[..|turns|] == turns;
  }
}
