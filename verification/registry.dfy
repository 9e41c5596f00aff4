// The save registry as interleaved atomic steps: attach, detach, intents, autosave ticks, the loops' exits and the
// shutdown flush, over the manager lock and the channels of every actor and session.
module Registry {
  import opened Content
  import opened Farms
  import opened Derive
  import opened Actions
  import opened Payloads
  import opened Actors

  datatype Policy = Takeover | Refuse

  /** A session's handle. `fired` is its once-guard; `sends` and `closes` count uses of its `kicked` channel, whose
      buffer holds one message; `detached` says that its `Detach` has got past the actor. */
  datatype Session = Session(actor: nat, fired: bool, sends: nat, closes: nat, detached: bool)

  /** Who holds the manager lock, and where in its critical section. */
  datatype Holder =
    | Free
    | Attaching(actor: nat, now: int)
    | Detaching(session: nat)
    | Stopping(actor: nat, flusher: bool)
    | Waiting(actor: nat, flusher: bool)

  /** The shutdown flush: the actors still to do, and whether the first has been asked to let its session go. */
  datatype Flush = NotStarted | Flushing(queue: seq<nat>, asked: bool) | Flushed

  /** What was acknowledged to callers, in order: saves opened, catch-ups and intents that ran; and progress that a
      failed final write gave up. */
  datatype Entry =
    | Opened(key: Key, farm: Farm)
    | Simulated(key: Key, now: int)
    | Intended(key: Key, now: int, action: Action)
    | Dropped(key: Key)

  datatype World = World(
    registry: map<Key, nat>, actors: seq<Actor>, sessions: seq<Session>, rows: Rows,
    closing: bool, holder: Holder, flush: Flush, log: seq<Entry>)

  /** A process start over whatever the store holds. */
  function Fresh(rows: Rows): World { World(map[], [], [], rows, false, Free, NotStarted, []) }

  // ---------- steps ----------

  /** What can go wrong while `Attach` holds the lock. */
  datatype Fault = NoFault | TouchFails | LoadFails

  /** One atomic step. `ok` says whether the store accepts a write made in it. */
  datatype Turn =
    | BeginAttach(key: Key, now: int, seed: nat, fault: Fault)
    | AttachRuns
    | AttachFindsDead
    | SessionActs(session: nat, now: int, action: Action)
    | SessionAdvances(session: nat, now: int)
    | Autosave(actor: nat, ok: bool)
    | BeginDetach(session: nat)
    | DetachRuns(ok: bool)
    | LastKick(session: nat)
    | CloseStop
    | LoopExits(actor: nat, ok: bool)
    | StopReturns
    | BeginShutdown(queue: seq<nat>)
    | FlushAsks
    | FlushLocks
    | FlushEnds

  /** `queue` lists every registered actor once, in whatever order the map is walked. */
  ghost predicate Lists(queue: seq<nat>, registry: map<Key, nat>) {
    && (forall i, j :: 0 <= i < j < |queue| ==> queue[i] != queue[j])
    && (forall key <- registry :: registry[key] in queue)
    && (forall id <- queue :: id in registry.Values)
  }

  ghost predicate Enabled(w: World, e: Turn) {
    match e
    case BeginAttach(_, _, _, _) => w.holder.Free?
    case AttachRuns => w.holder.Attaching? && w.holder.actor < |w.actors| && !w.actors[w.holder.actor].Exited()
    case AttachFindsDead => w.holder.Attaching? && w.holder.actor < |w.actors| && w.actors[w.holder.actor].Exited()
    case SessionActs(s, _, _) => s < |w.sessions| && w.sessions[s].actor < |w.actors|
    case SessionAdvances(s, _) => s < |w.sessions| && w.sessions[s].actor < |w.actors|
    case Autosave(id, _) => id < |w.actors| && !w.actors[id].Exited()
    case BeginDetach(s) => w.holder.Free? && s < |w.sessions|
    case DetachRuns(_) => w.holder.Detaching? && w.holder.session < |w.sessions|
        && w.sessions[w.holder.session].actor < |w.actors|
    case LastKick(s) => s < |w.sessions| && w.sessions[s].detached
    case CloseStop => w.holder.Stopping? && w.holder.actor < |w.actors|
    case LoopExits(id, _) => id < |w.actors| && !w.actors[id].Exited() && w.actors[id].stops > 0
    case StopReturns => w.holder.Waiting? && w.holder.actor < |w.actors| && w.actors[w.holder.actor].Exited()
    case BeginShutdown(queue) => w.holder.Free? && w.flush.NotStarted? && Lists(queue, w.registry)
    case FlushAsks =>
      && w.flush.Flushing? && w.flush.queue != [] && !w.flush.asked && w.flush.queue[0] < |w.actors|
      && (var a := w.actors[w.flush.queue[0]]; a.session.Some? ==> a.session.value < |w.sessions|)
    case FlushLocks => w.holder.Free? && w.flush.Flushing? && w.flush.queue != [] && w.flush.asked
    case FlushEnds => w.flush.Flushing? && w.flush.queue == []
  }

  // ---------- effects ----------

  /** `deliverKick`: the first call sends the notice, if it has one, and closes the channel; later calls do nothing. */
  function Kicked(s: Session, notice: bool): Session {
    if s.fired then s else s.(fired := true, sends := s.sends + (if notice then 1 else 0), closes := s.closes + 1)
  }

  function KickedIn(sessions: seq<Session>, s: nat, notice: bool): (r: seq<Session>)
    requires s < |sessions|
    ensures |r| == |sessions| && r[s] == Kicked(sessions[s], notice)
    ensures forall k | 0 <= k < |sessions| && k != s :: r[k] == sessions[k]
  {
    sessions[s := Kicked(sessions[s], notice)]
  }

  /** `Attach` up to mailing its closure: refuse, fail, or find or start the actor. */
  function AttachBegun(c: Config, w: World, key: Key, now: int, seed: nat, fault: Fault): World {
    if w.closing || fault.TouchFails? then w
    else if key in w.registry then w.(holder := Attaching(w.registry[key], now))
    else if fault.LoadFails? then w
    else
      var row := if key in w.rows then w.rows[key] else Stored(New(c, seed, now));
      var w1 := w.(rows := w.rows[key := row]);
      match DecodeState(row)
      case TooNew(_) => w1
      case Loaded(save) =>
        w1.(actors := w.actors + [Actor(key, save.farm, false, None, 0, 0)], registry := w.registry[key := |w.actors|],
            holder := Attaching(|w.actors|, now), log := w.log + [Opened(key, save.farm)])
  }

  /** The closure `Attach` mails to the actor, and the return that follows it. */
  function Attached(c: Config, p: Policy, w: World): World
    requires Enabled(w, AttachRuns)
  {
    var id, now := w.holder.actor, w.holder.now;
    var a := w.actors[id];
    if a.session.Some? && p.Refuse? then w.(holder := Free)
    else
      var sessions :=
        if a.session.Some? && a.session.value < |w.sessions| then KickedIn(w.sessions, a.session.value, true)
        else w.sessions;
      w.(sessions := sessions + [Session(id, false, 0, 0, false)],
         actors := w.actors[id := Installed(c, a, |sessions|, now)],
         holder := Free, log := w.log + [Simulated(a.key, now)])
  }

  /** The closure `detach` mails, or its absence when the loop is gone. */
  function Detached(w: World, ok: bool): World
    requires Enabled(w, DetachRuns(ok))
  {
    var s := w.holder.session;
    var id := w.sessions[s].actor;
    var a := w.actors[id];
    var w1 := w.(sessions := w.sessions[s := w.sessions[s].(detached := true)]);
    if a.Exited() then w1.(holder := Free)
    else
      var idle := a.session == Some(s);
      var b := Released(a, s);
      w1.(actors := w.actors[id := Persisted(b, w.rows, ok)], rows := RowsAfter(b, w.rows, ok),
          holder := if idle then Stopping(id, false) else Free)
  }

  /** `stop` closed. */
  function StopClosed(w: World, id: nat, flusher: bool): World
    requires id < |w.actors|
  {
    w.(actors := w.actors[id := w.actors[id].(stops := w.actors[id].stops + 1)], holder := Waiting(id, flusher))
  }

  /** The end of `stopActorLocked`: forget the actor if it is still the registered one, and let the lock go. */
  function Stopped(w: World, id: nat, flusher: bool): World
    requires id < |w.actors|
  {
    var key := w.actors[id].key;
    w.(registry := if key in w.registry && w.registry[key] == id then w.registry - {key} else w.registry,
       holder := Free,
       flush := if flusher && w.flush.Flushing? && w.flush.queue != [] then Flushing(w.flush.queue[1..], false)
                else w.flush)
  }

  /** The loop sees `stop`: final flush, then `done`. */
  function Exited(w: World, id: nat, ok: bool): World
    requires id < |w.actors|
  {
    var a := w.actors[id];
    var b := Persisted(a, w.rows, ok);
    w.(actors := w.actors[id := b.(exits := b.exits + 1)], rows := RowsAfter(a, w.rows, ok),
       log := if b.dirty then w.log + [Dropped(a.key)] else w.log)
  }

  /** The shutdown's closure: sign the session off. */
  function Asked(w: World): World
    requires Enabled(w, FlushAsks)
  {
    var id := w.flush.queue[0];
    var a := w.actors[id];
    var w1 := w.(flush := w.flush.(asked := true));
    if a.Exited() || a.session.None? then w1
    else w1.(sessions := KickedIn(w.sessions, a.session.value, true), actors := w.actors[id := SignedOff(a)])
  }

  ghost function Fire(c: Config, p: Policy, w: World, e: Turn): World
    requires Enabled(w, e)
  {
    match e
    case BeginAttach(key, now, seed, fault) => AttachBegun(c, w, key, now, seed, fault)
    case AttachRuns => Attached(c, p, w)
    case AttachFindsDead => w.(registry := w.registry - {w.actors[w.holder.actor].key}, holder := Free)
    case SessionActs(s, now, act) =>
      var a := w.actors[w.sessions[s].actor];
      if a.Exited() then w
      else w.(actors := w.actors[w.sessions[s].actor := Acted(c, a, now, act)],
              log := w.log + [Intended(a.key, now, act)])
    case SessionAdvances(s, now) =>
      var a := w.actors[w.sessions[s].actor];
      if a.Exited() then w
      else w.(actors := w.actors[w.sessions[s].actor := CaughtUp(c, a, now)], log := w.log + [Simulated(a.key, now)])
    case Autosave(id, ok) =>
      w.(actors := w.actors[id := Persisted(w.actors[id], w.rows, ok)], rows := RowsAfter(w.actors[id], w.rows, ok))
    case BeginDetach(s) => w.(holder := Detaching(s))
    case DetachRuns(ok) => Detached(w, ok)
    case LastKick(s) => w.(sessions := KickedIn(w.sessions, s, false))
    case CloseStop =>
      var id := w.holder.actor;
      if w.actors[id].Exited() then Stopped(w, id, w.holder.flusher)
      else StopClosed(w, id, w.holder.flusher)
    case LoopExits(id, ok) => Exited(w, id, ok)
    case StopReturns => Stopped(w, w.holder.actor, w.holder.flusher)
    case BeginShutdown(queue) => w.(closing := true, flush := Flushing(queue, false))
    case FlushAsks => Asked(w)
    case FlushLocks => w.(holder := Stopping(w.flush.queue[0], true))
    case FlushEnds => w.(flush := Flushed)
  }

  // The turns of the lock holder, of the loop it waits for and of the flush, one by one.

  lemma FireDetachRuns(c: Config, p: Policy, w: World, ok: bool)
    requires Enabled(w, DetachRuns(ok))
    ensures Fire(c, p, w, DetachRuns(ok)) == Detached(w, ok)
  {
    hide Detached, Valid;
  }

  lemma FireCloseStop(c: Config, p: Policy, w: World)
    requires Enabled(w, CloseStop)
    ensures var id, flusher := w.holder.actor, w.holder.flusher;
            Fire(c, p, w, CloseStop)
            == if w.actors[id].Exited() then Stopped(w, id, flusher) else StopClosed(w, id, flusher)
  {
    hide Stopped, StopClosed, Valid;
  }

  lemma FireLoopExits(c: Config, p: Policy, w: World, id: nat, ok: bool)
    requires Enabled(w, LoopExits(id, ok))
    ensures Fire(c, p, w, LoopExits(id, ok)) == Exited(w, id, ok)
  {
    hide Exited, Valid;
  }

  lemma FireStopReturns(c: Config, p: Policy, w: World)
    requires Enabled(w, StopReturns)
    ensures Fire(c, p, w, StopReturns) == Stopped(w, w.holder.actor, w.holder.flusher)
  {
    hide Stopped, Valid;
  }

  lemma FireSession(c: Config, p: Policy, w: World, s: nat)
    ensures Enabled(w, BeginDetach(s)) ==> Fire(c, p, w, BeginDetach(s)) == w.(holder := Detaching(s))
    ensures Enabled(w, LastKick(s)) ==> Fire(c, p, w, LastKick(s)) == w.(sessions := KickedIn(w.sessions, s, false))
  {
    hide Valid;
  }

  lemma FireFlush(c: Config, p: Policy, w: World)
    ensures Enabled(w, FlushAsks) ==> Fire(c, p, w, FlushAsks) == Asked(w)
    ensures Enabled(w, FlushLocks) ==> Fire(c, p, w, FlushLocks) == w.(holder := Stopping(w.flush.queue[0], true))
    ensures Enabled(w, FlushEnds) ==> Fire(c, p, w, FlushEnds) == w.(flush := Flushed)
  {
    hide Asked, Valid;
  }

  // ---------- runs ----------

  /** `w` can be reached from a process start over `rows` by firing `turns`. */
  ghost predicate Reaches(c: Config, p: Policy, rows: Rows, turns: seq<Turn>, w: World)
    decreases |turns|
  {
    if turns == [] then w == Fresh(rows)
    else
      var last := |turns| - 1;
      exists v :: Reaches(c, p, rows, turns[..last], v) && Enabled(v, turns[last]) && w == Fire(c, p, v, turns[last])
  }
}
