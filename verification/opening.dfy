// Which save an attach opens, for whom, and what it leaves of everything else.
module Openings {
  import opened Content
  import opened Farms
  import opened Actions
  import opened Derive
  import opened Advancing
  import opened Intents
  import opened Payloads
  import opened Actors
  import opened Registry
  import opened Writers
  import opened Saves
  import opened Managers
  import opened Effects

  /** `v` is `w` with a new actor of `key` in the hands of a new session, its save at `farm`, and nothing else of what
      was there touched but, at most, the row of `key`, which is as it was if there was one. */
  ghost predicate OpenedFor(w: World, v: World, key: Key, farm: Farm, dirty: bool) {
    && v.actors == w.actors + [Actor(key, farm, dirty, Some(|w.sessions|), 0, 0)]
    && v.registry == w.registry[key := |w.actors|]
    && v.sessions == w.sessions + [Session(|w.actors|, false, 0, 0, false)]
    && v.holder == Free && v.closing == w.closing && v.flush == w.flush
    && key in v.rows && v.rows == w.rows[key := v.rows[key]] && (key in w.rows ==> v.rows[key] == w.rows[key])
  }

  /** The first attach of a key opens a new game of this instant, which catches up over nothing, is not dirty, and whose
      row loads as it is. */
  lemma AttachCreates(c: Config, p: Policy, w: World, key: Key, now: int, seed: nat)
    requires Sane(w) && w.holder.Free? && !w.closing && key !in w.registry && key !in w.rows
    ensures var v := AttachCall(c, p, w, key, now, seed, NoFault);
            OpenedFor(w, v, key, New(c, seed, now), false) && Loads(v.rows, key, New(c, seed, now))
    ensures New(c, seed, now).updatedAt == now && Advance(c, New(c, seed, now), now) == Tick(New(c, seed, now), QUIET)
  {
    NewLoads(c, seed, now);
    AdvanceClock(c, New(c, seed, now), now);
    NewClock(c, seed, now);
    hide Valid, DecodeState, Stored, Farms.New, Advance, Sane;
  }

  lemma NewClock(c: Config, seed: nat, now: int)
    ensures New(c, seed, now).updatedAt == now
    ensures !AdvanceDirties(c, New(c, seed, now), now)
    ensures var a := Actor(Key("", ""), New(c, seed, now), false, None, 0, 0); CaughtUp(c, a, now) == a
  {
    hide Valid, Advance;
    AdvanceClock(c, New(c, seed, now), now);
  }

  /** An attach of a save that is not running opens the save its row loads as, caught up to this instant, and marks it
      dirty exactly if time has passed for it. */
  lemma AttachLoads(c: Config, p: Policy, w: World, key: Key, now: int, seed: nat)
    requires Sane(w) && w.holder.Free? && !w.closing && key !in w.registry
    requires key in w.rows && DecodeState(w.rows[key]).Loaded?
    ensures var f := DecodeState(w.rows[key]).save.farm;
            OpenedFor(w, AttachCall(c, p, w, key, now, seed, NoFault), key, Advance(c, f, now).farm, now > f.updatedAt)
  {
    hide Valid, DecodeState, Stored, Farms.New, Advance, AdvanceDirties, Sane, Attached;
    var f := DecodeState(w.rows[key]).save.farm;
    CleanAdvance(c, f, now);
    var w1 := AttachBegun(c, w, key, now, seed, NoFault);
    InstalledFresh(c, p, w1, |w.actors|, now);
    CaughtUpIs(c, Actor(key, f, false, Some(|w.sessions|), 0, 0), now);
  }

  /** The closure on an actor that nobody holds. */
  lemma InstalledFresh(c: Config, p: Policy, w: World, id: nat, now: int)
    requires w.holder == Attaching(id, now) && id < |w.actors| && !w.actors[id].Exited() && w.actors[id].session.None?
    ensures Attached(c, p, w)
            == w.(sessions := w.sessions + [Session(id, false, 0, 0, false)],
                  actors := w.actors[id := CaughtUp(c, w.actors[id].(session := Some(|w.sessions|)), now)],
                  holder := Free, log := w.log + [Simulated(w.actors[id].key, now)])
  {
    hide Valid, CaughtUp;
  }

  lemma CaughtUpIs(c: Config, a: Actor, now: int)
    ensures CaughtUp(c, a, now)
            == a.(state := Advance(c, a.state, now).farm, dirty := a.dirty || now > a.state.updatedAt)
  {
    hide Valid, Advance, AdvanceDirties;
    CleanAdvance(c, a.state, now);
  }

  /** A row written by a newer server opens nothing. */
  lemma AttachTooNew(c: Config, p: Policy, w: World, key: Key, now: int, seed: nat)
    requires w.holder.Free? && key !in w.registry && key in w.rows && DecodeState(w.rows[key]).TooNew?
    ensures AttachCall(c, p, w, key, now, seed, NoFault) == w
  {
    hide Valid, DecodeState, Stored, Farms.New;
    assert w.rows[key := w.rows[key]] == w.rows;
  }

  /** An attach of a running save takes it over: its holder is told and signed off, the newcomer holds it, and it is
      caught up where it stands; no row and no other actor or session changes. */
  lemma AttachTakesOver(c: Config, w: World, key: Key, now: int, seed: nat)
    requires Sane(w) && w.holder.Free? && !w.closing && key in w.registry
    ensures w.registry[key] < |w.actors|
    ensures var id := w.registry[key];
            var a := w.actors[id];
            var v := AttachCall(c, Takeover, w, key, now, seed, NoFault);
            && a.session.Some? && a.session.value < |w.sessions|
            && v.actors == w.actors[id := a.(state := Advance(c, a.state, now).farm, session := Some(|w.sessions|),
                                             dirty := a.dirty || now > a.state.updatedAt)]
            && v.sessions == w.sessions[a.session.value :=
                                          w.sessions[a.session.value].(fired := true, sends := 1, closes := 1)]
                             + [Session(id, false, 0, 0, false)]
            && v.rows == w.rows && v.registry == w.registry && v.holder == Free
  {
    hide Valid, Advance, CaughtUp, Attached;
    var id := w.registry[key];
    assert ActorOk(w, id);
    assert SessionOk(w, w.actors[id].session.value);
    hide Sane, ActorOk, SessionOk;
    var w1 := AttachBegun(c, w, key, now, seed, NoFault);
    assert w1 == w.(holder := Attaching(id, now));
    InstalledOver(c, w1, id, now);
    CaughtUpIs(c, w.actors[id].(session := Some(|w.sessions|)), now);
  }

  /** The closure on an actor that a session holds, which has not been told anything yet. */
  lemma InstalledOver(c: Config, w: World, id: nat, now: int)
    requires w.holder == Attaching(id, now) && id < |w.actors| && !w.actors[id].Exited() && w.actors[id].session.Some?
    requires w.actors[id].session.value < |w.sessions|
    requires var h := w.sessions[w.actors[id].session.value]; !h.fired && h.sends == 0 && h.closes == 0
    ensures var s := w.actors[id].session.value;
            Attached(c, Takeover, w)
            == w.(sessions := w.sessions[s := w.sessions[s].(fired := true, sends := 1, closes := 1)]
                              + [Session(id, false, 0, 0, false)],
                  actors := w.actors[id := CaughtUp(c, w.actors[id].(session := Some(|w.sessions|)), now)],
                  holder := Free, log := w.log + [Simulated(w.actors[id].key, now)])
  {
    hide Valid, CaughtUp;
  }

  /** Under the refuse policy the newcomer is turned away and nothing changes. */
  lemma AttachRefused(c: Config, w: World, key: Key, now: int, seed: nat)
    requires Sane(w) && w.holder.Free? && !w.closing && key in w.registry
    ensures AttachCall(c, Refuse, w, key, now, seed, NoFault) == w
  {
    assert ActorOk(w, w.registry[key]);
    hide Valid, Advance, AdvanceDirties, Sane, ActorOk;
  }

  /** An attach during a shutdown, or one whose account or save cannot be read, changes nothing. */
  lemma AttachFails(c: Config, p: Policy, w: World, key: Key, now: int, seed: nat, fault: Fault)
    requires w.holder.Free? && (w.closing || fault.TouchFails? || (fault.LoadFails? && key !in w.registry))
    ensures AttachCall(c, p, w, key, now, seed, fault) == w
  {
    hide Valid, DecodeState, Stored, Farms.New;
  }

  /** What a session asks for is done to its own save alone, which is dirty afterwards exactly if it was, time passed
      for it, or the action was allowed; no row and no session changes. After the actor stopped nothing is done. */
  lemma IntentActs(c: Config, p: Policy, w: World, s: nat, now: int, act: Action)
    requires Enabled(w, SessionActs(s, now, act))
    ensures var id := w.sessions[s].actor; var a := w.actors[id];
            Fire(c, p, w, SessionActs(s, now, act))
            == if a.Exited() then w
               else
                 w.(actors := w.actors[id := a.(state := AfterIntent(c, a.state, now, act),
                        dirty := a.dirty || now > a.state.updatedAt || IntentError(c, a.state, now, act).None?)],
                    log := w.log + [Intended(a.key, now, act)])
  {
    hide Valid, AfterIntent, IntentDirties;
    DirtiesIff(c, w.actors[w.sessions[s].actor].state, now, act);
  }

  /** An autosave that the store accepts leaves the save clean and its row loading as it is; one that fails, or finds
      nothing to write, changes no row and no save. */
  lemma AutosaveWrites(c: Config, p: Policy, w: World, id: nat, ok: bool)
    requires Sane(w) && Safe(c, w) && Enabled(w, Autosave(id, ok))
    ensures var v := Fire(c, p, w, Autosave(id, ok));
            && |v.actors| == |w.actors| && v.actors[id].state == w.actors[id].state && v.log == w.log
            && (ok ==> !v.actors[id].dirty && Loads(v.rows, w.actors[id].key, w.actors[id].state))
            && (!ok || !w.actors[id].dirty ==> v.rows == w.rows && v.actors == w.actors)
  {
    RunningSynced(c, w, id);
    assert ActorOk(w, id) && KeyOk(c, w, w.actors[id].key);
    RoundTrip(w.actors[id].state);
    hide Valid, Sane, Safe, ActorOk, Encode, DecodeState, Replay;
  }
}
