/**
 The per-organization engine cache: a short lock over the cache and the lock table,
 and one lock per organization that serializes its cold opens.
 */
module EngineOpening {
  import opened Wrappers

  /**
   Where one engineFor call stands. Lookup and Recheck hold the short lock, Storing
   holds it to cache; from Waiting on the call wants or holds its organization's lock.
   */
  datatype Phase =
    | Start
    | Lookup
    | Waiting
    | GotLock
    | Recheck
    | Opening
    | Opened(engine: nat)
    | Storing(engine: nat)
    | Leaving(result: Option<nat>)
    | Returned(result: Option<nat>)

  datatype Call = Call(org: nat, phase: Phase)

  /** engines is the cache; opens lists the organization of every successful open and latest the engine it opened last. */
  datatype World = World(
    calls: map<nat, Call>, mu: Option<nat>, orgLocks: map<nat, nat>,
    engines: map<nat, nat>, opens: seq<nat>, latest: map<nat, nat>)

  datatype Action =
    | Enter(call: nat, org: nat)
    | Advance(call: nat)
    | OpenDone(call: nat, engine: Option<nat>)

  function Init(): World
  {
    World(map[], None, map[], map[], [], map[])
  }

  function At(w: World, c: nat, phase: Phase): World
    requires c in w.calls
  {
    w.(calls := w.calls[c := w.calls[c].(phase := phase)])
  }

  /** The call's next step can happen now: it waits for no lock another call holds. */
  predicate Enabled(w: World, c: nat)
  {
    c in w.calls &&
    match w.calls[c].phase
    case Start => w.mu == None
    case Waiting => w.calls[c].org !in w.orgLocks
    case GotLock => w.mu == None
    case Opened(_) => w.mu == None
    case Returned(_) => false
    case _ => true
  }

  /** Where a call's step takes it, when it is not inside an open. */
  function NextPhase(w: World, c: nat): Phase
    requires c in w.calls
  {
    var org := w.calls[c].org;
    match w.calls[c].phase
    case Start => Lookup
    case Lookup => if org in w.engines then Returned(Some(w.engines[org])) else Waiting
    case Waiting => GotLock
    case GotLock => Recheck
    case Recheck => if org in w.engines then Leaving(Some(w.engines[org])) else Opening
    case Opening => Opening
    case Opened(engine) => Storing(engine)
    case Storing(engine) => Leaving(Some(engine))
    case Leaving(result) => Returned(result)
    case Returned(result) => Returned(result)
  }

  /** The step itself: the short lock around each look at the cache, the organization's lock around the open. */
  function AdvanceStep(w: World, c: nat): World
    requires Enabled(w, c)
  {
    var org, from, to := w.calls[c].org, w.calls[c].phase, NextPhase(w, c);
    w.(calls := w.calls[c := Call(org, to)],
       mu := if HoldsMu(to) then Some(c) else if HoldsMu(from) then None else w.mu,
       orgLocks := if from.Waiting? then w.orgLocks[org := c] else if from.Leaving? then w.orgLocks - {org} else w.orgLocks,
       engines := if from.Storing? then w.engines[org := from.engine] else w.engines)
  }

  function OpenStep(w: World, c: nat, engine: Option<nat>): World
    requires c in w.calls && w.calls[c].phase.Opening?
  {
    if engine == None then At(w, c, Leaving(None))
    else At(w, c, Opened(engine.value)).(
           opens := w.opens + [w.calls[c].org], latest := w.latest[w.calls[c].org := engine.value])
  }

  function Step(w: World, a: Action): World
  {
    match a
    case Enter(c, org) => if c in w.calls then w else w.(calls := w.calls[c := Call(org, Start)])
    case Advance(c) => if Enabled(w, c) then AdvanceStep(w, c) else w
    case OpenDone(c, engine) => if c in w.calls && w.calls[c].phase.Opening? then OpenStep(w, c, engine) else w
  }

  function Run(w: World, actions: seq<Action>): World
  {
    if actions == [] then w
    else Step(Run(w, actions[..|actions| - 1]), actions[|actions| - 1])
  }

  // ---- the invariant ----

  predicate HoldsMu(p: Phase)
  {
    p.Lookup? || p.Recheck? || p.Storing?
  }

  predicate HoldsOrgLock(p: Phase)
  {
    p.GotLock? || p.Recheck? || p.Opening? || p.Opened? || p.Storing? || p.Leaving?
  }

  /** The call opened an engine it has not cached yet. */
  predicate Uncached(p: Phase)
  {
    p.Opened? || p.Storing?
  }

  ghost predicate MuHeld(w: World)
  {
    && (forall c :: c in w.calls && HoldsMu(w.calls[c].phase) ==> w.mu == Some(c))
    && (w.mu.Some? ==> w.mu.value in w.calls && HoldsMu(w.calls[w.mu.value].phase))
  }

  ghost predicate OrgLocksHeld(w: World)
  {
    && (forall c :: c in w.calls && HoldsOrgLock(w.calls[c].phase) ==>
          w.calls[c].org in w.orgLocks && w.orgLocks[w.calls[c].org] == c)
    && (forall org :: org in w.orgLocks ==>
          && w.orgLocks[org] in w.calls
          && w.calls[w.orgLocks[org]].org == org
          && HoldsOrgLock(w.calls[w.orgLocks[org]].phase))
  }

  /** A call past its re-check that did not find the engine knows the cache still lacks it. */
  ghost predicate OpensUncached(w: World)
  {
    forall c :: c in w.calls && (w.calls[c].phase.Opening? || Uncached(w.calls[c].phase)) ==> w.calls[c].org !in w.engines
  }

  /** The opened engine is with the call about to cache it. */
  ghost predicate Carried(w: World, org: nat)
  {
    && org in w.orgLocks && org in w.latest
    && w.orgLocks[org] in w.calls
    && Uncached(w.calls[w.orgLocks[org]].phase)
    && w.calls[w.orgLocks[org]].phase.engine == w.latest[org]
  }

  /** Every organization was opened at most once, and its engine is cached or carried. */
  ghost predicate OpensOnce(w: World)
  {
    && (forall i, j :: 0 <= i < j < |w.opens| ==> w.opens[i] != w.opens[j])
    && (forall i :: 0 <= i < |w.opens| ==> w.opens[i] in w.latest)
    && (forall org :: org in w.engines ==> org in w.latest && w.engines[org] == w.latest[org])
    && (forall org :: org in w.latest && org !in w.engines ==> Carried(w, org))
    && (forall c :: c in w.calls && Uncached(w.calls[c].phase) ==>
          w.calls[c].org in w.latest && w.latest[w.calls[c].org] == w.calls[c].phase.engine)
  }

  /** A result is the cached engine. */
  ghost predicate ResultsCached(w: World)
  {
    forall c :: c in w.calls && (w.calls[c].phase.Leaving? || w.calls[c].phase.Returned?) && w.calls[c].phase.result.Some? ==>
      w.calls[c].org in w.engines && w.engines[w.calls[c].org] == w.calls[c].phase.result.value
  }

  ghost predicate Inv(w: World)
  {
    MuHeld(w) && OrgLocksHeld(w) && OpensUncached(w) && OpensOnce(w) && ResultsCached(w)
  }

  lemma AdvanceKeepsMu(w: World, c: nat)
    requires MuHeld(w) && Enabled(w, c)
    ensures MuHeld(AdvanceStep(w, c))
  {
  }

  lemma AdvanceKeepsOrgLocks(w: World, c: nat)
    requires OrgLocksHeld(w) && Enabled(w, c)
    ensures OrgLocksHeld(AdvanceStep(w, c))
  {
  }

  /** No open is done or cached, and the calls carrying an engine still carry it under their lock. */
  lemma OpensFrame(w: World, w': World)
    requires OpensOnce(w) && w'.engines == w.engines && w'.latest == w.latest && w'.opens == w.opens
    requires forall c :: c in w.calls && Uncached(w.calls[c].phase) ==>
               && c in w'.calls && Uncached(w'.calls[c].phase) && w'.calls[c].org == w.calls[c].org
               && w'.calls[c].phase.engine == w.calls[c].phase.engine
    requires forall c :: c in w'.calls && Uncached(w'.calls[c].phase) ==> c in w.calls && Uncached(w.calls[c].phase)
    requires forall org :: Carried(w, org) ==> org in w'.orgLocks && w'.orgLocks[org] == w.orgLocks[org]
    ensures OpensOnce(w')
  {
    forall org | org in w'.latest && org !in w'.engines ensures Carried(w', org) {
      assert Carried(w, org);
    }
  }

  lemma StoringKeepsOpens(w: World, c: nat)
    requires OrgLocksHeld(w) && OpensOnce(w) && c in w.calls && w.calls[c].phase.Storing?
    ensures OpensOnce(AdvanceStep(w, c))
  {
    var w' := AdvanceStep(w, c);
    forall org | org in w'.latest && org !in w'.engines ensures Carried(w', org) {
      assert Carried(w, org);
    }
  }

  lemma AdvanceKeepsOpens(w: World, c: nat)
    requires OrgLocksHeld(w) && OpensOnce(w) && Enabled(w, c)
    ensures OpensOnce(AdvanceStep(w, c))
  {
    if w.calls[c].phase.Storing? {
      StoringKeepsOpens(w, c);
    } else {
      OpensFrame(w, AdvanceStep(w, c));
    }
  }

  lemma AdvanceKeepsUncached(w: World, c: nat)
    requires OrgLocksHeld(w) && OpensUncached(w) && Enabled(w, c)
    ensures OpensUncached(AdvanceStep(w, c))
  {
  }

  lemma AdvanceKeepsResults(w: World, c: nat)
    requires OrgLocksHeld(w) && OpensUncached(w) && ResultsCached(w) && Enabled(w, c)
    ensures ResultsCached(AdvanceStep(w, c))
  {
  }

  lemma OpenKeepsOpens(w: World, c: nat, engine: Option<nat>)
    requires OrgLocksHeld(w) && OpensUncached(w) && OpensOnce(w) && c in w.calls && w.calls[c].phase.Opening?
    ensures OpensOnce(OpenStep(w, c, engine))
  {
    var w' := OpenStep(w, c, engine);
    assert !Carried(w, w.calls[c].org);
    forall org | org in w'.latest && org !in w'.engines ensures Carried(w', org) {
      if org != w.calls[c].org {
        assert Carried(w, org);
      }
    }
  }

  lemma OpenKeepsInv(w: World, c: nat, engine: Option<nat>)
    requires Inv(w) && c in w.calls && w.calls[c].phase.Opening?
    ensures Inv(OpenStep(w, c, engine))
  {
    OpenKeepsOpens(w, c, engine);
  }

  lemma EnterKeepsInv(w: World, c: nat, org: nat)
    requires Inv(w)
    ensures Inv(Step(w, Enter(c, org)))
  {
    EnterKeepsOpens(w, c, org);
    EnterKeepsLocks(w, c, org);
  }

  lemma EnterKeepsOpens(w: World, c: nat, org: nat)
    requires OpensOnce(w)
    ensures OpensOnce(Step(w, Enter(c, org)))
  {
    OpensFrame(w, Step(w, Enter(c, org)));
  }

  lemma EnterKeepsLocks(w: World, c: nat, org: nat)
    requires MuHeld(w) && OrgLocksHeld(w)
    ensures MuHeld(Step(w, Enter(c, org))) && OrgLocksHeld(Step(w, Enter(c, org)))
  {
  }

  lemma StepKeepsInv(w: World, a: Action)
    requires Inv(w)
    ensures Inv(Step(w, a))
  {
    match a
    case Enter(c, org) => EnterKeepsInv(w, c, org);
    case Advance(c) =>
      if Enabled(w, c) {
        AdvanceKeepsMu(w, c);
        AdvanceKeepsOrgLocks(w, c);
        AdvanceKeepsOpens(w, c);
        AdvanceKeepsUncached(w, c);
        AdvanceKeepsResults(w, c);
      }
    case OpenDone(c, engine) => if c in w.calls && w.calls[c].phase.Opening? { OpenKeepsInv(w, c, engine); }
  }

  lemma {:induction false} RunKeepsInv(actions: seq<Action>)
    ensures Inv(Run(Init(), actions))
  {
    if actions != [] {
      RunKeepsInv(actions[..|actions| - 1]);
      StepKeepsInv(Run(Init(), actions[..|actions| - 1]), actions[|actions| - 1]);
    }
  }

  // ---- what the cache promises ----

  /** Both calls are inside an open of the same organization. */
  predicate OpeningFor(w: World, c: nat, d: nat)
  {
    && c in w.calls && w.calls[c].phase.Opening?
    && d in w.calls && w.calls[d].phase.Opening?
    && w.calls[c].org == w.calls[d].org
  }

  /** No two opens of one organization overlap, and no organization is opened successfully twice. */
  lemma OneOpenPerOrg(actions: seq<Action>)
    ensures var w := Run(Init(), actions);
            && (forall c, d :: OpeningFor(w, c, d) ==> c == d)
            && (forall i, j :: 0 <= i < j < |w.opens| ==> w.opens[i] != w.opens[j])
  {
    RunKeepsInv(actions);
  }

  /** Every call that returns an engine returns the same one for its organization: the cached one. */
  lemma EveryCallerGetsTheEngine(actions: seq<Action>, c: nat, d: nat)
    requires var w := Run(Init(), actions);
             && c in w.calls && w.calls[c].phase.Returned? && w.calls[c].phase.result.Some?
             && d in w.calls && w.calls[d].phase.Returned? && w.calls[d].phase.result.Some?
             && w.calls[c].org == w.calls[d].org
    ensures var w := Run(Init(), actions);
            && w.calls[c].phase.result == w.calls[d].phase.result
            && w.calls[c].org in w.engines && w.calls[c].phase.result == Some(w.engines[w.calls[c].org])
            && w.calls[c].org in w.latest && w.engines[w.calls[c].org] == w.latest[w.calls[c].org]
  {
    RunKeepsInv(actions);
  }

  lemma StepKeepsEngine(w: World, a: Action, org: nat)
    requires Inv(w) && org in w.engines
    ensures org in Step(w, a).engines && Step(w, a).engines[org] == w.engines[org]
  {
  }

  /** A cached engine is never replaced. */
  lemma {:induction false} EngineStays(w: World, actions: seq<Action>, org: nat)
    requires Inv(w) && org in w.engines
    ensures Inv(Run(w, actions))
    ensures org in Run(w, actions).engines && Run(w, actions).engines[org] == w.engines[org]
  {
    if actions != [] {
      EngineStays(w, actions[..|actions| - 1], org);
      StepKeepsInv(Run(w, actions[..|actions| - 1]), actions[|actions| - 1]);
      StepKeepsEngine(Run(w, actions[..|actions| - 1]), actions[|actions| - 1], org);
    }
  }

  /** The call some other call is stuck behind, or the call itself. */
  function Blocker(w: World, c: nat): nat
    requires Inv(w) && c in w.calls && !w.calls[c].phase.Returned?
  {
    if Enabled(w, c) then c
    else if w.mu.Some? then w.mu.value
    else w.orgLocks[w.calls[c].org]
  }

  /**
   No set of calls deadlocks: whatever call is unfinished, the call it is stuck
   behind can move, and the holder of the short lock never waits and is never inside
   an open.
   */
  lemma NoDeadlock(actions: seq<Action>, c: nat)
    requires var w := Run(Init(), actions); c in w.calls && !w.calls[c].phase.Returned?
    ensures Inv(Run(Init(), actions))
    ensures var w := Run(Init(), actions);
            var b := Blocker(w, c);
            && Enabled(w, b)
            && (w.mu.Some? ==> Enabled(w, w.mu.value) && !w.calls[w.mu.value].phase.Opening?)
  {
    RunKeepsInv(actions);
  }

  /** Such a move is a step of the protocol: it changes the world, or ends the open it is inside. */
  lemma {:induction false} EnabledMoves(w: World, c: nat)
    requires Enabled(w, c)
    ensures if w.calls[c].phase.Opening? then Step(w, OpenDone(c, None)).calls[c] != w.calls[c]
            else Step(w, Advance(c)).calls[c] != w.calls[c]
  {
  }
}
