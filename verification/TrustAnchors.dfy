/**
 The trust-anchor store: anchors loaded at start, reloaded in the background once
 they are a day old, retried a quarter of an hour after a failed attempt, and, when
 configured, the embedded roots until the EU lists load.
 */
module TrustAnchors {
  import opened Wrappers

  /** Seconds. */
  const TRUST_REFRESH: nat := 86400
  const TRUST_RETRY: nat := 900

  datatype Origin = EuLists | Pinned

  /** Anchors and where they come from: a load of the configured source, or the fallback roots. */
  datatype Anchors = Anchors(origin: Origin, version: nat)

  datatype Config = Config(source: Origin, fallbackToPinned: bool)

  /** The fields the store's mutex guards. loadedAt is None while the store runs on the fallback. */
  datatype Fields = Fields(
    anchors: Option<Anchors>, loadedAt: Option<nat>, pinned: bool, attemptedAt: nat, reloading: bool)

  /** The configured source loaded, or the load failed. */
  function Loaded(config: Config, version: nat): Anchors
  {
    Anchors(config.source, version)
  }

  function Initialised(config: Config, now: nat, load: Option<nat>, embedded: bool): Option<Fields>
  {
    if load.Some? then
      Some(Fields(Some(Loaded(config, load.value)), Some(now), config.source == Pinned, now, false))
    else if config.fallbackToPinned && embedded then Some(Fields(Some(Anchors(Pinned, 0)), None, true, now, false))
    else None
  }

  /** The anchors are a day old, or the fallback, and no attempt ran in the last quarter of an hour. */
  predicate StartsReload(f: Fields, now: int)
  {
    !f.reloading && (f.loadedAt == None || now - f.loadedAt.value >= TRUST_REFRESH) && now - f.attemptedAt >= TRUST_RETRY
  }

  function Asked(f: Fields, now: nat): Fields
  {
    if StartsReload(f, now) then f.(reloading := true, attemptedAt := now) else f
  }

  function Reloaded(config: Config, f: Fields, now: nat, load: Option<nat>): Fields
  {
    if load == None then f.(reloading := false)
    else Fields(Some(Loaded(config, load.value)), Some(now), config.source == Pinned, f.attemptedAt, false)
  }

  class TrustStore {
    const config: Config
    var anchors: Option<Anchors>
    var loadedAt: Option<nat>
    var pinned: bool
    var attemptedAt: nat
    var reloading: bool

    function State(): Fields
      reads this
    {
      Fields(anchors, loadedAt, pinned, attemptedAt, reloading)
    }

    constructor (config: Config)
      ensures this.config == config && State() == Fields(None, None, false, 0, false)
    {
      this.config := config;
      anchors, loadedAt, pinned, attemptedAt, reloading := None, None, false, 0, false;
    }

    /** Loads the anchors before the store is shared; embedded says whether the pinned roots can be built. */
    method Init(now: nat, load: Option<nat>, embedded: bool) returns (ok: bool)
      requires State() == Fields(None, None, false, 0, false)
      modifies this
      ensures ok <==> Initialised(config, now, load, embedded).Some?
      ensures ok ==> State() == Initialised(config, now, load, embedded).value
      ensures !ok ==> anchors == None
    {
      attemptedAt := now;
      if load.Some? {
        anchors, loadedAt, pinned := Some(Loaded(config, load.value)), Some(now), config.source == Pinned;
        return true;
      }
      if !config.fallbackToPinned || !embedded {
        return false;
      }
      anchors, pinned := Some(Anchors(Pinned, 0)), true;
      return true;
    }

    /** The anchors at once, and whether this call started a reload. */
    method Current(now: nat) returns (source: Option<Anchors>, onPinned: bool, starts: bool)
      modifies this`reloading, this`attemptedAt
      ensures starts == StartsReload(old(State()), now)
      ensures State() == Asked(old(State()), now)
      ensures source == old(anchors) && onPinned == old(pinned)
    {
      starts := !reloading && (loadedAt == None || now - loadedAt.value >= TRUST_REFRESH) && now - attemptedAt >= TRUST_RETRY;
      if starts {
        reloading, attemptedAt := true, now;
      }
      return anchors, pinned, starts;
    }

    /** The end of a background reload; a failed one keeps the anchors. */
    method FinishReload(now: nat, load: Option<nat>)
      modifies this
      ensures State() == Reloaded(config, old(State()), now, load)
    {
      reloading := false;
      if load == None {
        return;
      }
      anchors, loadedAt, pinned := Some(Loaded(config, load.value)), Some(now), config.source == Pinned;
    }

    /** The anchors for one issuer: refused when there are none, or only pinned ones it has no root in. */
    method AnchorsFor(issuerPinned: bool, now: nat) returns (source: Option<Anchors>)
      modifies this`reloading, this`attemptedAt
      ensures State() == Asked(old(State()), now)
      ensures source == if old(anchors) == None || (old(pinned) && !issuerPinned) then None else old(anchors)
    {
      var onPinned, starts;
      source, onPinned, starts := Current(now);
      if onPinned && !issuerPinned {
        source := None;
      }
    }
  }

  // ---- runs of a shared store on a monotone clock ----

  /**
   starts holds when each reload started, after the initial attempt; inFlight the
   reloads running; loads whether the configured source ever loaded.
   */
  datatype World = World(config: Config, fields: Fields, now: nat, starts: seq<nat>, inFlight: nat, loads: bool)

  datatype Action =
    | Pass(seconds: nat)
    | Ask
    | Finish(load: Option<nat>)

  function Boot(config: Config, now: nat, load: Option<nat>): World
    requires Initialised(config, now, load, true).Some?
  {
    World(config, Initialised(config, now, load, true).value, now, [now], 0, load.Some?)
  }

  function Step(w: World, a: Action): World
  {
    match a
    case Pass(seconds) => w.(now := w.now + seconds)
    case Ask =>
      if StartsReload(w.fields, w.now)
      then w.(fields := Asked(w.fields, w.now), starts := w.starts + [w.now], inFlight := w.inFlight + 1)
      else w.(fields := Asked(w.fields, w.now))
    case Finish(load) =>
      if w.inFlight == 0 then w
      else w.(fields := Reloaded(w.config, w.fields, w.now, load), inFlight := w.inFlight - 1, loads := w.loads || load.Some?)
  }

  function Run(w: World, actions: seq<Action>): World
  {
    if actions == [] then w
    else Step(Run(w, actions[..|actions| - 1]), actions[|actions| - 1])
  }

  ghost predicate Inv(w: World)
  {
    && w.fields.anchors.Some?
    && (w.fields.reloading <==> w.inFlight == 1) && w.inFlight <= 1
    && |w.starts| > 0 && w.fields.attemptedAt == w.starts[|w.starts| - 1] && w.fields.attemptedAt <= w.now
    && (forall i, j :: 0 <= i < j < |w.starts| ==> w.starts[j] - w.starts[i] >= (j - i) * TRUST_RETRY)
    && (w.loads <==> w.fields.loadedAt.Some?)
    && (w.fields.loadedAt.Some? ==> w.fields.loadedAt.value <= w.now)
    && (w.fields.pinned <==> w.config.source == Pinned || !w.loads)
    && w.fields.anchors.value.origin == (if w.fields.pinned then Pinned else EuLists)
  }

  lemma StepKeepsInv(w: World, a: Action)
    requires Inv(w)
    ensures Inv(Step(w, a)) && Step(w, a).config == w.config
  {
  }

  lemma {:induction false} RunKeepsInv(w: World, actions: seq<Action>)
    requires Inv(w)
    ensures Inv(Run(w, actions)) && Run(w, actions).config == w.config
  {
    if actions != [] {
      RunKeepsInv(w, actions[..|actions| - 1]);
      StepKeepsInv(Run(w, actions[..|actions| - 1]), actions[|actions| - 1]);
    }
  }

  /** A store that started keeps its anchors through any failures, with at most one reload in flight. */
  lemma {:induction false} AnchorsNeverLost(config: Config, now: nat, load: Option<nat>, actions: seq<Action>)
    requires Initialised(config, now, load, true).Some?
    ensures var w := Run(Boot(config, now, load), actions);
            w.fields.anchors.Some? && w.inFlight <= 1 && (w.fields.reloading <==> w.inFlight == 1)
  {
    RunKeepsInv(Boot(config, now, load), actions);
  }

  /** Attempts to load, the first at start, are at least a quarter of an hour apart: n of them take n - 1 quarters. */
  lemma AttemptsSpaced(config: Config, now: nat, load: Option<nat>, actions: seq<Action>, i: nat, j: nat)
    requires Initialised(config, now, load, true).Some?
    requires i < j < |Run(Boot(config, now, load), actions).starts|
    ensures var starts := Run(Boot(config, now, load), actions).starts; starts[j] - starts[i] >= (j - i) * TRUST_RETRY
  {
    RunKeepsInv(Boot(config, now, load), actions);
  }

  /** With the EU lists as source, the store runs on pinned roots exactly until their first successful load. */
  lemma PinnedUntilFirstLoad(config: Config, now: nat, load: Option<nat>, actions: seq<Action>)
    requires Initialised(config, now, load, true).Some? && config.source == EuLists
    ensures var w := Run(Boot(config, now, load), actions);
            && (w.fields.pinned <==> !w.loads)
            && w.fields.anchors.Some? && (w.fields.anchors.value.origin == Pinned <==> !w.loads)
  {
    RunKeepsInv(Boot(config, now, load), actions);
  }

  /** Once loaded, never pinned again: the fallback does not return under any later failures. */
  lemma {:induction false} FallbackNeverReturns(w: World, actions: seq<Action>)
    requires Inv(w) && w.config.source == EuLists && w.loads
    ensures !Run(w, actions).fields.pinned && Run(w, actions).loads && Inv(Run(w, actions))
    ensures Run(w, actions).config == w.config
  {
    if actions != [] {
      FallbackNeverReturns(w, actions[..|actions| - 1]);
      StepKeepsInv(Run(w, actions[..|actions| - 1]), actions[|actions| - 1]);
    }
  }

  /** What AnchorsFor answers in a world. */
  predicate Refused(w: World, issuerPinned: bool)
  {
    w.fields.anchors == None || (w.fields.pinned && !issuerPinned)
  }

  /** An issuer without pinned roots is refused exactly while the store runs on pinned roots; any other never. */
  lemma {:induction false} RefusedOnlyOnPinned(config: Config, now: nat, load: Option<nat>, actions: seq<Action>, issuerPinned: bool)
    requires Initialised(config, now, load, true).Some?
    ensures var w := Run(Boot(config, now, load), actions);
            && w.fields.anchors.Some?
            && (Refused(w, issuerPinned) <==> !issuerPinned && w.fields.anchors.value.origin == Pinned)
  {
    RunKeepsInv(Boot(config, now, load), actions);
  }

  /** No reload starts within a day of a load. */
  lemma {:induction false} FreshAnchorsAreKept(w: World)
    requires Inv(w) && w.fields.loadedAt.Some? && w.now - w.fields.loadedAt.value < TRUST_REFRESH
    ensures Step(w, Ask) == w
  {
  }
}
