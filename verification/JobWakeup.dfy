/**
 The job runner behind LISTEN/NOTIFY: a listener that reconnects with backoff, a
 one-slot wake channel that coalesces signals, and a loop that runs the job at
 start, when woken, and at the deadline the job returned.
 */
module JobWakeup {
  const RETRY_MIN: nat := 1
  const RETRY_MAX: nat := 300

  /** Where the listener stands. Only a Waiting or Dispatching connection is LISTENing with its start signalled. */
  datatype Listener =
    | Sleeping      // between connections
    | Connecting    // acquiring a connection
    | Connected     // before LISTEN
    | Listening     // LISTEN holds, listening() not yet called
    | Waiting       // in WaitForNotification
    | Dispatching   // took a notification, notified() not yet called

  datatype Runner = AboutToRun | Running | Selecting(deadline: bool)

  /** How a run ends: well with or without a deadline, or failed or panicked. */
  datatype Outcome = Succeeded(deadline: bool) | Failed

  /**
   unserved says a notification committed since the last run started; queue counts
   the notifications on the live connection; lost and failed count the connections
   lost and the runs failed in a row. pause is what the listener sleeps for and
   delay what a failed run waits; both, and the retries they come from, are in seconds.
   */
  datatype World = World(
    unserved: bool, slot: bool, queue: nat,
    listener: Listener, listenRetry: nat, lost: nat, pause: nat,
    runner: Runner, runRetry: nat, failed: nat, delay: nat)

  datatype Action =
    | Commit            // a notification commits
    | Wake              // the listener's backoff passed
    | Acquire(ok: bool)
    | Listen(ok: bool)
    | SignalStart       // connected(): resets the retry, then signals
    | Take              // WaitForNotification returns one
    | Dispatch          // notified(): signals
    | Lose              // the connection fails
    | Start             // the runner starts the job
    | Finish(outcome: Outcome)
    | TakeWake          // the runner's select takes the slot
    | Fire              // or its timer

  function Init(): World
  {
    World(false, false, 0, Connecting, RETRY_MIN, 0, 0, AboutToRun, RETRY_MIN, 0, 0)
  }

  function Min(a: nat, b: nat): nat
  {
    if a <= b then a else b
  }

  /** The connection is gone with all it queued; the listener sleeps for its retry, which doubles up to the bound. */
  function Drop(w: World): World
  {
    w.(listener := Sleeping, queue := 0, pause := w.listenRetry,
       listenRetry := Min(w.listenRetry * 2, RETRY_MAX), lost := w.lost + 1)
  }

  /** The server queues a notification on a connection that LISTENs. */
  predicate Queues(l: Listener)
  {
    l.Listening? || l.Waiting? || l.Dispatching?
  }

  function Step(w: World, a: Action): World
  {
    match a
    case Commit => w.(unserved := true, queue := if Queues(w.listener) then w.queue + 1 else w.queue)
    case Wake => if w.listener.Sleeping? then w.(listener := Connecting) else w
    case Acquire(ok) =>
      if !w.listener.Connecting? then w else if ok then w.(listener := Connected) else Drop(w)
    case Listen(ok) =>
      if !w.listener.Connected? then w else if ok then w.(listener := Listening) else Drop(w)
    case SignalStart =>
      if w.listener.Listening? then w.(listener := Waiting, slot := true, listenRetry := RETRY_MIN, lost := 0) else w
    case Take =>
      if w.listener.Waiting? && w.queue > 0 then w.(listener := Dispatching, queue := w.queue - 1) else w
    case Dispatch => if w.listener.Dispatching? then w.(listener := Waiting, slot := true) else w
    case Lose => if w.listener.Waiting? then Drop(w) else w
    case Start => if w.runner.AboutToRun? then w.(runner := Running, unserved := false) else w
    case Finish(outcome) =>
      if !w.runner.Running? then w
      else if outcome.Failed? then
        w.(runner := Selecting(true), delay := w.runRetry, runRetry := Min(w.runRetry * 2, RETRY_MAX), failed := w.failed + 1)
      else w.(runner := Selecting(outcome.deadline), runRetry := RETRY_MIN, failed := 0)
    case TakeWake => if w.runner.Selecting? && w.slot then w.(runner := AboutToRun, slot := false) else w
    case Fire => if w.runner.Selecting? && w.runner.deadline then w.(runner := AboutToRun) else w
  }

  function Run(w: World, actions: seq<Action>): World
  {
    if actions == [] then w
    else Step(Run(w, actions[..|actions| - 1]), actions[|actions| - 1])
  }

  // ---- no wake-up is lost ----

  /** The listener still signals once its connection LISTENs, for anything missed before. */
  predicate StillSignals(l: Listener)
  {
    l.Sleeping? || l.Connecting? || l.Connected? || l.Listening?
  }

  /** Something that leads to a run stands for the notification. */
  predicate Covered(w: World)
  {
    w.slot || w.runner.AboutToRun? || w.queue > 0 || w.listener.Dispatching? || StillSignals(w.listener)
  }

  /** The retry after n failures in a row: 1, 2, 4 … seconds, at most 5 minutes. */
  function Backoff(n: nat): (retry: nat)
    ensures RETRY_MIN <= retry <= RETRY_MAX
  {
    if n == 0 then RETRY_MIN else Min(Backoff(n - 1) * 2, RETRY_MAX)
  }

  ghost predicate CoverInv(w: World)
  {
    (w.unserved ==> Covered(w)) && (w.queue > 0 ==> Queues(w.listener))
  }

  ghost predicate RetryInv(w: World)
  {
    && w.listenRetry == Backoff(w.lost)
    && w.runRetry == Backoff(w.failed)
    && (w.failed > 0 ==> w.delay == Backoff(w.failed - 1))
    && (w.lost > 0 ==> w.pause == Backoff(w.lost - 1))
  }

  ghost predicate Inv(w: World)
  {
    CoverInv(w) && RetryInv(w)
  }

  lemma StepKeepsCover(w: World, a: Action)
    requires CoverInv(w)
    ensures CoverInv(Step(w, a))
  {
  }

  /** A step either leaves a party's retries alone, resets them, or counts one more failure. */
  lemma StepMovesRetries(w: World, a: Action)
    ensures var w' := Step(w, a);
            && ((w'.lost, w'.listenRetry, w'.pause) == (w.lost, w.listenRetry, w.pause)
                || (w'.lost == 0 && w'.listenRetry == RETRY_MIN)
                || (w'.lost, w'.listenRetry, w'.pause) == (w.lost + 1, Min(w.listenRetry * 2, RETRY_MAX), w.listenRetry))
            && ((w'.failed, w'.runRetry, w'.delay) == (w.failed, w.runRetry, w.delay)
                || (w'.failed == 0 && w'.runRetry == RETRY_MIN)
                || (w'.failed, w'.runRetry, w'.delay) == (w.failed + 1, Min(w.runRetry * 2, RETRY_MAX), w.runRetry))
  {
  }

  lemma StepKeepsRetries(w: World, a: Action)
    requires RetryInv(w)
    ensures RetryInv(Step(w, a))
  {
    StepMovesRetries(w, a);
    var w' := Step(w, a);
    assert w'.lost == w.lost + 1 ==> Backoff(w'.lost) == Min(Backoff(w.lost) * 2, RETRY_MAX);
    assert w'.failed == w.failed + 1 ==> Backoff(w'.failed) == Min(Backoff(w.failed) * 2, RETRY_MAX);
  }

  lemma StepKeepsInv(w: World, a: Action)
    requires Inv(w)
    ensures Inv(Step(w, a))
  {
    StepKeepsCover(w, a);
    StepKeepsRetries(w, a);
  }

  lemma {:induction false} RunKeepsInv(actions: seq<Action>)
    ensures Inv(Run(Init(), actions))
  {
    if actions != [] {
      RunKeepsInv(actions[..|actions| - 1]);
      StepKeepsInv(Run(Init(), actions[..|actions| - 1]), actions[|actions| - 1]);
    }
  }

  /**
   However signals coalesce and connections come and go, a notification no run has
   started after is covered: by the full slot, a run about to start, a message on
   the live connection, or a connection that must still signal.
   */
  lemma {:induction false} NoWakeupIsLost(actions: seq<Action>)
    ensures var w := Run(Init(), actions); w.unserved ==> Covered(w)
  {
    RunKeepsInv(actions);
  }

  function Pow2(n: nat): (p: nat)
    ensures p >= 1
  {
    if n == 0 then 1 else 2 * Pow2(n - 1)
  }

  /** Doubling under the bound at every step is doubling, then the bound. */
  lemma {:induction false} BackoffDoubles(n: nat)
    ensures Backoff(n) == Min(Pow2(n), RETRY_MAX)
  {
    if n > 0 {
      BackoffDoubles(n - 1);
    }
  }

  /** The n-th failure in a row, of a run or of the connection, waits min(2^(n-1), 300) seconds; both retries stay within 1 s and 5 min. */
  lemma RetriesBounded(actions: seq<Action>)
    ensures var w := Run(Init(), actions);
            && (w.lost > 0 ==> w.pause == Min(Pow2(w.lost - 1), RETRY_MAX))
            && (w.failed > 0 ==> w.delay == Min(Pow2(w.failed - 1), RETRY_MAX))
            && RETRY_MIN <= w.listenRetry <= RETRY_MAX && RETRY_MIN <= w.runRetry <= RETRY_MAX
  {
    RunKeepsInv(actions);
    var w := Run(Init(), actions);
    if w.lost > 0 {
      BackoffDoubles(w.lost - 1);
    }
    if w.failed > 0 {
      BackoffDoubles(w.failed - 1);
    }
  }

  // ---- every wake-up is served ----

  predicate IsRunnerAction(a: Action)
  {
    a.Start? || a.Finish? || a.TakeWake? || a.Fire?
  }

  /** Nothing fails: connections hold and runs succeed. */
  predicate IsSound(a: Action)
  {
    !a.Lose? && (a.Acquire? || a.Listen? ==> a.ok) && (a.Finish? ==> a.outcome.Succeeded?)
  }

  /** The runner is not waiting for a signal. */
  predicate RunnerCanMove(w: World)
  {
    w.runner.Selecting? ==> w.slot || w.runner.deadline
  }

  /** A move of the runner where it can move, and of the listener where the runner waits for it. */
  predicate Helps(w: World, a: Action)
  {
    Step(w, a) != w && !a.Commit? && (IsRunnerAction(a) <==> RunnerCanMove(w))
  }

  /** How many such moves are left until the next run starts. */
  function Distance(w: World): nat
  {
    match w.runner
    case AboutToRun => 1
    case Running => if w.slot then 3 else 3 + ListenerDistance(w.listener)
    case Selecting(deadline) => if w.slot || deadline then 2 else 2 + ListenerDistance(w.listener)
  }

  function ListenerDistance(l: Listener): nat
  {
    match l
    case Sleeping => 4
    case Connecting => 3
    case Connected => 2
    case Listening => 1
    case Waiting => 2
    case Dispatching => 1
  }

  /** The next such move. */
  function NextMove(w: World): Action
  {
    match w.runner
    case AboutToRun => Start
    case Running => Finish(Succeeded(false))
    case Selecting(deadline) =>
      if w.slot then TakeWake
      else if deadline then Fire
      else match w.listener
           case Sleeping => Wake
           case Connecting => Acquire(true)
           case Connected => Listen(true)
           case Listening => SignalStart
           case Waiting => Take
           case Dispatching => Dispatch
  }

  /** While a notification waits, one party always has a move that helps, whatever the other does. */
  lemma SomeoneCanHelp(w: World)
    requires Inv(w) && w.unserved
    ensures Helps(w, NextMove(w)) && IsSound(NextMove(w))
  {
  }

  /** Until the run starts, a move that helps brings it closer, and no other move of either party or commit sets it back. */
  lemma SoundStepGetsCloser(w: World, a: Action)
    requires Inv(w) && w.unserved && IsSound(a) && !(a.Start? && w.runner.AboutToRun?)
    ensures Step(w, a).unserved && Distance(Step(w, a)) <= Distance(w)
    ensures Helps(w, a) ==> Distance(Step(w, a)) < Distance(w)
  {
  }

  /** How many moves of a schedule help. */
  function HelpfulMoves(w: World, schedule: seq<Action>): nat
    decreases schedule
  {
    if schedule == [] then 0
    else (if Helps(w, schedule[0]) then 1 else 0) + HelpfulMoves(Step(w, schedule[0]), schedule[1..])
  }

  /** The schedule starts a run. */
  predicate StartsRun(w: World, schedule: seq<Action>)
    decreases schedule
  {
    schedule != [] && ((schedule[0].Start? && w.runner.AboutToRun?) || StartsRun(Step(w, schedule[0]), schedule[1..]))
  }

  /**
   From any reachable state, every schedule in which nothing fails and the party that
   can help keeps moving starts a run for a waiting notification: at the latest with
   the seventh such move, however the moves and further commits interleave.
   */
  lemma {:induction false} WaitingGetsServed(w: World, schedule: seq<Action>)
    requires Inv(w) && w.unserved && forall a :: a in schedule ==> IsSound(a)
    requires HelpfulMoves(w, schedule) >= Distance(w)
    ensures Distance(w) <= 7 && StartsRun(w, schedule)
    decreases schedule
  {
    var a := schedule[0];
    assert a in schedule && forall b :: b in schedule[1..] ==> b in schedule;
    if !(a.Start? && w.runner.AboutToRun?) {
      SoundStepGetsCloser(w, a);
      StepKeepsInv(w, a);
      WaitingGetsServed(Step(w, a), schedule[1..]);
    }
  }
}
