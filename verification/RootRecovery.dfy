/** Automatic recovery of failed root turns, as a state machine. A step is one call of
    the gate up to its first await; where the call goes on to end an episode after
    awaiting a notice, the end is a step of its own that comes later. Episodes are
    objects: they live in `store` under a handle, and the gate's dictionaries lead to
    handles, so that several episodes with one id can be told apart. */
module RootRecovery {
  import opened Wrappers
  import opened Dicts

  const PROJECTION_CAPACITY: nat := 64
  const EPISODE_CAPACITY: nat := 16
  const TERMINAL_TURN_CAPACITY: nat := 64

  datatype FailureClass =
    | ProviderStall | ProviderOverloaded | ProviderRateLimit | LaunchFailure | Preflight | Task | Cancellation
    | Authorization | PermanentConfig | BudgetStop | CompletionRejection | IncompleteStream | EmptyResponse
    | Unknown | Internal

  datatype Eligible =
    | ConnectionClass | TimeoutClass | ServerErrorClass | OverloadClass | RateLimitClass
    | IncompleteStreamClass | EmptyResponseClass | LaunchFailureClass

  datatype Category =
    | ConnectionCause | TimeoutCause | ServerErrorCause | OverloadCause | RateLimitCause
    | IncompleteStreamCause | EmptyResponseCause | OtherCause(name: string)

  datatype Failure = Failure(
    turnId: string, observedAt: real, cause: Option<Category>, failureClass: FailureClass, transientConfirmed: bool,
    retryAfter: Option<real>, elapsed: Option<real>, effectsSettled: bool, interactionBarrier: bool)

  type Seconds = r: real | r > 0.0 witness 1.0

  datatype Config = Config(
    enabled: bool, eligible: set<Eligible>, maxRetries: nat, window: Seconds, cooldowns: seq<real>, jitter: real,
    recheck: Seconds)

  datatype View = View(
    sessionId: string, activeTurn: Option<string>, queuedWork: bool, openCallbacks: bool, stopRequested: bool,
    handoffPending: bool, lifecycleReserved: bool, closing: bool)

  datatype Availability = Availability(available: bool, permanent: bool, probeInFlight: bool, nextCheck: real)

  /** Everything a decision reads from outside: live configuration, session, transcript
      check and availability, two readings of the clock and a random draw. */
  datatype Env = Env(
    config: Config, view: View, poisoned: bool, availability: Availability, now: real, later: real, draw: real)

  /** One continuation chain's budget. `links` remembers every successor turn it had. */
  datatype Episode = Episode(
    id: string, initialTurn: string, startedAt: real, window: real, deadlineAt: real, maxRetries: nat,
    cooldowns: seq<real>, jitter: real, recheck: real,
    count: nat, pendingKey: Option<string>, pendingTurn: Option<string>, pendingAttempt: nat, pendingDelay: real,
    pendingGeneration: int, successor: Option<string>, inFlight: bool, awaiting: bool,
    admitted: map<string, nat>, ended: bool, links: seq<string>)

  type Handle = nat

  datatype Gate = Gate(
    store: seq<Episode>, projections: Dict<string, Failure>, episodes: Dict<string, Handle>,
    byTerminalTurn: Dict<string, string>, ending: seq<Handle>)

  const NEW_GATE: Gate := Gate([], [], [], [], [])

  datatype Status = TurnCompleted | TurnInterrupted | TurnFailed

  datatype Step =
    | Capture(failure: Failure)
    | TurnStarted(turn: string, key: Option<string>)
    | TurnFinished(turn: string, status: Status)
    | Schedule(sessionId: string, turn: string, generation: int, env: Env)
    | Admit(sessionId: string, episodeId: string, key_: string, turn: string, generation: int, env: Env)
    | Cancel(sessionId: string, episodeId: string, view: View)
    | EndEpisode(h: Handle)
    | InvalidateAll

  datatype Outcome =
    | Done
    | Declined
    | Linked(h: Handle, turn: string)
    | Scheduled(h: Handle, failure: Failure, attempt: nat, delay: real, now: real)
    | AlreadyScheduled(h: Handle)
    | Admitted(h: Handle, attempt: nat, now: real)
    | AlreadyAdmitted(h: Handle, attempt: nat)
    | Deferred(h: Handle, delay: real, now: real, probe: bool)

  // Eligibility.

  function EligibleClassOf(f: Failure): Option<Eligible> {
    if f.failureClass.LaunchFailure? then Some(LaunchFailureClass)
    else
      match f.cause
      case None => None
      case Some(ConnectionCause) => Some(ConnectionClass)
      case Some(TimeoutCause) => Some(TimeoutClass)
      case Some(ServerErrorCause) => Some(ServerErrorClass)
      case Some(OverloadCause) => Some(OverloadClass)
      case Some(RateLimitCause) => Some(RateLimitClass)
      case Some(IncompleteStreamCause) => Some(IncompleteStreamClass)
      case Some(EmptyResponseCause) => Some(EmptyResponseClass)
      case Some(OtherCause(_)) => None
  }

  /** A failure of any other class is final. */
  predicate Transient(c: FailureClass) {
    c.ProviderStall? || c.ProviderOverloaded? || c.ProviderRateLimit? || c.LaunchFailure? || c.IncompleteStream? || c.EmptyResponse?
  }

  predicate Barrier(v: View) {
    v.closing || v.openCallbacks || v.queuedWork || v.stopRequested || v.handoffPending || v.lifecycleReserved
  }

  /** Whether `schedule` gets past its eligibility and barrier checks. */
  predicate MayRecover(f: Failure, env: Env) {
    && !env.poisoned
    && EligibleClassOf(f).Some? && Transient(f.failureClass) && f.transientConfirmed
    && EligibleClassOf(f).value in env.config.eligible
    && !f.interactionBarrier && f.effectsSettled
    && !Barrier(env.view)
  }

  // Delays.

  function Max(a: real, b: real): (r: real)
    ensures r >= a && r >= b && (r == a || r == b)
  {
    if a >= b then a else b
  }

  function Min(a: real, b: real): real {
    if a <= b then a else b
  }

  /** A draw from [0, 1) as a swing from -1 to 1; a draw outside is clamped. */
  function Swing(draw: real): (r: real)
    ensures -1.0 <= r <= 1.0
  {
    2.0 * Min(Max(draw, 0.0), 1.0) - 1.0
  }

  /** A delay moved by a swing of at most `part`. */
  function Moved(base: real, part: real, swing: real): (r: real)
    ensures r >= 0.0
  {
    Max(0.0, base + part * swing)
  }

  function JitteredBackoff(base: real, fraction: real, draw: real): (r: real)
    ensures r >= 0.0
  {
    if base <= 0.0 then 0.0
    else if fraction <= 0.0 then base
    else Moved(base, base * fraction, Swing(draw))
  }

  function Backoff(cooldowns: seq<real>, count: nat): real {
    if |cooldowns| == 0 then 0.0 else cooldowns[if count < |cooldowns| then count else |cooldowns| - 1]
  }

  /** What is left of the provider's retry-after, by a second reading of the clock. */
  function RetryAfterLeft(f: Failure, env: Env): real {
    if f.retryAfter.Some? then Max(0.0, f.retryAfter.value - (env.later - f.observedAt)) else 0.0
  }

  /** The delay that is due before jitter. */
  function Due(e: Episode, f: Failure, env: Env): real {
    var base := Max(Backoff(e.cooldowns, e.count), RetryAfterLeft(f, env));
    if env.availability.available then base else Max(base, env.availability.nextCheck)
  }

  function ComputeDelay(e: Episode, f: Failure, env: Env): (r: real)
    ensures r >= 0.0
  {
    JitteredBackoff(Due(e, f, env), e.jitter, env.draw)
  }

  /** How long a deferred admission is told to wait. */
  function RecheckDelay(e: Episode, a: Availability): real {
    if a.probeInFlight || a.nextCheck <= 0.0 then Max(a.nextCheck, e.recheck) else a.nextCheck
  }

  // Episodes in the gate.

  function Key(id: string, attempt: nat): string {
    "root-auto-recovery:" + id + ":" + Decimal(attempt)
  }

  function NewEpisode(f: Failure, config: Config): Episode {
    var startedAt := f.observedAt - f.elapsed.GetOr(0.0);
    Episode("root-auto-" + f.turnId, f.turnId, startedAt, config.window, startedAt + config.window, config.maxRetries,
            config.cooldowns, config.jitter, config.recheck,
            0, None, None, 0, 0.0, 0, None, false, false, map[], false, [])
  }

  /** Something was done for the episode: a retry admitted, or one waiting to be. */
  predicate Driven(e: Episode) {
    e.count > 0 || e.pendingKey.Some? || e.successor.Some?
  }

  function Set(g: Gate, h: Handle, e: Episode): Gate
    requires h < |g.store|
  {
    g.(store := g.store[h := e])
  }

  function End(g: Gate, h: Handle): Gate
    requires h < |g.store|
  {
    Set(g, h, g.store[h].(ended := true)).(episodes := Pop(g.episodes, g.store[h].id))
  }

  function EndLater(g: Gate, h: Handle): Gate {
    g.(ending := g.ending + [h])
  }

  /** End an episode, after its notice if there is anything to announce. */
  function Stop(g: Gate, h: Handle): Gate
    requires h < |g.store|
  {
    if Driven(g.store[h]) then EndLater(g, h) else End(g, h)
  }

  /** The first live episode of the dictionary that `p` holds of. */
  function FirstLive(g: Gate, d: Dict<string, Handle>, p: Episode -> bool): (r: Option<Handle>)
    ensures r.Some? ==> r.value < |g.store| && !g.store[r.value].ended && p(g.store[r.value])
  {
    if |d| == 0 then None
    else if d[0].1 < |g.store| && !g.store[d[0].1].ended && p(g.store[d[0].1]) then Some(d[0].1)
    else FirstLive(g, d[1..], p)
  }

  function Find(g: Gate, p: Episode -> bool): (r: Option<Handle>)
    ensures r.Some? ==> r.value < |g.store| && !g.store[r.value].ended && p(g.store[r.value])
  {
    FirstLive(g, g.episodes, p)
  }

  /** The live episode filed under an id. */
  function Live(g: Gate, id: string): (r: Option<Handle>)
    ensures r.Some? ==> r.value < |g.store| && !g.store[r.value].ended
  {
    match Get(g.episodes, id)
    case Some(h) => if h < |g.store| && !g.store[h].ended then Some(h) else None
    case None => None
  }

  /** The episode whose successor failed, or a new one; and the gate with it filed. */
  function EpisodeFor(g: Gate, f: Failure, config: Config): (r: (Gate, Handle))
    ensures r.1 < |r.0.store|
  {
    match Find(g, (e: Episode) => e.successor == Some(f.turnId))
    case Some(h) => (g, h)
    case None =>
      var e := NewEpisode(f, config);
      (g.(store := g.store + [e], episodes := Trim(Put(g.episodes, e.id, |g.store|), EPISODE_CAPACITY)), |g.store|)
  }

  function EndLinked(g: Gate, turn: string): Gate {
    match Find(g, (e: Episode) => e.successor == Some(turn) || e.pendingTurn == Some(turn) || e.initialTurn == turn)
    case Some(h) => Stop(g, h)
    case None => g
  }

  // Schedule.

  /** Give the episode its next attempt, if budget, deadline and availability allow. */
  function Arm(g: Gate, h: Handle, f: Failure, generation: int, env: Env): (Gate, Outcome)
    requires h < |g.store|
  {
    var e := g.store[h];
    var delay := ComputeDelay(e, f, env);
    if e.count >= e.maxRetries || env.now >= e.deadlineAt || env.availability.permanent || delay > e.deadlineAt - env.now
    then (Stop(g, h), Declined)
    else
      var attempt := e.count + 1;
      var armed := e.(pendingKey := Some(Key(e.id, attempt)), pendingTurn := Some(f.turnId), pendingAttempt := attempt,
                      pendingDelay := delay, pendingGeneration := generation);
      (Set(g, h, armed).(byTerminalTurn := Trim(Put(g.byTerminalTurn, f.turnId, e.id), TERMINAL_TURN_CAPACITY)),
       Scheduled(h, f, attempt, delay, env.now))
  }

  function ScheduleFailure(g: Gate, f: Failure, generation: int, env: Env): (Gate, Outcome) {
    if !MayRecover(f, env) then (EndLinked(g, f.turnId), Declined)
    else
      var (filed, h) := EpisodeFor(g, f, env.config);
      Arm(filed, h, f, generation, env)
  }

  function ScheduleTurn(g: Gate, sessionId: string, turn: string, generation: int, env: Env): (Gate, Outcome) {
    if env.view.sessionId != sessionId || !env.config.enabled then (g, Declined)
    else
      match Get(g.byTerminalTurn, turn)
      case Some(id) =>
        (match Live(g, id)
         case Some(h) => if g.store[h].pendingKey.Some? then (g, AlreadyScheduled(h)) else (g, Declined)
         case None => (g, Declined))
      case None =>
        match Get(g.projections, turn)
        case None => (g, Declined)
        case Some(f) => ScheduleFailure(g, f, generation, env)
  }

  // Admission.

  function AdmitPending(g: Gate, h: Handle, key: string, env: Env): (Gate, Outcome)
    requires h < |g.store|
  {
    var e := g.store[h];
    if e.count >= e.maxRetries || env.now >= e.deadlineAt || env.availability.permanent then (Stop(g, h), Declined)
    else if !env.availability.available then
      var delay := RecheckDelay(e, env.availability);
      if env.now + delay >= e.deadlineAt then (Stop(g, h), Declined)
      else (g, Deferred(h, delay, env.now, env.availability.probeInFlight))
    else
      var next := e.(count := e.count + 1, admitted := e.admitted[key := e.pendingAttempt], awaiting := true);
      (Set(g, h, next), Admitted(h, e.pendingAttempt, env.now))
  }

  function AdmitEpisode(g: Gate, h: Handle, key: string, turn: string, generation: int, env: Env): (Gate, Outcome)
    requires h < |g.store|
  {
    var e := g.store[h];
    if !env.config.enabled then (if e.inFlight then g else Stop(g, h), Declined)
    else if env.poisoned then (Stop(g, h), Declined)
    else if key in e.admitted then (g, AlreadyAdmitted(h, e.admitted[key]))
    else if Some(key) != e.pendingKey || Some(turn) != e.pendingTurn then (g, Declined)
    else if generation != e.pendingGeneration || Barrier(env.view) || env.view.activeTurn.Some? then (Stop(g, h), Declined)
    else AdmitPending(g, h, key, env)
  }

  function AdmitTurn(g: Gate, sessionId: string, episodeId: string, key: string, turn: string, generation: int, env: Env): (Gate, Outcome) {
    if env.view.sessionId != sessionId then (g, Declined)
    else
      match Live(g, episodeId)
      case None => (g, Declined)
      case Some(h) => AdmitEpisode(g, h, key, turn, generation, env)
  }

  // Turns and cancellation.

  /** End every live episode without a successor in flight. */
  function Supersede(g: Gate, d: Dict<string, Handle>): Gate
    decreases |d|
  {
    if |d| == 0 then g
    else
      var h := d[0].1;
      if h >= |g.store| || g.store[h].ended || g.store[h].inFlight then Supersede(g, d[1..]) else Supersede(End(g, h), d[1..])
  }

  function StartTurn(g: Gate, turn: string, key: Option<string>): (Gate, Outcome) {
    match if key.Some? then Find(g, (e: Episode) => key.value in e.admitted) else None
    case None => (Supersede(g, g.episodes), Done)
    case Some(h) =>
      var e := g.store[h];
      if e.awaiting then
        (Set(g, h, e.(awaiting := false, successor := Some(turn), inFlight := true, links := e.links + [turn])), Linked(h, turn))
      else (g, Done)
  }

  function FinishTurn(g: Gate, turn: string, status: Status): Gate {
    match Find(g, (e: Episode) => e.successor == Some(turn))
    case None => g
    case Some(h) => if status.TurnFailed? then Set(g, h, g.store[h].(inFlight := false)) else EndLater(g, h)
  }

  function CancelEpisode(g: Gate, sessionId: string, episodeId: string, view: View): Gate {
    if view.sessionId != sessionId then g
    else
      match Live(g, episodeId)
      case None => g
      case Some(h) => if g.store[h].inFlight then g else Stop(g, h)
  }

  /** The end of an episode that a notice was awaited for. */
  function EndAwaited(g: Gate, h: Handle): Gate {
    if h in g.ending && h < |g.store| then
      var i := IndexOfHandle(g.ending, h);
      End(g, h).(ending := g.ending[..i] + g.ending[i + 1..])
    else g
  }

  function IndexOfHandle(hs: seq<Handle>, h: Handle): (i: nat)
    requires h in hs
    ensures i < |hs| && hs[i] == h
  {
    if hs[0] == h then 0 else 1 + IndexOfHandle(hs[1..], h)
  }

  function Take(g: Gate, step: Step): (Gate, Outcome) {
    match step
    case Capture(f) => (g.(projections := Trim(Put(g.projections, f.turnId, f), PROJECTION_CAPACITY)), Done)
    case TurnStarted(turn, key) => StartTurn(g, turn, key)
    case TurnFinished(turn, status) => (FinishTurn(g, turn, status), Done)
    case Schedule(sessionId, turn, generation, env) => ScheduleTurn(g, sessionId, turn, generation, env)
    case Admit(sessionId, id, key, turn, generation, env) => AdmitTurn(g, sessionId, id, key, turn, generation, env)
    case Cancel(sessionId, id, view) => (CancelEpisode(g, sessionId, id, view), Done)
    case EndEpisode(h) => (EndAwaited(g, h), Done)
    case InvalidateAll => (g.(projections := [], episodes := [], byTerminalTurn := []), Done)
  }
}
