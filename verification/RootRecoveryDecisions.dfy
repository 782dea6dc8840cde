/** What the gate decides, call by call: when a failed turn is scheduled, when its retry is
    admitted, put off or refused, after which delay, and what becomes of the episode. */
module RootRecoveryDecisions {
  import opened Wrappers
  import opened Dicts
  import opened RootRecovery
  import opened RootRecoveryLaws
  import opened RootRecoveryTakeover

  // Failures and sessions.

  /** Nothing is going on in the session that a retry would get in the way of. */
  predicate Quiet(v: View) {
    !v.closing && !v.openCallbacks && !v.queuedWork && !v.stopRequested && !v.handoffPending && !v.lifecycleReserved
  }

  /** Whether a failure is of a class the configuration may enable. A failed launch is of one
      class, whatever its cause. */
  predicate FallsIn(f: Failure, k: Eligible) {
    if f.failureClass.LaunchFailure? then k.LaunchFailureClass?
    else
      match k
      case ConnectionClass => f.cause == Some(ConnectionCause)
      case TimeoutClass => f.cause == Some(TimeoutCause)
      case ServerErrorClass => f.cause == Some(ServerErrorCause)
      case OverloadClass => f.cause == Some(OverloadCause)
      case RateLimitClass => f.cause == Some(RateLimitCause)
      case IncompleteStreamClass => f.cause == Some(IncompleteStreamCause)
      case EmptyResponseClass => f.cause == Some(EmptyResponseCause)
      case LaunchFailureClass => false
  }

  /** Failures of these classes are never retried, whatever caused them. */
  predicate Final(c: FailureClass) {
    || c.Preflight? || c.Task? || c.Cancellation? || c.Authorization? || c.PermanentConfig?
    || c.BudgetStop? || c.CompletionRejection? || c.Unknown? || c.Internal?
  }

  /** A failure that may be retried: known to be transient, of an enabled class, with nothing
      left undone, in a sound and quiet session. */
  predicate Retryable(f: Failure, env: Env) {
    && !env.poisoned && Quiet(env.view)
    && !Final(f.failureClass) && f.transientConfirmed && !f.interactionBarrier && f.effectsSettled
    && exists k :: k in env.config.eligible && FallsIn(f, k)
  }

  lemma RetryableExactly(f: Failure, env: Env)
    ensures MayRecover(f, env) <==> Retryable(f, env)
  {
    if MayRecover(f, env) { assert FallsIn(f, EligibleClassOf(f).value); }
    if Retryable(f, env) {
      var k :| k in env.config.eligible && FallsIn(f, k);
      assert EligibleClassOf(f) == Some(k);
    }
  }

  // Delays.

  /** What a retry may have to wait for: the cooldown configured for the attempt, or the last
      one; what is left of the provider's retry-after; the next check of a model that is
      unavailable; or nothing. */
  predicate WaitsFor(r: real, cooldowns: seq<real>, count: nat, f: Failure, env: Env) {
    || r == 0.0
    || (count < |cooldowns| && r == cooldowns[count])
    || (0 < |cooldowns| <= count && r == cooldowns[|cooldowns| - 1])
    || (f.retryAfter.Some? && r == f.retryAfter.value - (env.later - f.observedAt))
    || (!env.availability.available && r == env.availability.nextCheck)
  }

  /** The longest of these waits. */
  ghost predicate DueAfter(due: real, cooldowns: seq<real>, count: nat, f: Failure, env: Env) {
    WaitsFor(due, cooldowns, count, f, env) && forall r :: WaitsFor(r, cooldowns, count, f, env) ==> r <= due
  }

  /** The random draw moves it by up to its fraction either way: by nothing in the middle, by
      all of it at the ends, where draws beyond count as the ends; and never below zero. */
  predicate DrawnFrom(delay: real, due: real, fraction: real, draw: real) {
    if due <= 0.0 || fraction <= 0.0 then delay == due
    else
      var sample := if draw < 0.0 then 0.0 else if draw > 1.0 then 1.0 else draw;
      Swung(delay, due, due * fraction, 2.0 * sample - 1.0)
  }

  predicate Swung(delay: real, due: real, part: real, swing: real) {
    delay == if due + part * swing < 0.0 then 0.0 else due + part * swing
  }

  lemma SwungExactly(delay: real, due: real, part: real, swing: real)
    ensures Swung(delay, due, part, swing) <==> delay == Moved(due, part, swing)
  {
  }

  ghost predicate IsDelay(e: Episode, f: Failure, env: Env, delay: real) {
    exists due :: DueAfter(due, e.cooldowns, e.count, f, env) && DrawnFrom(delay, due, e.jitter, env.draw)
  }

  lemma DueExactly(e: Episode, f: Failure, env: Env, due: real)
    ensures DueAfter(due, e.cooldowns, e.count, f, env) <==> due == Due(e, f, env)
  {
    assert WaitsFor(Due(e, f, env), e.cooldowns, e.count, f, env);
    forall r | WaitsFor(r, e.cooldowns, e.count, f, env) ensures r <= Due(e, f, env) {}
    if DueAfter(due, e.cooldowns, e.count, f, env) { assert Due(e, f, env) <= due <= Due(e, f, env); }
  }

  lemma DrawnExactly(delay: real, due: real, fraction: real, draw: real)
    requires due >= 0.0
    ensures DrawnFrom(delay, due, fraction, draw) <==> delay == JitteredBackoff(due, fraction, draw)
  {
    var sample := if draw < 0.0 then 0.0 else if draw > 1.0 then 1.0 else draw;
    assert Swing(draw) == 2.0 * sample - 1.0;
    SwungExactly(delay, due, due * fraction, Swing(draw));
  }

  lemma DelayExactly(e: Episode, f: Failure, env: Env, delay: real)
    ensures IsDelay(e, f, env, delay) <==> delay == ComputeDelay(e, f, env)
  {
    var d := Due(e, f, env);
    DueExactly(e, f, env, d);
    assert WaitsFor(0.0, e.cooldowns, e.count, f, env);
    DrawnExactly(delay, d, e.jitter, env.draw);
    if due :| DueAfter(due, e.cooldowns, e.count, f, env) && DrawnFrom(delay, due, e.jitter, env.draw) {
      DueExactly(e, f, env, due);
    }
  }

  // What becomes of an episode.

  /** The episode has ended, and nothing is filed under its id any more. */
  predicate Ends(g: Gate, t: Gate, h: Handle) {
    h < |g.store| && t == g.(store := g.store[h := g.store[h].(ended := true)], episodes := Pop(g.episodes, g.store[h].id))
  }

  /** The episode ends: at once if nothing was ever scheduled or started for it, otherwise
      after the notice that says so. */
  predicate Stops(g: Gate, t: Gate, h: Handle) {
    && h < |g.store|
    && var e := g.store[h];
       if e.count == 0 && e.pendingKey.None? && e.successor.None? then Ends(g, t, h) else t == g.(ending := g.ending + [h])
  }

  /** The first live episode with the property stops; nothing changes where none has it. */
  ghost predicate StopsFirst(g: Gate, t: Gate, p: Episode -> bool) {
    (NoneThat(g, p) && t == g) || exists i: nat :: FirstThat(g, i, p) && Stops(g, t, g.episodes[i].1)
  }

  lemma StopExactly(g: Gate, h: Handle)
    requires h < |g.store|
    ensures Stops(g, Stop(g, h), h)
  {
  }

  /** Some live episode has the property, or none has. */
  lemma {:induction false} FirstOrNone(g: Gate, p: Episode -> bool, n: nat)
    requires n <= |g.episodes|
    ensures NoneBefore(g, g.episodes, n, p) || exists i: nat :: i < n && FirstThat(g, i, p)
  {
    if n > 0 {
      FirstOrNone(g, p, n - 1);
      if NoneBefore(g, g.episodes, n - 1, p) && LiveWith(g, g.episodes[n - 1].1, p) { assert FirstThat(g, n - 1, p); }
    }
  }

  lemma FoundExactly(g: Gate, p: Episode -> bool)
    ensures (NoneThat(g, p) && Find(g, p) == None) || exists i: nat :: FirstThat(g, i, p) && Find(g, p) == Some(g.episodes[i].1)
  {
    FindExactly(g, p);
    FirstOrNone(g, p, |g.episodes|);
  }

  // Scheduling.

  function SucceededBy(turn: string): Episode -> bool {
    (e: Episode) => e.successor == Some(turn)
  }

  /** The failed turn started the episode, is to be retried by it, or was its last retry. */
  function About(turn: string): Episode -> bool {
    (e: Episode) => e.successor == Some(turn) || e.pendingTurn == Some(turn) || e.initialTurn == turn
  }

  /** A new episode: its window opens when the failed call began, and nothing has been used
      of its budget. */
  predicate IsFresh(e: Episode, f: Failure, config: Config) {
    && e.id == "root-auto-" + f.turnId && e.initialTurn == f.turnId
    && e.startedAt == f.observedAt - (if f.elapsed.Some? then f.elapsed.value else 0.0)
    && e.window == config.window && e.deadlineAt == e.startedAt + config.window
    && e.maxRetries == config.maxRetries && e.cooldowns == config.cooldowns && e.jitter == config.jitter && e.recheck == config.recheck
    && e.count == 0 && e.admitted == map[] && e.links == [] && !e.ended && !e.inFlight && !e.awaiting
    && e.pendingKey.None? && e.pendingTurn.None? && e.successor.None?
  }

  /** The failure is charged to episode `h` of `u`: the live one whose retry it ended, so that
      they share one budget and one deadline; or a new one. */
  ghost predicate Charged(g: Gate, f: Failure, config: Config, u: Gate, h: Handle) {
    || (u == g && exists i: nat :: FirstThat(g, i, SucceededBy(f.turnId)) && h == g.episodes[i].1)
    || (NoneThat(g, SucceededBy(f.turnId)) && h == |g.store| && |u.store| == h + 1 && IsFresh(u.store[h], f, config)
        && u == g.(store := g.store + [u.store[h]], episodes := Trim(Put(g.episodes, u.store[h].id, h), 16)))
  }

  lemma EpisodeForExactly(g: Gate, f: Failure, config: Config)
    ensures Charged(g, f, config, EpisodeFor(g, f, config).0, EpisodeFor(g, f, config).1)
  {
    FoundExactly(g, SucceededBy(f.turnId));
    FindAlike(g, g.episodes, SucceededBy(f.turnId), (e: Episode) => e.successor == Some(f.turnId));
  }

  /** There is a retry left, and its delay is over before the deadline. */
  predicate Affordable(e: Episode, env: Env, delay: real) {
    e.count < e.maxRetries && env.now < e.deadlineAt && !env.availability.permanent && env.now + delay <= e.deadlineAt
  }

  /** The next attempt is scheduled after the delay, and the failed turn is indexed; or, where
      the episode cannot afford it, the episode stops. */
  predicate Arms(u: Gate, h: Handle, f: Failure, generation: int, env: Env, delay: real, t: Gate, out: Outcome) {
    && h < |u.store|
    && var e := u.store[h];
       if Affordable(e, env, delay) then
         && out == Scheduled(h, f, e.count + 1, delay, env.now)
         && t == u.(store := u.store[h := e.(
                      pendingKey := Some("root-auto-recovery:" + e.id + ":" + Decimal(e.count + 1)), pendingTurn := Some(f.turnId),
                      pendingAttempt := e.count + 1, pendingDelay := delay, pendingGeneration := generation)],
                    byTerminalTurn := Trim(Put(u.byTerminalTurn, f.turnId, e.id), 64))
       else out.Declined? && Stops(u, t, h)
  }

  ghost predicate ArmsAfterDelay(u: Gate, h: Handle, f: Failure, generation: int, env: Env, t: Gate, out: Outcome) {
    h < |u.store| && exists delay :: IsDelay(u.store[h], f, env, delay) && Arms(u, h, f, generation, env, delay, t, out)
  }

  lemma ArmExactly(u: Gate, h: Handle, f: Failure, generation: int, env: Env)
    requires h < |u.store|
    ensures ArmsAfterDelay(u, h, f, generation, env, Arm(u, h, f, generation, env).0, Arm(u, h, f, generation, env).1)
  {
    var delay := ComputeDelay(u.store[h], f, env);
    DelayExactly(u.store[h], f, env, delay);
    StopExactly(u, h);
    var (t, out) := Arm(u, h, f, generation, env);
    assert Arms(u, h, f, generation, env, delay, t, out);
  }

  /** A failure that may not be retried ends the episode it is about; one that may is charged
      to its episode, and its next attempt is scheduled if the episode can afford it. */
  ghost predicate DecidesFailure(g: Gate, f: Failure, generation: int, env: Env, t: Gate, out: Outcome) {
    if !Retryable(f, env) then out.Declined? && StopsFirst(g, t, About(f.turnId))
    else exists u, h :: Charged(g, f, env.config, u, h) && ArmsAfterDelay(u, h, f, generation, env, t, out)
  }

  lemma FailureExactly(g: Gate, f: Failure, generation: int, env: Env)
    ensures DecidesFailure(g, f, generation, env, ScheduleFailure(g, f, generation, env).0, ScheduleFailure(g, f, generation, env).1)
  {
    RetryableExactly(f, env);
    if Retryable(f, env) {
      var (u, h) := EpisodeFor(g, f, env.config);
      EpisodeForExactly(g, f, env.config);
      ArmExactly(u, h, f, generation, env);
    } else {
      EndLinkedExactly(g, f.turnId);
    }
  }

  lemma EndLinkedExactly(g: Gate, turn: string)
    ensures StopsFirst(g, EndLinked(g, turn), About(turn))
  {
    FoundExactly(g, About(turn));
    FindAlike(g, g.episodes, About(turn), (e: Episode) => e.successor == Some(turn) || e.pendingTurn == Some(turn) || e.initialTurn == turn);
    if i: nat :| FirstThat(g, i, About(turn)) && Find(g, About(turn)) == Some(g.episodes[i].1) { StopExactly(g, g.episodes[i].1); }
  }

  /** The live episode filed under an id. */
  predicate FiledLive(g: Gate, id: string, h: Handle) {
    Get(g.episodes, id) == Some(h) && h < |g.store| && !g.store[h].ended
  }

  ghost predicate NoneFiled(g: Gate, id: string) {
    forall h: Handle :: !FiledLive(g, id, h)
  }

  /** A turn is scheduled once: for one that is indexed the answer is that it was, or nothing;
      and never without a failure on record. */
  ghost predicate DecidesSchedule(g: Gate, sessionId: string, turn: string, generation: int, env: Env, t: Gate, out: Outcome) {
    if env.view.sessionId != sessionId || !env.config.enabled then t == g && out.Declined?
    else if Get(g.byTerminalTurn, turn).Some? then
      var id := Get(g.byTerminalTurn, turn).value;
      && t == g
      && (forall h: Handle :: FiledLive(g, id, h) ==> out == if g.store[h].pendingKey.Some? then AlreadyScheduled(h) else Declined)
      && (NoneFiled(g, id) ==> out.Declined?)
    else if Get(g.projections, turn).None? then t == g && out.Declined?
    else DecidesFailure(g, Get(g.projections, turn).value, generation, env, t, out)
  }

  lemma LiveExactly(g: Gate, id: string)
    ensures forall h: Handle :: FiledLive(g, id, h) <==> Live(g, id) == Some(h)
  {
  }

  lemma ScheduleExactly(g: Gate, sessionId: string, turn: string, generation: int, env: Env)
    ensures var (t, out) := ScheduleTurn(g, sessionId, turn, generation, env);
            DecidesSchedule(g, sessionId, turn, generation, env, t, out)
  {
    if Get(g.byTerminalTurn, turn).Some? {
      LiveExactly(g, Get(g.byTerminalTurn, turn).value);
    } else if Get(g.projections, turn).Some? {
      FailureExactly(g, Get(g.projections, turn).value, generation, env);
    }
  }

  // Admission.

  /** The wait a deferral is told: to the next check, but no less than the recheck interval
      where a probe is in flight or the check is due. */
  predicate RechecksAfter(delay: real, e: Episode, a: Availability) {
    if a.nextCheck >= e.recheck || (a.nextCheck > 0.0 && !a.probeInFlight) then delay == a.nextCheck else delay == e.recheck
  }

  /** The pending retry, its key in hand: admitted if there is budget, time and a model; put
      off, at no cost, if the model is only unavailable for now and there is time for that;
      otherwise the episode stops. */
  ghost predicate AdmitsPending(g: Gate, h: Handle, key: string, env: Env, t: Gate, out: Outcome) {
    && h < |g.store|
    && var e := g.store[h];
       var open := e.count < e.maxRetries && env.now < e.deadlineAt && !env.availability.permanent;
       if open && env.availability.available then
         && out == Admitted(h, e.pendingAttempt, env.now)
         && t == g.(store := g.store[h := e.(count := e.count + 1, admitted := e.admitted[key := e.pendingAttempt], awaiting := true)])
       else
         || (out.Declined? && Stops(g, t, h) && (open ==> forall delay :: RechecksAfter(delay, e, env.availability) ==> env.now + delay >= e.deadlineAt))
         || (out.Deferred? && open && t == g && out.h == h && out.now == env.now && out.probe == env.availability.probeInFlight
             && RechecksAfter(out.delay, e, env.availability) && env.now + out.delay < e.deadlineAt)
  }

  lemma PendingExactly(g: Gate, h: Handle, key: string, env: Env)
    requires h < |g.store| && g.store[h].recheck > 0.0
    ensures AdmitsPending(g, h, key, env, AdmitPending(g, h, key, env).0, AdmitPending(g, h, key, env).1)
  {
    StopExactly(g, h);
    forall delay ensures RechecksAfter(delay, g.store[h], env.availability) <==> delay == RecheckDelay(g.store[h], env.availability) {}
  }

  /** A retry is answered for by the live episode it names: not at all where automatic retries
      are off or the transcript is broken; with the attempt it was, where its key was admitted;
      and only with the pending key and turn. User input since, a session that is not quiet, or
      a turn under way stop the episode. */
  ghost predicate AdmitsEpisode(g: Gate, h: Handle, key: string, turn: string, generation: int, env: Env, t: Gate, out: Outcome) {
    && h < |g.store|
    && var e := g.store[h];
       if !env.config.enabled then out.Declined? && if e.inFlight then t == g else Stops(g, t, h)
       else if env.poisoned then out.Declined? && Stops(g, t, h)
       else if key in e.admitted then t == g && out == AlreadyAdmitted(h, e.admitted[key])
       else if e.pendingKey != Some(key) || e.pendingTurn != Some(turn) then t == g && out.Declined?
       else if e.pendingGeneration == generation && Quiet(env.view) && env.view.activeTurn.None? then AdmitsPending(g, h, key, env, t, out)
       else out.Declined? && Stops(g, t, h)
  }

  lemma AdmitEpisodeExactly(g: Gate, h: Handle, key: string, turn: string, generation: int, env: Env)
    requires h < |g.store| && g.store[h].recheck > 0.0
    ensures var (t, out) := AdmitEpisode(g, h, key, turn, generation, env);
            AdmitsEpisode(g, h, key, turn, generation, env, t, out)
  {
    StopExactly(g, h);
    PendingExactly(g, h, key, env);
  }

  ghost predicate DecidesAdmit(g: Gate, sessionId: string, id: string, key: string, turn: string, generation: int, env: Env, t: Gate, out: Outcome) {
    if env.view.sessionId != sessionId || NoneFiled(g, id) then t == g && out.Declined?
    else forall h: Handle :: FiledLive(g, id, h) ==> AdmitsEpisode(g, h, key, turn, generation, env, t, out)
  }

  lemma AdmitExactly(g: Gate, sessionId: string, id: string, key: string, turn: string, generation: int, env: Env)
    requires GateOk(g)
    ensures var (t, out) := AdmitTurn(g, sessionId, id, key, turn, generation, env);
            DecidesAdmit(g, sessionId, id, key, turn, generation, env, t, out)
  {
    LiveExactly(g, id);
    if Live(g, id).Some? {
      var h := Live(g, id).value;
      assert EpisodeOk(g.store[h]);
      AdmitEpisodeExactly(g, h, key, turn, generation, env);
    }
  }

  // The other calls.

  /** A turn that starts is the awaited successor of the first episode that admitted its key,
      or changes nothing where that one awaits none; without such an episode it takes over. */
  ghost predicate DecidesStart(g: Gate, turn: string, key: Option<string>, t: Gate, out: Outcome) {
    || (NoneThat(g, HasAdmitted(key)) && out.Done? && EndsIdle(g.store, t.store, g.episodes)
        && t == g.(store := t.store, episodes := Busy(g.store, g.episodes)))
    || exists i: nat :: FirstThat(g, i, HasAdmitted(key)) && LinksTo(g, g.episodes[i].1, turn, t, out)
  }

  predicate LinksTo(g: Gate, h: Handle, turn: string, t: Gate, out: Outcome) {
    && h < |g.store|
    && var e := g.store[h];
       if e.awaiting then
         out == Linked(h, turn)
         && t == g.(store := g.store[h := e.(awaiting := false, successor := Some(turn), inFlight := true, links := e.links + [turn])])
       else out.Done? && t == g
  }

  lemma StartExactly(g: Gate, turn: string, key: Option<string>)
    requires GateOk(g)
    ensures DecidesStart(g, turn, key, StartTurn(g, turn, key).0, StartTurn(g, turn, key).1)
  {
    FirstOrNone(g, HasAdmitted(key), |g.episodes|);
    if NoneThat(g, HasAdmitted(key)) {
      StartTakesOver(g, turn, key);
    } else {
      var i: nat :| FirstThat(g, i, HasAdmitted(key));
      StartLinks(g, turn, key.value, i);
    }
  }

  /** A successor that failed is no longer in flight, and its episode goes on; one that
      completed or was interrupted ends it, after its notice. */
  ghost predicate DecidesFinish(g: Gate, turn: string, status: Status, t: Gate) {
    || (NoneThat(g, SucceededBy(turn)) && t == g)
    || exists i: nat :: FirstThat(g, i, SucceededBy(turn)) && FinishesAt(g, g.episodes[i].1, status, t)
  }

  predicate FinishesAt(g: Gate, h: Handle, status: Status, t: Gate) {
    && h < |g.store|
    && match status
       case TurnFailed => t == g.(store := g.store[h := g.store[h].(inFlight := false)])
       case _ => t == g.(ending := g.ending + [h])
  }

  lemma FinishExactly(g: Gate, turn: string, status: Status)
    ensures DecidesFinish(g, turn, status, FinishTurn(g, turn, status))
  {
    FoundExactly(g, SucceededBy(turn));
    FindAlike(g, g.episodes, SucceededBy(turn), (e: Episode) => e.successor == Some(turn));
    if i: nat :| FirstThat(g, i, SucceededBy(turn)) && Find(g, SucceededBy(turn)) == Some(g.episodes[i].1) {
      assert FinishesAt(g, g.episodes[i].1, status, FinishTurn(g, turn, status));
    }
  }

  /** A cancellation stops the live episode it names, unless a successor is in flight. */
  ghost predicate DecidesCancel(g: Gate, sessionId: string, id: string, view: View, t: Gate) {
    if view.sessionId != sessionId || NoneFiled(g, id) then t == g
    else forall h: Handle :: FiledLive(g, id, h) ==> if g.store[h].inFlight then t == g else Stops(g, t, h)
  }

  lemma CancelExactly(g: Gate, sessionId: string, id: string, view: View)
    ensures DecidesCancel(g, sessionId, id, view, CancelEpisode(g, sessionId, id, view))
  {
    LiveExactly(g, id);
    if Live(g, id).Some? { StopExactly(g, Live(g, id).value); }
  }

  /** An awaited end comes once for each time it was announced; an end nobody announced does
      not come. */
  ghost predicate DecidesEnd(g: Gate, h: Handle, t: Gate) {
    if h in g.ending && h < |g.store| then
      && multiset(t.ending) == multiset(g.ending) - multiset{h}
      && Ends(g, t.(ending := g.ending), h)
    else t == g
  }

  lemma EndExactly(g: Gate, h: Handle)
    ensures DecidesEnd(g, h, EndAwaited(g, h))
  {
    if h in g.ending && h < |g.store| {
      var i := IndexOfHandle(g.ending, h);
      assert g.ending == g.ending[..i] + [h] + g.ending[i + 1..];
    }
  }

  /** What each call of the gate decides. */
  ghost predicate Decides(g: Gate, step: Step, t: Gate, out: Outcome) {
    match step
    case Capture(f) => out.Done? && t == g.(projections := Trim(Put(g.projections, f.turnId, f), 64))
    case TurnStarted(turn, key) => DecidesStart(g, turn, key, t, out)
    case TurnFinished(turn, status) => out.Done? && DecidesFinish(g, turn, status, t)
    case Schedule(sessionId, turn, generation, env) => DecidesSchedule(g, sessionId, turn, generation, env, t, out)
    case Admit(sessionId, id, key, turn, generation, env) => DecidesAdmit(g, sessionId, id, key, turn, generation, env, t, out)
    case Cancel(sessionId, id, view) => out.Done? && DecidesCancel(g, sessionId, id, view, t)
    case EndEpisode(h) => out.Done? && DecidesEnd(g, h, t)
    case InvalidateAll => out.Done? && t == g.(projections := [], episodes := [], byTerminalTurn := [])
  }

  lemma TakeExactly(g: Gate, step: Step)
    requires GateOk(g)
    ensures Decides(g, step, Take(g, step).0, Take(g, step).1)
  {
    match step {
      case TurnStarted(turn, key) => StartExactly(g, turn, key);
      case TurnFinished(turn, status) => FinishExactly(g, turn, status);
      case Schedule(sessionId, turn, generation, env) => ScheduleExactly(g, sessionId, turn, generation, env);
      case Admit(sessionId, id, key, turn, generation, env) => AdmitExactly(g, sessionId, id, key, turn, generation, env);
      case Cancel(sessionId, id, view) => CancelExactly(g, sessionId, id, view);
      case EndEpisode(h) => EndExactly(g, h);
      case Capture(f) =>
      case InvalidateAll =>
    }
  }
}
