/** The recovery gate as the object it is. Its methods look episodes up, change their
    fields and its dictionaries in place, and are proved to take the steps of the state
    machine. Episode objects are records in `store`, addressed by handle. */
module RootRecoveryGates {
  import opened Wrappers
  import opened Dicts
  import opened RootRecovery
  import opened RootRecoveryLaws
  import opened RootRecoveryRuns
  import opened RootRecoveryTakeover
  import opened RootRecoveryDecisions

  class RootRecoveryGate {
    var store: seq<Episode>
    var projections: Dict<string, Failure>
    var episodes: Dict<string, Handle>
    var byTerminalTurn: Dict<string, string>
    var ending: seq<Handle>
    ghost var steps: seq<Step>
    ghost var log: seq<Outcome>

    ghost function State(): Gate
      reads this
    {
      Gate(store, projections, episodes, byTerminalTurn, ending)
    }

    /** The gate is what its steps so far make of a new gate. */
    ghost predicate Valid()
      reads this
    {
      IsRun(State(), log, steps)
    }

    constructor ()
      ensures Valid() && State() == NEW_GATE && steps == []
    {
      store, projections, episodes, byTerminalTurn, ending := [], [], [], [], [];
      steps, log := [], [];
    }

    /** One step, decided as the decisions of the gate say. Whatever the steps before it, it keeps the laws of the gate: exact budgets,
        fixed deadlines, dictionaries that lead to live episodes; and the outcomes so far are
        the log that the laws of runs speak of. */
    method Perform(step: Step) returns (out: Outcome)
      requires Valid()
      modifies this
      ensures Valid() && steps == old(steps) + [step] && log == old(log) + [out]
      ensures (State(), out) == Take(old(State()), step)
      ensures GateOk(State()) && StepLaw(old(State()), State(), out)
      ensures Decides(old(State()), step, State(), out)
    {
      IsRunNext(State(), log, steps, step);
      TakeExactly(State(), step);
      out := Dispatch(step);
      steps, log := steps + [step], log + [out];
    }

    method Dispatch(step: Step) returns (out: Outcome)
      modifies this`store, this`projections, this`episodes, this`byTerminalTurn, this`ending
      ensures (State(), out) == Take(old(State()), step)
    {
      out := Done;
      match step {
        case Capture(f) => CaptureTerminal(f);
        case TurnStarted(turn, key) => out := ObserveTurnStarted(turn, key);
        case TurnFinished(turn, status) => ObserveTurnFinished(turn, status);
        case Schedule(sessionId, turn, generation, env) => out := ScheduleContinuation(sessionId, turn, generation, env);
        case Admit(sessionId, id, key, turn, generation, env) => out := AdmitContinuation(sessionId, id, key, turn, generation, env);
        case Cancel(sessionId, id, view) =>
          var cancelled := CancelPending(sessionId, id, view);
        case EndEpisode(h) => AfterNotice(h);
        case InvalidateAll => InvalidateEverything();
      }
    }

    method CaptureTerminal(f: Failure)
      modifies this`projections
      ensures State() == Take(old(State()), Capture(f)).0
    {
      projections := Put(projections, f.turnId, f);
      while |projections| > PROJECTION_CAPACITY
        invariant Trim(projections, PROJECTION_CAPACITY) == Trim(Put(old(projections), f.turnId, f), PROJECTION_CAPACITY)
      {
        projections := projections[1..];
      }
    }

    method InvalidateEverything()
      modifies this`projections, this`episodes, this`byTerminalTurn
      ensures State() == Take(old(State()), InvalidateAll).0
    {
      projections, episodes, byTerminalTurn := [], [], [];
    }

    /** The first live episode with a property, in dictionary order. */
    method FindEpisode(p: Episode -> bool) returns (r: Option<Handle>)
      ensures r == Find(State(), p)
    {
      for i := 0 to |episodes|
        invariant Find(State(), p) == FirstLive(State(), episodes[i..], p)
      {
        var h := episodes[i].1;
        assert episodes[i..][1..] == episodes[i + 1..];
        if h < |store| && !store[h].ended && p(store[h]) { return Some(h); }
      }
      return None;
    }

    method LiveEpisode(id: string) returns (r: Option<Handle>)
      ensures r == Live(State(), id)
    {
      var found := Get(episodes, id);
      if found.None? || found.value >= |store| || store[found.value].ended { return None; }
      return found;
    }

    method EndEpisodeNow(h: Handle)
      requires h < |store|
      modifies this`store, this`episodes
      ensures State() == End(old(State()), h)
    {
      store := store[h := store[h].(ended := true)];
      episodes := Pop(episodes, store[h].id);
    }

    /** Up to the await of the notice; an undriven episode has nothing to announce. */
    method StopEpisode(h: Handle)
      requires h < |store|
      modifies this`store, this`episodes, this`ending
      ensures State() == Stop(old(State()), h)
    {
      if Driven(store[h]) {
        ending := ending + [h];
      } else {
        EndEpisodeNow(h);
      }
    }

    method AfterNotice(h: Handle)
      modifies this`store, this`episodes, this`ending
      ensures State() == Take(old(State()), EndEpisode(h)).0
    {
      if h in ending && h < |store| {
        var i := IndexOfHandle(ending, h);
        EndEpisodeNow(h);
        ending := ending[..i] + ending[i + 1..];
      }
    }

    method ObserveTurnStarted(turn: string, key: Option<string>) returns (out: Outcome)
      modifies this`store, this`episodes
      ensures (State(), out) == StartTurn(old(State()), turn, key)
    {
      if key.Some? {
        var found := FindEpisode((e: Episode) => key.value in e.admitted);
        if found.Some? {
          var h := found.value;
          if !store[h].awaiting { return Done; }
          store := store[h := store[h].(awaiting := false, successor := Some(turn), inFlight := true, links := store[h].links + [turn])];
          return Linked(h, turn);
        }
      }
      SupersedeAll();
      return Done;
    }

    method SupersedeAll()
      modifies this`store, this`episodes
      ensures State() == Supersede(old(State()), old(episodes))
      ensures GateOk(old(State())) ==> EndsIdle(old(store), store, old(episodes)) && episodes == Busy(old(store), old(episodes))
    {
      if GateOk(State()) { AllTakenOver(State()); }
      var listed := episodes;
      ghost var whole := Supersede(State(), listed);
      for i := 0 to |listed|
        invariant projections == old(projections) && byTerminalTurn == old(byTerminalTurn) && ending == old(ending)
        invariant whole == Supersede(State(), listed[i..])
      {
        var h := listed[i].1;
        assert listed[i..][0] == listed[i] && listed[i..][1..] == listed[i + 1..];
        if h < |store| && !store[h].ended && !store[h].inFlight { EndEpisodeNow(h); }
      }
    }

    method ObserveTurnFinished(turn: string, status: Status)
      modifies this`store, this`ending
      ensures State() == FinishTurn(old(State()), turn, status)
    {
      var found := FindEpisode((e: Episode) => e.successor == Some(turn));
      if found.None? { return; }
      var h := found.value;
      if status.TurnFailed? {
        store := store[h := store[h].(inFlight := false)];
      } else {
        ending := ending + [h];
      }
    }

    method EpisodeOf(f: Failure, config: Config) returns (h: Handle)
      modifies this`store, this`episodes
      ensures (State(), h) == EpisodeFor(old(State()), f, config)
      ensures h < |store|
    {
      var found := FindEpisode((e: Episode) => e.successor == Some(f.turnId));
      if found.Some? { return found.value; }
      var e := NewEpisode(f, config);
      h := |store|;
      store := store + [e];
      episodes := Put(episodes, e.id, h);
      while |episodes| > EPISODE_CAPACITY
        invariant store == old(store) + [e]
        invariant Trim(episodes, EPISODE_CAPACITY) == Trim(Put(old(episodes), e.id, h), EPISODE_CAPACITY)
      {
        episodes := episodes[1..];
      }
    }

    method EndLinkedEpisode(turn: string)
      modifies this`store, this`episodes, this`ending
      ensures State() == EndLinked(old(State()), turn)
    {
      var found := FindEpisode((e: Episode) => e.successor == Some(turn) || e.pendingTurn == Some(turn) || e.initialTurn == turn);
      if found.Some? { StopEpisode(found.value); }
    }

    method IndexTerminalTurn(turn: string, id: string)
      modifies this`byTerminalTurn
      ensures byTerminalTurn == Trim(Put(old(byTerminalTurn), turn, id), TERMINAL_TURN_CAPACITY)
    {
      byTerminalTurn := Put(byTerminalTurn, turn, id);
      while |byTerminalTurn| > TERMINAL_TURN_CAPACITY
        invariant Trim(byTerminalTurn, TERMINAL_TURN_CAPACITY) == Trim(Put(old(byTerminalTurn), turn, id), TERMINAL_TURN_CAPACITY)
      {
        byTerminalTurn := byTerminalTurn[1..];
      }
    }

    method ArmEpisode(h: Handle, f: Failure, generation: int, env: Env) returns (out: Outcome)
      requires h < |store|
      modifies this`store, this`episodes, this`ending, this`byTerminalTurn
      ensures (State(), out) == Arm(old(State()), h, f, generation, env)
    {
      var e := store[h];
      if e.count >= e.maxRetries || env.now >= e.deadlineAt || env.availability.permanent {
        StopEpisode(h);
        return Declined;
      }
      var delay := ComputeDelay(e, f, env);
      if delay > e.deadlineAt - env.now {
        StopEpisode(h);
        return Declined;
      }
      var attempt := e.count + 1;
      store := store[h := e.(pendingKey := Some(Key(e.id, attempt)), pendingTurn := Some(f.turnId), pendingAttempt := attempt,
                             pendingDelay := delay, pendingGeneration := generation)];
      IndexTerminalTurn(f.turnId, e.id);
      return Scheduled(h, f, attempt, delay, env.now);
    }

    method ScheduleContinuation(sessionId: string, turn: string, generation: int, env: Env) returns (out: Outcome)
      modifies this`store, this`episodes, this`ending, this`byTerminalTurn
      ensures (State(), out) == ScheduleTurn(old(State()), sessionId, turn, generation, env)
    {
      if env.view.sessionId != sessionId || !env.config.enabled { return Declined; }
      var existing := Get(byTerminalTurn, turn);
      if existing.Some? {
        var live := LiveEpisode(existing.value);
        if live.Some? && store[live.value].pendingKey.Some? { return AlreadyScheduled(live.value); }
        return Declined;
      }
      var failure := Get(projections, turn);
      if failure.None? { return Declined; }
      if !MayRecover(failure.value, env) {
        EndLinkedEpisode(failure.value.turnId);
        return Declined;
      }
      var h := EpisodeOf(failure.value, env.config);
      out := ArmEpisode(h, failure.value, generation, env);
    }

    method AdmitPendingKey(h: Handle, key: string, env: Env) returns (out: Outcome)
      requires h < |store|
      modifies this`store, this`episodes, this`ending
      ensures (State(), out) == AdmitPending(old(State()), h, key, env)
    {
      var e := store[h];
      if e.count >= e.maxRetries || env.now >= e.deadlineAt || env.availability.permanent {
        StopEpisode(h);
        return Declined;
      }
      if !env.availability.available {
        var delay := RecheckDelay(e, env.availability);
        if env.now + delay >= e.deadlineAt {
          StopEpisode(h);
          return Declined;
        }
        return Deferred(h, delay, env.now, env.availability.probeInFlight);
      }
      store := store[h := e.(count := e.count + 1, admitted := e.admitted[key := e.pendingAttempt], awaiting := true)];
      return Admitted(h, e.pendingAttempt, env.now);
    }

    method AdmitContinuation(sessionId: string, id: string, key: string, turn: string, generation: int, env: Env) returns (out: Outcome)
      modifies this`store, this`episodes, this`ending
      ensures (State(), out) == AdmitTurn(old(State()), sessionId, id, key, turn, generation, env)
    {
      if env.view.sessionId != sessionId { return Declined; }
      var live := LiveEpisode(id);
      if live.None? { return Declined; }
      var h := live.value;
      if !env.config.enabled && store[h].inFlight { return Declined; }
      if !env.config.enabled || env.poisoned {
        StopEpisode(h);
        return Declined;
      }
      if key in store[h].admitted { return AlreadyAdmitted(h, store[h].admitted[key]); }
      if Some(key) != store[h].pendingKey || Some(turn) != store[h].pendingTurn { return Declined; }
      if generation != store[h].pendingGeneration || Barrier(env.view) || env.view.activeTurn.Some? {
        StopEpisode(h);
        return Declined;
      }
      out := AdmitPendingKey(h, key, env);
    }

    method CancelPending(sessionId: string, id: string, view: View) returns (cancelled: bool)
      modifies this`store, this`episodes, this`ending
      ensures State() == CancelEpisode(old(State()), sessionId, id, view)
      ensures cancelled <==> view.sessionId == sessionId && var live := Live(old(State()), id);
                             live.Some? && !old(State()).store[live.value].inFlight
    {
      if view.sessionId != sessionId { return false; }
      var live := LiveEpisode(id);
      if live.None? || store[live.value].inFlight { return false; }
      StopEpisode(live.value);
      return true;
    }
  }
}
