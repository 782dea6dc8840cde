/** Whole runs of the recovery gate: any interleaving of its steps, from a new gate. */
module RootRecoveryRuns {
  import opened Wrappers
  import opened Dicts
  import opened RootRecovery
  import opened RootRecoveryLaws

  /** A step function; `Take` is the gate's. The laws of runs rest on the law of a step. */
  type Taker = (Gate, Step) -> (Gate, Outcome)

  ghost predicate Lawful(take: Taker) {
    forall g, step :: GateOk(g) ==> Obeys(g, step, take(g, step))
  }

  predicate Obeys(g: Gate, step: Step, r: (Gate, Outcome)) {
    StepLaw(g, r.0, r.1) && IndexLaw(g, step, r.0, r.1)
  }

  ghost predicate Timely(take: Taker) {
    forall g, step, c :: GateOk(g) ==> TimeLaw(g, step, take(g, step).0, take(g, step).1, c)
  }

  lemma TakeIsLawful()
    ensures Lawful(Take) && Timely(Take)
  {
    forall g, step | GateOk(g) ensures Obeys(g, step, Take(g, step)) {
      TakeLaw(g, step);
      TakeIndexes(g, step);
    }
    forall g, step, c | GateOk(g) ensures TimeLaw(g, step, Take(g, step).0, Take(g, step).1, c) { TakeTimes(g, step, c); }
  }

  /** The gate after a list of steps, and the outcomes in order. */
  function Run(take: Taker, steps: seq<Step>): (Gate, seq<Outcome>) {
    if |steps| == 0 then (NEW_GATE, [])
    else
      var (g, log) := Run(take, steps[..|steps| - 1]);
      var (t, out) := take(g, steps[|steps| - 1]);
      (t, log + [out])
  }

  /** The gate and its log are what a list of steps makes of a new gate. */
  ghost predicate IsRun(g: Gate, log: seq<Outcome>, steps: seq<Step>) {
    Run(Take, steps) == (g, log)
  }

  lemma IsRunNext(g: Gate, log: seq<Outcome>, steps: seq<Step>, step: Step)
    requires IsRun(g, log, steps)
    ensures var (t, out) := Take(g, step);
            IsRun(t, log + [out], steps + [step]) && GateOk(g) && GateOk(t) && StepLaw(g, t, out)
  {
    assert (steps + [step])[..|steps|] == steps;
    TakeIsLawful();
    RunTold(Take, steps);
    assert Obeys(g, step, Take(g, step));
  }

  // What a log says of one episode.

  /** The attempts admitted for an episode, in order. */
  function Admissions(log: seq<Outcome>, h: Handle): seq<nat> {
    if |log| == 0 then []
    else
      Admissions(log[..|log| - 1], h) +
      (match log[|log| - 1] case Admitted(k, attempt, _) => if k == h then [attempt] else [] case _ => [])
  }

  /** The turns linked to an episode as successors, in order. */
  function Successors(log: seq<Outcome>, h: Handle): seq<string> {
    if |log| == 0 then []
    else
      Successors(log[..|log| - 1], h) +
      (match log[|log| - 1] case Linked(k, turn) => if k == h then [turn] else [] case _ => [])
  }

  datatype Wait = Wait(now: real, delay: real, probe: bool)

  /** The deferred admissions of an episode, in order. */
  function Waits(log: seq<Outcome>, h: Handle): seq<Wait> {
    if |log| == 0 then []
    else
      Waits(log[..|log| - 1], h) +
      (match log[|log| - 1] case Deferred(k, delay, now, probe) => if k == h then [Wait(now, delay, probe)] else [] case _ => [])
  }

  function UpTo(n: nat): seq<nat> {
    seq(n, i requires 0 <= i < n => i + 1)
  }

  predicate WaitFits(e: Episode, w: Wait) {
    w.delay > 0.0 && (w.probe ==> w.delay >= e.recheck) && w.now + w.delay < e.deadlineAt
  }

  /** Every admission of the log came before its episode's deadline. */
  predicate InTime(store: seq<Episode>, log: seq<Outcome>) {
    forall i :: 0 <= i < |log| && log[i].Admitted? ==> log[i].h < |store| && log[i].now < store[log[i].h].deadlineAt
  }

  predicate Told(store: seq<Episode>, log: seq<Outcome>, h: Handle) {
    if h < |store| then
      && Admissions(log, h) == UpTo(store[h].count)
      && Successors(log, h) == store[h].links
      && forall i :: 0 <= i < |Waits(log, h)| ==> WaitFits(store[h], Waits(log, h)[i])
    else
      Admissions(log, h) == [] && Successors(log, h) == [] && Waits(log, h) == []
  }

  ghost predicate AllTold(store: seq<Episode>, log: seq<Outcome>) {
    forall h: Handle :: Told(store, log, h)
  }

  lemma LogPlus(log: seq<Outcome>, out: Outcome, h: Handle)
    ensures Admissions(log + [out], h) == Admissions(log, h) + (if out.Admitted? && out.h == h then [out.attempt] else [])
    ensures Successors(log + [out], h) == Successors(log, h) + (if out.Linked? && out.h == h then [out.turn] else [])
    ensures Waits(log + [out], h)
         == Waits(log, h) + (if out.Deferred? && out.h == h then [Wait(out.now, out.delay, out.probe)] else [])
  {
    assert (log + [out])[..|log|] == log;
  }

  lemma ToldNext(g: Gate, log: seq<Outcome>, t: Gate, out: Outcome, h: Handle)
    requires Told(g.store, log, h) && StepLaw(g, t, out)
    ensures Told(t.store, log + [out], h)
  {
    LogPlus(log, out, h);
    if h < |g.store| {
      assert EpisodeEvolves(g.store[h], t.store[h]);
      WaitsNext(g, log, t, out, h);
      assert UpTo(g.store[h].count) + [g.store[h].count + 1] == UpTo(g.store[h].count + 1);
    } else {
      assert UpTo(0) == [];
    }
  }

  lemma WaitsNext(g: Gate, log: seq<Outcome>, t: Gate, out: Outcome, h: Handle)
    requires h < |g.store| <= |t.store| && Told(g.store, log, h) && StepLaw(g, t, out)
    ensures forall i :: 0 <= i < |Waits(log + [out], h)| ==> WaitFits(t.store[h], Waits(log + [out], h)[i])
  {
    LogPlus(log, out, h);
    assert EpisodeEvolves(g.store[h], t.store[h]);
  }

  lemma InTimeNext(g: Gate, log: seq<Outcome>, t: Gate, out: Outcome)
    requires InTime(g.store, log) && StepLaw(g, t, out)
    ensures InTime(t.store, log + [out])
  {
    forall i | 0 <= i < |log| + 1 && (log + [out])[i].Admitted?
      ensures var o := (log + [out])[i]; o.h < |t.store| && o.now < t.store[o.h].deadlineAt
    {
      var o := (log + [out])[i];
      if i < |log| { assert log[i] == o; }
      assert EpisodeEvolves(g.store[o.h], t.store[o.h]);
    }
  }

  lemma RunSnoc(take: Taker, steps: seq<Step>)
    requires |steps| > 0
    ensures var (g, log) := Run(take, steps[..|steps| - 1]);
            var (t, out) := take(g, steps[|steps| - 1]);
            Run(take, steps) == (t, log + [out])
  {
  }

  lemma NothingTold()
    ensures GateOk(NEW_GATE) && InTime([], []) && AllTold([], [])
  {
    forall h: Handle ensures Told([], [], h) {}
  }

  lemma AllToldNext(g: Gate, log: seq<Outcome>, t: Gate, out: Outcome)
    requires AllTold(g.store, log) && StepLaw(g, t, out)
    ensures AllTold(t.store, log + [out])
  {
    forall h: Handle ensures Told(t.store, log + [out], h) {
      assert Told(g.store, log, h);
      ToldNext(g, log, t, out, h);
    }
  }

  /** Over every interleaving, the log of an episode is its budget: the attempts admitted
      are exactly 1, 2, ... up to its count, in order and in time, the successors linked
      are its links, and every deferral fits before its deadline. */
  lemma {:induction false} RunTold(take: Taker, steps: seq<Step>)
    requires Lawful(take)
    ensures var (g, log) := Run(take, steps);
            GateOk(g) && InTime(g.store, log) && AllTold(g.store, log)
  {
    if |steps| == 0 {
      NothingTold();
    } else {
      var r := steps[..|steps| - 1];
      RunTold(take, r);
      RunSnoc(take, steps);
      var (g, log) := Run(take, r);
      var (t, out) := take(g, steps[|steps| - 1]);
      assert Obeys(g, steps[|steps| - 1], (t, out));
      InTimeNext(g, log, t, out);
      AllToldNext(g, log, t, out);
    }
  }

  /** The gate's own runs: for every episode the number of admissions equals its count and
      its number of admitted keys, those keys carry the attempts 1 to the count, the count
      stays within the maximum taken at its creation, and the successors it was linked to,
      with one more if it awaits one, are no more than that. */
  lemma BudgetsExact(steps: seq<Step>, h: Handle)
    requires h < |Run(Take, steps).0.store|
    ensures var (g, log) := Run(Take, steps);
            var e := g.store[h];
            && Admissions(log, h) == UpTo(e.count)
            && |e.admitted| == e.count <= e.maxRetries
            && (forall a: nat :: Key(e.id, a) in e.admitted <==> 1 <= a <= e.count)
            && (forall k :: k in e.admitted ==> k == Key(e.id, e.admitted[k]))
            && |Successors(log, h)| + (if e.awaiting then 1 else 0) <= e.count
  {
    TakeIsLawful();
    RunTold(Take, steps);
    var (g, log) := Run(Take, steps);
    assert Told(g.store, log, h);
    assert EpisodeOk(g.store[h]);
    KeysUpToExact(g.store[h].id, g.store[h].count);
  }

  /** From one point of a run to any later one an episode keeps its deadline, and once
      ended it does not change at all. */
  lemma {:induction false} RunEvolves(take: Taker, steps: seq<Step>, n: nat)
    requires Lawful(take) && n <= |steps|
    ensures StoreEvolves(Run(take, steps[..n]).0.store, Run(take, steps).0.store)
  {
    if n == |steps| {
      assert steps[..n] == steps;
      Still(Run(take, steps).0);
    } else {
      var r := steps[..|steps| - 1];
      assert r[..n] == steps[..n];
      RunEvolves(take, r, n);
      RunTold(take, r);
      var (g, log) := Run(take, r);
      assert Obeys(g, steps[|steps| - 1], take(g, steps[|steps| - 1]));
      EvolvesOn(Run(take, r[..n]).0.store, g.store, Run(take, steps).0.store);
    }
  }

  lemma EvolvesOn(s: seq<Episode>, t: seq<Episode>, u: seq<Episode>)
    requires StoreEvolves(s, t) && StoreEvolves(t, u)
    ensures StoreEvolves(s, u)
  {
    forall h | 0 <= h < |s| ensures EpisodeEvolves(s[h], u[h]) {
      assert EpisodeEvolves(s[h], t[h]) && EpisodeEvolves(t[h], u[h]);
    }
  }

  /** An outcome that concerns an episode. */
  predicate Concerns(out: Outcome, h: Handle) {
    !out.Done? && !out.Declined? && out.h == h
  }

  /** There is one outcome to each step, in the order of the steps. */
  lemma {:induction false} LogOf(take: Taker, steps: seq<Step>, n: nat)
    requires n <= |steps|
    ensures |Run(take, steps).1| == |steps| && Run(take, steps[..n]).1 == Run(take, steps).1[..n]
    ensures n < |steps| ==> Run(take, steps).1[n] == take(Run(take, steps[..n]).0, steps[n]).1
  {
    if n == |steps| {
      assert steps[..n] == steps;
      if n > 0 { LogOf(take, steps[..n - 1], n - 1); }
    } else {
      var r := steps[..|steps| - 1];
      assert r[..n] == steps[..n];
      LogOf(take, r, n);
      if n == |r| { assert steps[..n] == r; }
    }
  }

  /** After its end an episode is never admitted, linked, scheduled, deferred or answered for
      again. */
  lemma EndedIsSilent(take: Taker, steps: seq<Step>, n: nat, i: nat, h: Handle)
    requires Lawful(take) && n <= i < |steps|
    requires h < |Run(take, steps[..n]).0.store| && Run(take, steps[..n]).0.store[h].ended
    ensures |Run(take, steps).1| == |steps| && !Concerns(Run(take, steps).1[i], h)
  {
    LogOf(take, steps, i);
    var r := steps[..i];
    assert r[..n] == steps[..n];
    RunEvolves(take, r, n);
    RunTold(take, r);
    var g := Run(take, r).0;
    assert Obeys(g, steps[i], take(g, steps[i]));
    assert EpisodeEvolves(Run(take, steps[..n]).0.store[h], g.store[h]);
  }

  // The index of terminal turns.

  /** A turn is in the index, with no more than `m` younger ones. */
  predicate Held(d: Dict<string, string>, turn: string, m: nat) {
    IndexOf(d, turn) < |d| <= IndexOf(d, turn) + 1 + m
  }

  /** Indexing a turn makes it the youngest. */
  lemma NewIsHeld(d: Dict<string, string>, turn: string, id: string)
    requires Get(d, turn) == None && |d| <= TERMINAL_TURN_CAPACITY
    ensures Held(Trim(Put(d, turn, id), TERMINAL_TURN_CAPACITY), turn, 0)
  {
    var e := Trim(d + [(turn, id)], TERMINAL_TURN_CAPACITY);
    var cut := |d| + 1 - |e|;
    forall j | 0 <= j < |e| - 1 ensures e[j].0 != turn { assert e[j] == d[cut + j]; }
    IndexIs(e, turn, |e| - 1);
  }

  /** Indexing another turn leaves it in, as long as there is room for both. */
  lemma OtherIsHeld(d: Dict<string, string>, turn: string, m: nat, other: string, id: string)
    requires Held(d, turn, m) && m + 1 < TERMINAL_TURN_CAPACITY && |d| <= TERMINAL_TURN_CAPACITY && Get(d, other) == None
    ensures Held(Trim(Put(d, other, id), TERMINAL_TURN_CAPACITY), turn, m + 1)
  {
    var i := IndexOf(d, turn);
    var e := Trim(d + [(other, id)], TERMINAL_TURN_CAPACITY);
    var cut := |d| + 1 - |e|;
    forall j | 0 <= j <= i - cut ensures e[j] == d[cut + j] {}
    IndexIs(e, turn, i - cut);
  }

  function Schedules(log: seq<Outcome>): nat {
    if |log| == 0 then 0 else Schedules(log[..|log| - 1]) + if log[|log| - 1].Scheduled? then 1 else 0
  }

  predicate NeverInvalidated(steps: seq<Step>, from: nat) {
    forall i :: from <= i < |steps| ==> !steps[i].InvalidateAll?
  }

  predicate SchedulesTurn(out: Outcome, turn: string) {
    out.Scheduled? && out.failure.turnId == turn
  }

  /** How many schedules came after step `i`. */
  function Since(log: seq<Outcome>, i: nat): nat
    requires i < |log|
  {
    Schedules(log[i + 1..])
  }

  lemma SinceNext(log: seq<Outcome>, out: Outcome, i: nat)
    requires i < |log|
    ensures Since(log + [out], i) == Since(log, i) + if out.Scheduled? then 1 else 0
  {
    var all := log + [out];
    assert all[i + 1..] == log[i + 1..] + [out];
    assert all[i + 1..][..|log| - i - 1] == log[i + 1..];
  }

  lemma HeldNext(g: Gate, step: Step, t: Gate, out: Outcome, turn: string, m: nat)
    requires IndexLaw(g, step, t, out) && !step.InvalidateAll? && |g.byTerminalTurn| <= TERMINAL_TURN_CAPACITY
    requires Held(g.byTerminalTurn, turn, m) && (out.Scheduled? ==> m + 1 < TERMINAL_TURN_CAPACITY)
    ensures Held(t.byTerminalTurn, turn, if out.Scheduled? then m + 1 else m)
  {
    if out.Scheduled? { OtherIsHeld(g.byTerminalTurn, turn, m, step.turn, t.store[out.h].id); }
  }

  lemma HeldFirst(g: Gate, step: Step, t: Gate, out: Outcome, turn: string)
    requires IndexLaw(g, step, t, out) && |g.byTerminalTurn| <= TERMINAL_TURN_CAPACITY && SchedulesTurn(out, turn)
    ensures Held(t.byTerminalTurn, turn, 0)
  {
    NewIsHeld(g.byTerminalTurn, turn, t.store[out.h].id);
  }

  /** A turn scheduled at step `i` stays in the index for the next 63 schedules. */
  lemma {:induction false} StaysHeld(take: Taker, steps: seq<Step>, i: nat, turn: string, log: seq<Outcome>)
    requires Lawful(take) && i < |steps| && NeverInvalidated(steps, i)
    requires log == Run(take, steps).1 && |log| == |steps| && SchedulesTurn(log[i], turn) && Since(log, i) < TERMINAL_TURN_CAPACITY
    ensures Held(Run(take, steps).0.byTerminalTurn, turn, Since(log, i))
  {
    var n := |steps| - 1;
    var r := steps[..n];
    RunTold(take, r);
    RunSnoc(take, steps);
    LogOf(take, steps, n);
    var (g, before) := Run(take, r);
    var (t, out) := take(g, steps[n]);
    assert Obeys(g, steps[n], (t, out));
    assert log == before + [out];
    if i == n {
      HeldFirst(g, steps[n], t, out, turn);
      assert log[i + 1..] == [];
    } else {
      SinceNext(before, out, i);
      StaysHeld(take, r, i, turn, before);
      HeldNext(g, steps[n], t, out, turn, Since(before, i));
    }
  }

  /** One schedule to a failed turn: unless everything is invalidated in between, the same
      turn is scheduled again only after 64 schedules of other turns. */
  lemma ScheduledOnce(take: Taker, steps: seq<Step>, i: nat, last: Step, turn: string)
    requires Lawful(take) && i < |steps| && NeverInvalidated(steps, i) && |Run(take, steps).1| == |steps|
    requires SchedulesTurn(Run(take, steps).1[i], turn) && SchedulesTurn(take(Run(take, steps).0, last).1, turn)
    ensures Since(Run(take, steps).1, i) >= TERMINAL_TURN_CAPACITY
  {
    var (g, log) := Run(take, steps);
    RunTold(take, steps);
    assert Obeys(g, last, take(g, last));
    if Since(log, i) < TERMINAL_TURN_CAPACITY { StaysHeld(take, steps, i, turn, log); }
  }

  // The clock.

  /** What a step reads from the clock, or has on record from it. */
  function Reading(step: Step): Option<real> {
    match step
    case Capture(f) => Some(f.observedAt)
    case Schedule(_, _, _, env) => Some(env.now)
    case Admit(_, _, _, _, _, env) => Some(env.now)
    case _ => None
  }

  predicate ReadBy(step: Step, c: real) {
    Reading(step).Some? ==> Reading(step).value <= c
  }

  /** No call took less than no time. */
  predicate Timed(step: Step) {
    step.Capture? ==> step.failure.elapsed.GetOr(0.0) >= 0.0
  }

  predicate AllTimed(steps: seq<Step>) {
    forall i :: 0 <= i < |steps| ==> Timed(steps[i])
  }

  /** The clock does not go back: what a step reads is no earlier than what was read or
      observed before. When a failure was observed is on record, so that it may well be
      captured later, or again. */
  predicate Ticking(steps: seq<Step>) {
    && (forall i, j :: 0 <= i < j < |steps| && !steps[j].Capture? && Reading(steps[j]).Some? ==> ReadBy(steps[i], Reading(steps[j]).value))
    && AllTimed(steps)
  }

  predicate AllReadBy(steps: seq<Step>, c: real) {
    forall i :: 0 <= i < |steps| ==> ReadBy(steps[i], c)
  }

  ghost predicate AllBy(log: seq<Outcome>, c: real) {
    forall h: Handle :: WaitsBy(Waits(log, h), c)
  }

  predicate WaitsBy(ws: seq<Wait>, c: real) {
    forall i :: 0 <= i < |ws| ==> ws[i].now <= c
  }

  lemma WaitsByNext(log: seq<Outcome>, out: Outcome, c: real)
    requires AllBy(log, c) && (out.Deferred? ==> out.now <= c)
    ensures AllBy(log + [out], c)
  {
    forall h: Handle ensures WaitsBy(Waits(log + [out], h), c) {
      assert WaitsBy(Waits(log, h), c);
      LogPlus(log, out, h);
    }
  }

  lemma NoWaitsBy(c: real)
    ensures AllBy([], c)
  {
    forall h: Handle ensures WaitsBy(Waits([], h), c) {}
  }

  /** One step by `c`. */
  lemma StepBy(g: Gate, step: Step, t: Gate, out: Outcome, c: real)
    requires BeganBy(g, c) && ReadBy(step, c) && Timed(step) && TimeLaw(g, step, t, out, c)
    ensures BeganBy(t, c) && (out.Deferred? ==> out.now <= c)
  {
  }

  /** Whatever has happened so far began, or was put off, by the last reading. */
  lemma {:induction false} RunBy(take: Taker, steps: seq<Step>, c: real)
    requires Lawful(take) && Timely(take) && AllReadBy(steps, c) && AllTimed(steps)
    ensures BeganBy(Run(take, steps).0, c) && AllBy(Run(take, steps).1, c)
  {
    if |steps| == 0 {
      NoWaitsBy(c);
    } else {
      var n := |steps| - 1;
      var r := steps[..n];
      assert forall i :: 0 <= i < n ==> r[i] == steps[i];
      RunBy(take, r, c);
      RunTold(take, r);
      RunSnoc(take, steps);
      var (g, log) := Run(take, r);
      var (t, out) := take(g, steps[n]);
      assert TimeLaw(g, steps[n], t, out, c);
      StepBy(g, steps[n], t, out, c);
      WaitsByNext(log, out, c);
    }
  }

  /** The waits of an episode come in the order of time, none before the failed call began. */
  predicate InOrder(e: Episode, ws: seq<Wait>) {
    && (forall i :: 0 <= i < |ws| - 1 ==> ws[i].now <= ws[i + 1].now)
    && (|ws| > 0 ==> e.startedAt <= ws[0].now)
  }

  predicate WaitsInOrder(store: seq<Episode>, log: seq<Outcome>, h: Handle) {
    h < |store| ==> InOrder(store[h], Waits(log, h))
  }

  ghost predicate AllInOrder(store: seq<Episode>, log: seq<Outcome>) {
    forall h: Handle :: WaitsInOrder(store, log, h)
  }

  lemma {:induction false} RunInOrder(take: Taker, steps: seq<Step>)
    requires Lawful(take) && Timely(take) && Ticking(steps)
    ensures AllInOrder(Run(take, steps).0.store, Run(take, steps).1)
  {
    if |steps| > 0 {
      var n := |steps| - 1;
      var r := steps[..n];
      TickingFront(steps);
      RunInOrder(take, r);
      RunTold(take, r);
      RunSnoc(take, steps);
      var (g, log) := Run(take, r);
      var (t, out) := take(g, steps[n]);
      assert Obeys(g, steps[n], (t, out)) && TimeLaw(g, steps[n], t, out, 0.0);
      if out.Deferred? {
        ReadByLast(steps, out.now);
        RunBy(take, r, out.now);
      }
      AllNextInOrder(g, log, t, out);
    }
  }

  lemma TickingFront(steps: seq<Step>)
    requires |steps| > 0 && Ticking(steps)
    ensures Ticking(steps[..|steps| - 1])
  {
    var r := steps[..|steps| - 1];
    assert forall i :: 0 <= i < |r| ==> r[i] == steps[i];
  }

  lemma ReadByLast(steps: seq<Step>, now: real)
    requires |steps| > 0 && Ticking(steps) && !steps[|steps| - 1].Capture? && Reading(steps[|steps| - 1]) == Some(now)
    ensures AllReadBy(steps[..|steps| - 1], now) && AllTimed(steps[..|steps| - 1])
  {
  }

  lemma AllNextInOrder(g: Gate, log: seq<Outcome>, t: Gate, out: Outcome)
    requires GateOk(g) && StepLaw(g, t, out) && AllTold(g.store, log) && AllInOrder(g.store, log)
    requires out.Deferred? ==> BeganBy(g, out.now) && AllBy(log, out.now)
    ensures AllInOrder(t.store, log + [out])
  {
    forall h: Handle ensures WaitsInOrder(t.store, log + [out], h) {
      assert Told(g.store, log, h) && WaitsInOrder(g.store, log, h);
      assert out.Deferred? ==> WaitsBy(Waits(log, h), out.now);
      NextInOrder(g, log, t, out, h);
    }
  }

  lemma NextInOrder(g: Gate, log: seq<Outcome>, t: Gate, out: Outcome, h: Handle)
    requires GateOk(g) && StepLaw(g, t, out) && Told(g.store, log, h) && WaitsInOrder(g.store, log, h)
    requires out.Deferred? ==> BeganBy(g, out.now) && WaitsBy(Waits(log, h), out.now)
    ensures WaitsInOrder(t.store, log + [out], h)
  {
    LogPlus(log, out, h);
    if h < |g.store| {
      assert EpisodeEvolves(g.store[h], t.store[h]);
    }
  }

  // Deferrals.

  /** A deferral is honoured if the next one does not come before its delay is over. */
  predicate Honoured(ws: seq<Wait>, i: nat)
    requires i < |ws|
  {
    i + 1 < |ws| ==> ws[i].now + ws[i].delay <= ws[i + 1].now
  }

  /** The delays of the honoured deferrals. */
  function Total(ws: seq<Wait>): real {
    if |ws| == 0 then 0.0 else (if Honoured(ws, 0) then ws[0].delay else 0.0) + Total(ws[1..])
  }

  /** The honoured deferrals for a probe in flight. */
  function Probes(ws: seq<Wait>): nat {
    if |ws| == 0 then 0 else (if Honoured(ws, 0) && ws[0].probe then 1 else 0) + Probes(ws[1..])
  }

  lemma {:induction false} TotalSpan(e: Episode, ws: seq<Wait>)
    requires |ws| > 0 && forall i :: 0 <= i < |ws| - 1 ==> ws[i].now <= ws[i + 1].now
    requires forall i :: 0 <= i < |ws| ==> WaitFits(e, ws[i])
    ensures ws[0].now + Total(ws) < e.deadlineAt
  {
    var rest := ws[1..];
    assert WaitFits(e, ws[0]);
    if |rest| > 0 {
      assert forall i :: 0 <= i < |rest| ==> rest[i] == ws[i + 1];
      TotalSpan(e, rest);
    }
  }

  /** The time honoured probe deferrals take at least. */
  function ProbeTime(recheck: real, ws: seq<Wait>): real {
    if |ws| == 0 then 0.0 else (if Honoured(ws, 0) && ws[0].probe then recheck else 0.0) + ProbeTime(recheck, ws[1..])
  }

  lemma {:induction false} ProbesTake(e: Episode, ws: seq<Wait>)
    requires forall i :: 0 <= i < |ws| ==> WaitFits(e, ws[i])
    ensures ProbeTime(e.recheck, ws) <= Total(ws)
  {
    if |ws| > 0 {
      var rest := ws[1..];
      assert forall i :: 0 <= i < |rest| ==> rest[i] == ws[i + 1];
      ProbesTake(e, rest);
      assert WaitFits(e, ws[0]);
    }
  }

  lemma {:induction false} ProbesCount(recheck: real, ws: seq<Wait>)
    ensures ProbeTime(recheck, ws) == recheck * Probes(ws) as real
  {
    if |ws| == 0 {
      NoneTake(recheck);
    } else {
      ProbesCount(recheck, ws[1..]);
      OneMore(recheck, Probes(ws[1..]));
    }
  }

  lemma NoneTake(x: real)
    ensures x * 0 as real == 0.0
  {
  }

  lemma OneMore(x: real, n: nat)
    ensures x * (n + 1) as real == x * n as real + x
  {
  }

  /** Waits in the order of time that each end before the deadline fit in front of it. */
  lemma WaitsFit(e: Episode, ws: seq<Wait>)
    requires |ws| > 0 && InOrder(e, ws) && e.deadlineAt == e.startedAt + e.window
    requires forall i :: 0 <= i < |ws| ==> WaitFits(e, ws[i])
    ensures Total(ws) < e.window && e.recheck * Probes(ws) as real < e.window
  {
    assert Total(ws) < e.window by { TotalSpan(e, ws); }
    assert ProbeTime(e.recheck, ws) < e.window by { ProbesTake(e, ws); }
    ProbesCount(e.recheck, ws);
  }

  /** On a clock that does not go back, the delays of the honoured deferrals of an episode
      sum to less than its window, whatever the others do, and those for a probe in flight
      number less than the window over the recheck interval. */
  lemma DeferralsFit(take: Taker, steps: seq<Step>, h: Handle, e: Episode, ws: seq<Wait>)
    requires Lawful(take) && Timely(take) && Ticking(steps)
    requires h < |Run(take, steps).0.store| && e == Run(take, steps).0.store[h] && ws == Waits(Run(take, steps).1, h) && |ws| > 0
    ensures Total(ws) < e.window && e.recheck * Probes(ws) as real < e.window
  {
    RunTold(take, steps);
    RunInOrder(take, steps);
    assert Told(Run(take, steps).0.store, Run(take, steps).1, h);
    assert WaitsInOrder(Run(take, steps).0.store, Run(take, steps).1, h);
    assert EpisodeOk(e);
    WaitsFit(e, ws);
  }
}
