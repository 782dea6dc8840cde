/** What every interleaving of the gate's steps keeps: exact budgets, single-flight
    keys, one fixed deadline, and deferrals that fit in front of it. */
module RootRecoveryLaws {
  import opened Wrappers
  import opened Dicts
  import opened RootRecovery

  // The admission map of an episode.

  /** The keys of attempts 1 to `n`, each with its attempt. */
  function KeysUpTo(id: string, n: nat): map<string, nat> {
    if n == 0 then map[] else KeysUpTo(id, n - 1)[Key(id, n) := n]
  }

  lemma KeyInjective(id: string, a: nat, b: nat)
    requires Key(id, a) == Key(id, b)
    ensures a == b
  {
    var p := "root-auto-recovery:" + id + ":";
    assert Key(id, a) == p + Decimal(a) && Key(id, b) == p + Decimal(b);
    assert Key(id, a)[|p|..] == Decimal(a) && Key(id, b)[|p|..] == Decimal(b);
    DecimalInjective(a, b);
  }

  lemma {:induction false} KeysUpToHolds(id: string, n: nat, a: nat)
    ensures Key(id, a) in KeysUpTo(id, n) <==> 1 <= a <= n
  {
    if n > 0 {
      KeysUpToHolds(id, n - 1, a);
      if Key(id, a) == Key(id, n) { KeyInjective(id, a, n); }
    }
  }

  lemma {:induction false} KeysUpToLeads(id: string, n: nat, k: string)
    requires k in KeysUpTo(id, n)
    ensures 1 <= KeysUpTo(id, n)[k] <= n && k == Key(id, KeysUpTo(id, n)[k])
  {
    if k != Key(id, n) { KeysUpToLeads(id, n - 1, k); }
  }

  lemma {:induction false} KeysUpToSize(id: string, n: nat)
    ensures |KeysUpTo(id, n)| == n
  {
    if n > 0 {
      KeysUpToSize(id, n - 1);
      KeysUpToHolds(id, n - 1, n);
      OneMore(KeysUpTo(id, n - 1), Key(id, n), n);
    }
  }

  lemma OneMore<K, V>(m: map<K, V>, k: K, v: V)
    requires k !in m
    ensures |m[k := v]| == |m| + 1
  {
    assert m[k := v].Keys == m.Keys + {k};
    assert |m[k := v]| == |m.Keys + {k}|;
  }

  /** There are exactly `n` keys, they are those of the attempts 1 to `n`, and each leads
      to its attempt. */
  lemma KeysUpToExact(id: string, n: nat)
    ensures |KeysUpTo(id, n)| == n
    ensures forall a: nat :: Key(id, a) in KeysUpTo(id, n) <==> 1 <= a <= n
    ensures forall k :: k in KeysUpTo(id, n) ==> 1 <= KeysUpTo(id, n)[k] <= n && k == Key(id, KeysUpTo(id, n)[k])
  {
    KeysUpToSize(id, n);
    forall a: nat ensures Key(id, a) in KeysUpTo(id, n) <==> 1 <= a <= n { KeysUpToHolds(id, n, a); }
    forall k | k in KeysUpTo(id, n) ensures 1 <= KeysUpTo(id, n)[k] <= n && k == Key(id, KeysUpTo(id, n)[k]) {
      KeysUpToLeads(id, n, k);
    }
  }

  /** A pending key is the key of the last admission or of the next one. */
  predicate PendingOk(e: Episode) {
    e.pendingKey.Some? ==>
      && e.pendingKey == Some(Key(e.id, e.pendingAttempt))
      && (e.pendingAttempt == e.count || e.pendingAttempt == e.count + 1)
      && e.pendingAttempt >= 1
  }

  /** The budget of one episode. */
  predicate EpisodeOk(e: Episode) {
    && e.admitted == KeysUpTo(e.id, e.count)
    && e.count <= e.maxRetries
    && |e.links| + (if e.awaiting then 1 else 0) <= e.count
    && PendingOk(e)
    && e.deadlineAt == e.startedAt + e.window
    && e.recheck > 0.0
  }

  /** What a step may do to an episode: nothing once it has ended; its identity, policy
      and deadline never change, its count and links only grow. */
  predicate EpisodeEvolves(e: Episode, f: Episode) {
    && (e.ended ==> f == e)
    && f == e.(count := f.count, pendingKey := f.pendingKey, pendingTurn := f.pendingTurn, pendingAttempt := f.pendingAttempt,
               pendingDelay := f.pendingDelay, pendingGeneration := f.pendingGeneration, successor := f.successor,
               inFlight := f.inFlight, awaiting := f.awaiting, admitted := f.admitted, ended := f.ended, links := f.links)
    && e.count <= f.count
    && e.links <= f.links
  }

  predicate StoreOk(store: seq<Episode>) {
    forall h :: 0 <= h < |store| ==> EpisodeOk(store[h])
  }

  /** A dictionary entry leads to a live episode of that id. */
  predicate Filed(store: seq<Episode>, id: string, h: Handle) {
    h < |store| && store[h].id == id && !store[h].ended
  }

  predicate AllFiled(store: seq<Episode>, d: Dict<string, Handle>) {
    forall i :: 0 <= i < |d| ==> Filed(store, d[i].0, d[i].1)
  }

  /** A projection is filed under its own turn. */
  predicate Captured(d: Dict<string, Failure>) {
    forall i :: 0 <= i < |d| ==> d[i].1.turnId == d[i].0
  }

  predicate GateOk(g: Gate) {
    && StoreOk(g.store)
    && Keyed(g.episodes) && AllFiled(g.store, g.episodes)
    && |g.episodes| <= EPISODE_CAPACITY
    && |g.byTerminalTurn| <= TERMINAL_TURN_CAPACITY
    && |g.projections| <= PROJECTION_CAPACITY
    && Captured(g.projections)
  }

  predicate StoreEvolves(s: seq<Episode>, t: seq<Episode>) {
    |s| <= |t| && forall h :: 0 <= h < |s| ==> EpisodeEvolves(s[h], t[h])
  }

  /** Budgets and links are the same, episode by episode; new episodes have none. */
  predicate SameBudgets(s: seq<Episode>, t: seq<Episode>) {
    && |s| <= |t|
    && (forall h :: 0 <= h < |s| ==> t[h].count == s[h].count && t[h].links == s[h].links)
    && (forall h :: |s| <= h < |t| ==> t[h].count == 0 && t[h].links == [])
  }

  /** A move that admits and links nothing. */
  predicate Quietly(g: Gate, t: Gate) {
    (GateOk(g) ==> GateOk(t)) && StoreEvolves(g.store, t.store) && SameBudgets(g.store, t.store)
  }

  // Moves.

  lemma Still(g: Gate)
    ensures Quietly(g, g)
  {
  }

  lemma Then(g: Gate, t: Gate, u: Gate)
    requires Quietly(g, t) && Quietly(t, u)
    ensures Quietly(g, u)
  {
    forall h | 0 <= h < |g.store| ensures EpisodeEvolves(g.store[h], u.store[h]) {
      assert EpisodeEvolves(g.store[h], t.store[h]) && EpisodeEvolves(t.store[h], u.store[h]);
    }
  }

  /** Changing one live episode without ending it. */
  lemma SetKeeps(g: Gate, h: Handle, e: Episode)
    requires h < |g.store| && GateOk(g) && EpisodeOk(e) && EpisodeEvolves(g.store[h], e) && e.ended == g.store[h].ended
    ensures GateOk(Set(g, h, e)) && StoreEvolves(g.store, Set(g, h, e).store)
  {
    var t := Set(g, h, e);
    forall i | 0 <= i < |g.episodes| ensures Filed(t.store, g.episodes[i].0, g.episodes[i].1) {
      assert Filed(g.store, g.episodes[i].0, g.episodes[i].1);
    }
  }

  lemma EndKeeps(g: Gate, h: Handle)
    requires h < |g.store|
    ensures Quietly(g, End(g, h))
  {
    var e := g.store[h].(ended := true);
    var t := End(g, h);
    assert EpisodeEvolves(g.store[h], e);
    if GateOk(g) {
      PopKeyed(g.episodes, e.id);
      assert EpisodeOk(e) by { assert EpisodeOk(g.store[h]); }
      forall i | 0 <= i < |t.episodes| ensures Filed(t.store, t.episodes[i].0, t.episodes[i].1) {
        var j := PopFrom(g.episodes, e.id, i);
        assert Filed(g.store, g.episodes[j].0, g.episodes[j].1);
      }
    }
  }

  lemma EndLaterKeeps(g: Gate, h: Handle)
    ensures Quietly(g, EndLater(g, h))
  {
    Still(g);
  }

  lemma StopKeeps(g: Gate, h: Handle)
    requires h < |g.store|
    ensures Quietly(g, Stop(g, h))
  {
    if Driven(g.store[h]) { EndLaterKeeps(g, h); } else { EndKeeps(g, h); }
  }

  lemma EndLinkedKeeps(g: Gate, turn: string)
    ensures Quietly(g, EndLinked(g, turn))
  {
    match Find(g, (e: Episode) => e.successor == Some(turn) || e.pendingTurn == Some(turn) || e.initialTurn == turn)
    case Some(h) => StopKeeps(g, h);
    case None => Still(g);
  }

  lemma {:induction false} SupersedeKeeps(g: Gate, d: Dict<string, Handle>)
    ensures Quietly(g, Supersede(g, d))
    decreases |d|
  {
    if |d| == 0 {
      Still(g);
    } else {
      var h := d[0].1;
      if h >= |g.store| || g.store[h].ended || g.store[h].inFlight {
        SupersedeKeeps(g, d[1..]);
      } else {
        EndKeeps(g, h);
        SupersedeKeeps(End(g, h), d[1..]);
        Then(g, End(g, h), Supersede(End(g, h), d[1..]));
      }
    }
  }

  // A new episode.

  lemma FileNew(g: Gate, e: Episode)
    requires GateOk(g) && EpisodeOk(e) && !e.ended
    ensures var d := Trim(Put(g.episodes, e.id, |g.store|), EPISODE_CAPACITY);
            Keyed(d) && AllFiled(g.store + [e], d)
  {
    var store := g.store + [e];
    var p := (id: string, h: Handle) => Filed(store, id, h);
    assert Every<string, Handle>(g.episodes, p) by {
      forall i | 0 <= i < |g.episodes| ensures p(g.episodes[i].0, g.episodes[i].1) {
        assert Filed(g.store, g.episodes[i].0, g.episodes[i].1);
      }
    }
    PutEvery<string, Handle>(g.episodes, e.id, |g.store|, p);
    var d := Trim(Put(g.episodes, e.id, |g.store|), EPISODE_CAPACITY);
    TrimEvery<string, Handle>(Put(g.episodes, e.id, |g.store|), EPISODE_CAPACITY, p);
    TrimKeyed(Put(g.episodes, e.id, |g.store|), EPISODE_CAPACITY);
    forall i | 0 <= i < |d| ensures Filed(store, d[i].0, d[i].1) { assert p(d[i].0, d[i].1); }
  }

  lemma EpisodeForKeeps(g: Gate, f: Failure, config: Config)
    ensures var (t, h) := EpisodeFor(g, f, config);
            Quietly(g, t) && h < |t.store| && !t.store[h].ended
  {
    match Find(g, (e: Episode) => e.successor == Some(f.turnId))
    case Some(h) => Still(g);
    case None =>
      var e := NewEpisode(f, config);
      assert EpisodeOk(e);
      Still(g);
      if GateOk(g) { FileNew(g, e); }
  }

  // What the outcomes of a step tell.

  /** The episode's count goes up by one, to the attempt, before its deadline; every
      other count, and every list of links, stays. */
  predicate AdmitsOne(s: seq<Episode>, t: seq<Episode>, h: Handle, attempt: nat, now: real) {
    && h < |s| == |t|
    && attempt == s[h].count + 1 == t[h].count
    && now < s[h].deadlineAt
    && !s[h].ended
    && (forall i :: 0 <= i < |s| ==> t[i].links == s[i].links && (i != h ==> t[i].count == s[i].count))
  }

  predicate LinksOne(s: seq<Episode>, t: seq<Episode>, h: Handle, turn: string) {
    && h < |s| == |t|
    && t[h].links == s[h].links + [turn]
    && s[h].awaiting && !t[h].awaiting && !s[h].ended
    && (forall i :: 0 <= i < |s| ==> t[i].count == s[i].count && (i != h ==> t[i].links == s[i].links))
  }

  /** Only a confirmed transient failure is ever scheduled, within budget and deadline. */
  predicate SchedulesSafely(s: seq<Episode>, t: seq<Episode>, h: Handle, f: Failure, attempt: nat, delay: real, now: real) {
    && h < |t|
    && Transient(f.failureClass) && f.transientConfirmed && !f.interactionBarrier && f.effectsSettled
    && t[h].pendingKey == Some(Key(t[h].id, attempt)) && t[h].pendingAttempt == attempt
    && attempt == t[h].count + 1 <= t[h].maxRetries
    && 0.0 <= delay <= t[h].deadlineAt - now
    && (h < |s| ==> !s[h].ended)
  }

  predicate DefersInside(g: Gate, t: Gate, h: Handle, delay: real, now: real, probe: bool) {
    && t == g
    && h < |g.store| && !g.store[h].ended
    && delay > 0.0 && (probe ==> delay >= g.store[h].recheck)
    && now + delay < g.store[h].deadlineAt
  }

  predicate OutcomeLaw(g: Gate, t: Gate, out: Outcome) {
    match out
    case Admitted(h, attempt, now) => AdmitsOne(g.store, t.store, h, attempt, now)
    case Linked(h, turn) => LinksOne(g.store, t.store, h, turn)
    case Scheduled(h, f, attempt, delay, now) =>
      SameBudgets(g.store, t.store) && SchedulesSafely(g.store, t.store, h, f, attempt, delay, now)
    case Deferred(h, delay, now, probe) => DefersInside(g, t, h, delay, now, probe)
    case AlreadyAdmitted(h, attempt) => t == g && h < |g.store| && !g.store[h].ended && 1 <= attempt <= g.store[h].count
    case AlreadyScheduled(h) => t == g && h < |g.store| && !g.store[h].ended && g.store[h].pendingKey.Some?
    case _ => SameBudgets(g.store, t.store)
  }

  /** What every step keeps. */
  predicate StepLaw(g: Gate, t: Gate, out: Outcome) {
    GateOk(t) && StoreEvolves(g.store, t.store) && OutcomeLaw(g, t, out)
  }

  // Step by step.

  lemma ArmLaw(g: Gate, h: Handle, f: Failure, generation: int, env: Env)
    requires GateOk(g) && h < |g.store| && !g.store[h].ended && MayRecover(f, env)
    ensures var (t, out) := Arm(g, h, f, generation, env);
            StepLaw(g, t, out)
  {
    var e := g.store[h];
    var (t, out) := Arm(g, h, f, generation, env);
    assert EpisodeOk(e);
    if out.Scheduled? {
      SetKeeps(g, h, t.store[h]);
    } else {
      StopKeeps(g, h);
    }
  }

  lemma LawThen(g: Gate, t: Gate, u: Gate, out: Outcome)
    requires Quietly(g, t) && StepLaw(t, u, out) && (out.Scheduled? || out.Declined?)
    requires out.Scheduled? && out.h < |g.store| ==> !g.store[out.h].ended
    ensures GateOk(g) ==> StepLaw(g, u, out)
  {
    forall h | 0 <= h < |g.store| ensures EpisodeEvolves(g.store[h], u.store[h]) {
      assert EpisodeEvolves(g.store[h], t.store[h]) && EpisodeEvolves(t.store[h], u.store[h]);
    }
  }

  lemma ScheduleFailureLaw(g: Gate, f: Failure, generation: int, env: Env)
    requires GateOk(g)
    ensures var (t, out) := ScheduleFailure(g, f, generation, env);
            StepLaw(g, t, out)
  {
    if !MayRecover(f, env) {
      EndLinkedKeeps(g, f.turnId);
    } else {
      var (filed, h) := EpisodeFor(g, f, env.config);
      EpisodeForKeeps(g, f, env.config);
      ArmLaw(filed, h, f, generation, env);
      var (t, out) := Arm(filed, h, f, generation, env);
      if h < |g.store| { assert EpisodeEvolves(g.store[h], filed.store[h]); }
      LawThen(g, filed, t, out);
    }
  }

  lemma ScheduleLaw(g: Gate, sessionId: string, turn: string, generation: int, env: Env)
    requires GateOk(g)
    ensures var (t, out) := ScheduleTurn(g, sessionId, turn, generation, env);
            StepLaw(g, t, out)
  {
    Still(g);
    if env.view.sessionId == sessionId && env.config.enabled && Get(g.byTerminalTurn, turn).None? && Get(g.projections, turn).Some? {
      ScheduleFailureLaw(g, Get(g.projections, turn).value, generation, env);
    }
  }

  /** A pending key that is not admitted yet is the next attempt's. */
  lemma NextAttempt(e: Episode, key: string)
    requires EpisodeOk(e) && e.pendingKey == Some(key) && key !in e.admitted
    ensures e.pendingAttempt == e.count + 1 && key == Key(e.id, e.count + 1)
  {
    KeysUpToHolds(e.id, e.count, e.pendingAttempt);
  }

  lemma AdmittedOk(e: Episode)
    requires EpisodeOk(e) && e.count < e.maxRetries && e.pendingKey == Some(Key(e.id, e.count + 1)) && e.pendingAttempt == e.count + 1
    ensures EpisodeOk(e.(count := e.count + 1, admitted := e.admitted[Key(e.id, e.count + 1) := e.pendingAttempt], awaiting := true))
  {
  }

  lemma AdmitPendingLaw(g: Gate, h: Handle, key: string, env: Env)
    requires GateOk(g) && h < |g.store| && !g.store[h].ended
    requires g.store[h].pendingKey == Some(key) && key !in g.store[h].admitted
    ensures var (t, out) := AdmitPending(g, h, key, env);
            StepLaw(g, t, out)
  {
    var e := g.store[h];
    var (t, out) := AdmitPending(g, h, key, env);
    NextAttempt(e, key);
    Still(g);
    if out.Admitted? {
      AdmittedOk(e);
      SetKeeps(g, h, t.store[h]);
    } else if out.Declined? {
      StopKeeps(g, h);
    }
  }

  lemma AdmitEpisodeLaw(g: Gate, h: Handle, key: string, turn: string, generation: int, env: Env)
    requires GateOk(g) && h < |g.store| && !g.store[h].ended
    ensures var (t, out) := AdmitEpisode(g, h, key, turn, generation, env);
            StepLaw(g, t, out)
  {
    var e := g.store[h];
    Still(g);
    StopKeeps(g, h);
    if key in e.admitted {
      assert EpisodeOk(e);
      KeysUpToLeads(e.id, e.count, key);
    } else if Some(key) == e.pendingKey {
      AdmitPendingLaw(g, h, key, env);
    }
  }

  lemma AdmitLaw(g: Gate, sessionId: string, id: string, key: string, turn: string, generation: int, env: Env)
    requires GateOk(g)
    ensures var (t, out) := AdmitTurn(g, sessionId, id, key, turn, generation, env);
            StepLaw(g, t, out)
  {
    Still(g);
    if Live(g, id).Some? { AdmitEpisodeLaw(g, Live(g, id).value, key, turn, generation, env); }
  }

  lemma StartLaw(g: Gate, turn: string, key: Option<string>)
    requires GateOk(g)
    ensures var (t, out) := StartTurn(g, turn, key);
            StepLaw(g, t, out)
  {
    Still(g);
    SupersedeKeeps(g, g.episodes);
    var (t, out) := StartTurn(g, turn, key);
    if out.Linked? {
      assert EpisodeOk(g.store[out.h]);
      SetKeeps(g, out.h, t.store[out.h]);
    }
  }

  lemma FinishLaw(g: Gate, turn: string, status: Status)
    requires GateOk(g)
    ensures StepLaw(g, FinishTurn(g, turn, status), Done)
  {
    Still(g);
    match Find(g, (e: Episode) => e.successor == Some(turn))
    case None =>
    case Some(h) =>
      EndLaterKeeps(g, h);
      assert EpisodeOk(g.store[h]);
      SetKeeps(g, h, g.store[h].(inFlight := false));
  }

  lemma CancelLaw(g: Gate, sessionId: string, id: string, view: View)
    requires GateOk(g)
    ensures StepLaw(g, CancelEpisode(g, sessionId, id, view), Done)
  {
    Still(g);
    if Live(g, id).Some? { StopKeeps(g, Live(g, id).value); }
  }

  lemma EndAwaitedLaw(g: Gate, h: Handle)
    requires GateOk(g)
    ensures StepLaw(g, EndAwaited(g, h), Done)
  {
    Still(g);
    if h < |g.store| { EndKeeps(g, h); }
  }

  lemma CaptureLaw(g: Gate, f: Failure)
    requires GateOk(g)
    ensures StepLaw(g, Take(g, Capture(f)).0, Done)
  {
    Still(g);
  }

  /** Every step keeps the budgets, the deadlines and the dictionaries in order. */
  lemma TakeLaw(g: Gate, step: Step)
    requires GateOk(g)
    ensures StepLaw(g, Take(g, step).0, Take(g, step).1)
  {
    match step {
      case Capture(f) => CaptureLaw(g, f);
      case TurnStarted(turn, key) => StartLaw(g, turn, key);
      case TurnFinished(turn, status) => FinishLaw(g, turn, status);
      case Schedule(sessionId, turn, generation, env) => ScheduleLaw(g, sessionId, turn, generation, env);
      case Admit(sessionId, id, key, turn, generation, env) => AdmitLaw(g, sessionId, id, key, turn, generation, env);
      case Cancel(sessionId, id, view) => CancelLaw(g, sessionId, id, view);
      case EndEpisode(h) => EndAwaitedLaw(g, h);
      case InvalidateAll => Still(g);
    }
  }

  // Delays.

  /** What is due covers the configured backoff, the retry-after that is left and, where
      the model is unavailable, its next check; and it is one of them. */
  lemma DueCovers(e: Episode, f: Failure, env: Env)
    ensures var due := Due(e, f, env);
            && due >= Backoff(e.cooldowns, e.count)
            && due >= 0.0
            && (f.retryAfter.Some? ==> due >= f.retryAfter.value - (env.later - f.observedAt))
            && (!env.availability.available ==> due >= env.availability.nextCheck)
            && (due == Backoff(e.cooldowns, e.count) || due == RetryAfterLeft(f, env)
                || (!env.availability.available && due == env.availability.nextCheck))
  {
  }

  lemma Product(a: real, b: real)
    requires a >= 0.0 && b >= 0.0
    ensures a * b >= 0.0
  {
  }

  lemma Distribute(base: real, fraction: real)
    ensures base * (1.0 - fraction) == base - base * fraction
  {
  }

  lemma PartWithin(base: real, fraction: real)
    requires 0.0 <= fraction <= 1.0 && base >= 0.0
    ensures 0.0 <= base * fraction <= base
  {
    Product(base, fraction);
    Product(base, 1.0 - fraction);
    Distribute(base, fraction);
  }

  lemma MovedWithin(base: real, part: real, swing: real)
    requires 0.0 <= part <= base && -1.0 <= swing <= 1.0
    ensures base - part <= Moved(base, part, swing) <= base + part
  {
    Product(part, 1.0 - swing);
    Distribute(part, swing);
    Product(part, 1.0 + swing);
  }

  /** Jitter moves a due delay by no more than its fraction, either way. */
  lemma JitterWithin(base: real, fraction: real, draw: real)
    requires 0.0 <= fraction <= 1.0 && base >= 0.0
    ensures base - base * fraction <= JitteredBackoff(base, fraction, draw) <= base + base * fraction
  {
    PartWithin(base, fraction);
    MovedWithin(base, base * fraction, Swing(draw));
  }

  // When episodes began.

  /** Nothing began after `c`: no episode, and no failure an episode could be made from. */
  predicate BeganBy(g: Gate, c: real) {
    && (forall h :: 0 <= h < |g.store| ==> g.store[h].startedAt <= c)
    && (forall i :: 0 <= i < |g.projections| ==> StartOf(g.projections[i].1) <= c)
  }

  /** When the failed call of a failure began. */
  function StartOf(f: Failure): real {
    f.observedAt - f.elapsed.GetOr(0.0)
  }

  predicate SameStarts(g: Gate, t: Gate) {
    && t.projections == g.projections && |t.store| == |g.store|
    && forall h :: 0 <= h < |g.store| ==> t.store[h].startedAt == g.store[h].startedAt
  }

  lemma StopStarts(g: Gate, h: Handle)
    requires h < |g.store|
    ensures SameStarts(g, Stop(g, h)) && Stop(g, h).byTerminalTurn == g.byTerminalTurn
    ensures SameStarts(g, End(g, h)) && End(g, h).byTerminalTurn == g.byTerminalTurn
  {
  }

  lemma {:induction false} SupersedeStarts(g: Gate, d: Dict<string, Handle>)
    ensures SameStarts(g, Supersede(g, d)) && Supersede(g, d).byTerminalTurn == g.byTerminalTurn
    decreases |d|
  {
    if |d| > 0 {
      var h := d[0].1;
      if h >= |g.store| || g.store[h].ended || g.store[h].inFlight {
        SupersedeStarts(g, d[1..]);
      } else {
        StopStarts(g, h);
        SupersedeStarts(End(g, h), d[1..]);
      }
    }
  }

  lemma EndLinkedStarts(g: Gate, turn: string)
    ensures SameStarts(g, EndLinked(g, turn)) && EndLinked(g, turn).byTerminalTurn == g.byTerminalTurn
  {
    match Find(g, (e: Episode) => e.successor == Some(turn) || e.pendingTurn == Some(turn) || e.initialTurn == turn)
    case Some(h) => StopStarts(g, h);
    case None =>
  }

  lemma EpisodeForStarts(g: Gate, f: Failure, config: Config, c: real)
    requires BeganBy(g, c) && StartOf(f) <= c
    ensures BeganBy(EpisodeFor(g, f, config).0, c) && EpisodeFor(g, f, config).0.byTerminalTurn == g.byTerminalTurn
  {
  }

  /** What arming does to the index of terminal turns. */
  predicate Indexes(g: Gate, t: Gate, f: Failure, out: Outcome) {
    if out.Scheduled? then
      && out.failure == f && out.h < |t.store|
      && t.byTerminalTurn == Trim(Put(g.byTerminalTurn, f.turnId, t.store[out.h].id), TERMINAL_TURN_CAPACITY)
    else t.byTerminalTurn == g.byTerminalTurn
  }

  lemma ArmStarts(g: Gate, h: Handle, f: Failure, generation: int, env: Env)
    requires h < |g.store|
    ensures var (t, out) := Arm(g, h, f, generation, env);
            SameStarts(g, t) && Indexes(g, t, f, out)
  {
    StopStarts(g, h);
  }

  lemma SameStartsBegan(g: Gate, t: Gate, c: real)
    requires SameStarts(g, t) && BeganBy(g, c)
    ensures BeganBy(t, c)
  {
  }

  lemma ScheduleFailureStarts(g: Gate, f: Failure, generation: int, env: Env, c: real)
    requires BeganBy(g, c) && StartOf(f) <= c
    ensures var (t, out) := ScheduleFailure(g, f, generation, env);
            BeganBy(t, c)
  {
    if !MayRecover(f, env) {
      EndLinkedStarts(g, f.turnId);
      SameStartsBegan(g, EndLinked(g, f.turnId), c);
    } else {
      var (filed, h) := EpisodeFor(g, f, env.config);
      EpisodeForStarts(g, f, env.config, c);
      ArmStarts(filed, h, f, generation, env);
      SameStartsBegan(filed, Arm(filed, h, f, generation, env).0, c);
    }
  }

  /** A schedule indexes its turn, which was not there; any other answer leaves the index. */
  predicate ScheduleIndexes(g: Gate, t: Gate, turn: string, out: Outcome) {
    if out.Scheduled? then
      && out.failure.turnId == turn && Get(g.byTerminalTurn, turn) == None && out.h < |t.store|
      && t.byTerminalTurn == Trim(Put(g.byTerminalTurn, turn, t.store[out.h].id), TERMINAL_TURN_CAPACITY)
    else t.byTerminalTurn == g.byTerminalTurn
  }

  lemma ScheduleStarts(g: Gate, sessionId: string, turn: string, generation: int, env: Env, c: real)
    requires BeganBy(g, c) && Captured(g.projections)
    ensures var (t, out) := ScheduleTurn(g, sessionId, turn, generation, env);
            BeganBy(t, c)
  {
    if Get(g.projections, turn).Some? {
      var i := IndexOf(g.projections, turn);
      assert g.projections[i].1.turnId == turn && StartOf(g.projections[i].1) <= c;
      ScheduleFailureStarts(g, g.projections[i].1, generation, env, c);
    }
  }

  lemma ScheduleFailureIndex(g: Gate, f: Failure, generation: int, env: Env)
    ensures var (t, out) := ScheduleFailure(g, f, generation, env);
            Indexes(g, t, f, out)
  {
    if !MayRecover(f, env) {
      EndLinkedStarts(g, f.turnId);
    } else {
      var (filed, h) := EpisodeFor(g, f, env.config);
      ArmStarts(filed, h, f, generation, env);
      assert filed.byTerminalTurn == g.byTerminalTurn;
    }
  }

  lemma ScheduleIndex(g: Gate, sessionId: string, turn: string, generation: int, env: Env)
    requires Captured(g.projections)
    ensures var (t, out) := ScheduleTurn(g, sessionId, turn, generation, env);
            ScheduleIndexes(g, t, turn, out)
  {
    if Get(g.projections, turn).Some? {
      var i := IndexOf(g.projections, turn);
      assert g.projections[i].1.turnId == turn;
      ScheduleFailureIndex(g, g.projections[i].1, generation, env);
    }
  }

  lemma AdmitStarts(g: Gate, sessionId: string, id: string, key: string, turn: string, generation: int, env: Env)
    ensures var (t, out) := AdmitTurn(g, sessionId, id, key, turn, generation, env);
            SameStarts(g, t) && t.byTerminalTurn == g.byTerminalTurn && !out.Scheduled? && (out.Deferred? ==> out.now == env.now)
  {
    if Live(g, id).Some? {
      var h := Live(g, id).value;
      StopStarts(g, h);
    }
  }

  lemma CaptureStarts(g: Gate, f: Failure, c: real)
    requires BeganBy(g, c) && StartOf(f) <= c
    ensures BeganBy(Take(g, Capture(f)).0, c)
  {
    var p := (k: string, v: Failure) => StartOf(v) <= c;
    assert Every(g.projections, p);
    PutEvery(g.projections, f.turnId, f, p);
    TrimEvery(Put(g.projections, f.turnId, f), PROJECTION_CAPACITY, p);
  }

  /** What a step may take as the start of an episode. */
  predicate StartsBy(step: Step, c: real) {
    step.Capture? ==> StartOf(step.failure) <= c
  }

  /** What a step does to the beginnings and to the index, and when it defers. */
  predicate TimeLaw(g: Gate, step: Step, t: Gate, out: Outcome, c: real) {
    && (BeganBy(g, c) && StartsBy(step, c) ==> BeganBy(t, c))
    && (out.Deferred? ==> step.Admit? && out.now == step.env.now)
  }

  predicate IndexLaw(g: Gate, step: Step, t: Gate, out: Outcome) {
    if step.Schedule? then ScheduleIndexes(g, t, step.turn, out)
    else !out.Scheduled? && (step.InvalidateAll? || t.byTerminalTurn == g.byTerminalTurn)
  }

  lemma TakeTimes(g: Gate, step: Step, c: real)
    requires Captured(g.projections)
    ensures TimeLaw(g, step, Take(g, step).0, Take(g, step).1, c)
  {
    if BeganBy(g, c) && StartsBy(step, c) { TakeBegan(g, step, c); }
    if step.Admit? { AdmitStarts(g, step.sessionId, step.episodeId, step.key_, step.turn, step.generation, step.env); }
    if step.Schedule? { ScheduleNeverDefers(g, step.sessionId, step.turn, step.generation, step.env); }
  }

  lemma ScheduleNeverDefers(g: Gate, sessionId: string, turn: string, generation: int, env: Env)
    ensures !ScheduleTurn(g, sessionId, turn, generation, env).1.Deferred?
  {
  }

  lemma FinishStarts(g: Gate, turn: string, status: Status)
    ensures SameStarts(g, FinishTurn(g, turn, status)) && FinishTurn(g, turn, status).byTerminalTurn == g.byTerminalTurn
  {
  }

  lemma CancelStarts(g: Gate, sessionId: string, id: string, view: View)
    ensures SameStarts(g, CancelEpisode(g, sessionId, id, view)) && CancelEpisode(g, sessionId, id, view).byTerminalTurn == g.byTerminalTurn
  {
    if Live(g, id).Some? { StopStarts(g, Live(g, id).value); }
  }

  lemma StartTurnStarts(g: Gate, turn: string, key: Option<string>)
    ensures var (t, out) := StartTurn(g, turn, key);
            SameStarts(g, t) && t.byTerminalTurn == g.byTerminalTurn && !out.Scheduled? && !out.Deferred?
  {
    SupersedeStarts(g, g.episodes);
  }

  lemma EndAwaitedStarts(g: Gate, h: Handle)
    ensures SameStarts(g, EndAwaited(g, h)) && EndAwaited(g, h).byTerminalTurn == g.byTerminalTurn
  {
    if h < |g.store| { StopStarts(g, h); }
  }

  lemma TakeBegan(g: Gate, step: Step, c: real)
    requires Captured(g.projections) && BeganBy(g, c) && StartsBy(step, c)
    ensures BeganBy(Take(g, step).0, c)
  {
    match step {
      case Capture(f) => CaptureStarts(g, f, c);
      case TurnStarted(turn, key) =>
        StartTurnStarts(g, turn, key);
        SameStartsBegan(g, StartTurn(g, turn, key).0, c);
      case TurnFinished(turn, status) =>
        FinishStarts(g, turn, status);
        SameStartsBegan(g, FinishTurn(g, turn, status), c);
      case Schedule(sessionId, turn, generation, env) => ScheduleStarts(g, sessionId, turn, generation, env, c);
      case Admit(sessionId, id, key, turn, generation, env) =>
        AdmitStarts(g, sessionId, id, key, turn, generation, env);
        SameStartsBegan(g, AdmitTurn(g, sessionId, id, key, turn, generation, env).0, c);
      case Cancel(sessionId, id, view) =>
        CancelStarts(g, sessionId, id, view);
        SameStartsBegan(g, CancelEpisode(g, sessionId, id, view), c);
      case EndEpisode(h) =>
        EndAwaitedStarts(g, h);
        SameStartsBegan(g, EndAwaited(g, h), c);
      case InvalidateAll =>
    }
  }

  lemma TakeIndexes(g: Gate, step: Step)
    requires Captured(g.projections)
    ensures IndexLaw(g, step, Take(g, step).0, Take(g, step).1)
  {
    match step {
      case TurnStarted(turn, key) => StartTurnStarts(g, turn, key);
      case TurnFinished(turn, status) => FinishStarts(g, turn, status);
      case Schedule(sessionId, turn, generation, env) => ScheduleIndex(g, sessionId, turn, generation, env);
      case Admit(sessionId, id, key, turn, generation, env) => AdmitStarts(g, sessionId, id, key, turn, generation, env);
      case Cancel(sessionId, id, view) => CancelStarts(g, sessionId, id, view);
      case EndEpisode(h) => EndAwaitedStarts(g, h);
      case _ =>
    }
  }
}
