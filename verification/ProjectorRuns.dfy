/** Runs of the projector in which no streamed text arrives under an id that is
    already taken: finalizing them never raises and settles everything. */
module ProjectorRuns {
  import opened Wrappers
  import opened History
  import opened Projector
  import opened ProjectorHistory
  import opened ProjectorFinish

  predicate Spoken(g: Ledger, id: string) {
    id in g.entries && g.entries[id].body.Message? && g.entries[id].body.role.Assistant?
  }

  predicate Thought(g: Ledger, id: string) {
    id in g.entries && g.entries[id].body.Reasoning?
  }

  /** The dictionaries of streamed texts lead to entries of their own kind. */
  predicate Owned(s: State) {
    && (forall k :: k in s.assistant ==> Spoken(s.ledger, s.assistant[k]))
    && (forall k :: k in s.reasoning ==> Thought(s.ledger, s.reasoning[k]))
  }

  predicate Ready(s: State) {
    Accounted(s) && Owned(s) && AllTidy(s.ledger)
  }

  /** A streamed text that starts a new entry under an id already in the history.
      The call raises, but not before the id is filed. */
  predicate Collides(s: State, call: Call) {
    match call
    case Project(AssistantText(messageId, _, uuid, _)) =>
      !Known(s.assistant, Or(messageId, "assistant")) && Or(messageId, uuid) in s.ledger.entries
    case Project(ReasoningText(messageId, _, uuid)) =>
      !Known(s.reasoning, Or(messageId, "reasoning")) && Or(messageId, uuid) in s.ledger.entries
    case _ => false
  }

  /** Calls that do not collide and complete effects with settled states only. */
  predicate Expected(s: State, call: Call) {
    !Collides(s, call) && (call.Complete? ==> Settled(call.state))
  }

  // Tidiness.

  lemma PlayTidy(g: Ledger, u: Update)
    requires AllTidy(g) && Plain(u) && Play(g, u).Some?
    ensures AllTidy(Play(g, u).value)
  {
    match u
    case Patched(id, ops) => ProperKeepsTidy(g.entries[id], ops);
    case _ =>
  }

  lemma {:induction false} TidyByTrace(t: seq<Update>, n: nat)
    requires n <= |t| && Replay(t).Some? && forall i :: n <= i < |t| ==> Plain(t[i])
    ensures Replay(t[..n]).Some? && (AllTidy(Replay(t[..n]).value) ==> AllTidy(Replay(t).value))
  {
    if n == |t| {
      assert t[..n] == t;
    } else {
      var r := t[..|t| - 1];
      assert r[..n] == t[..n];
      TidyByTrace(r, n);
      if AllTidy(Replay(r).value) { PlayTidy(Replay(r).value, t[|t| - 1]); }
    }
  }

  lemma PlainlyTidy(s: State, t: State)
    requires Accounted(s) && Accounted(t) && s.trace <= t.trace && Plainly(s, t) && AllTidy(s.ledger)
    ensures AllTidy(t.ledger)
  {
    assert t.trace[..|s.trace|] == s.trace;
    TidyByTrace(t.trace, |s.trace|);
  }

  lemma EvolvedSince(s: State, t: State)
    requires Accounted(s) && Accounted(t) && s.trace <= t.trace
    ensures Sound(s.ledger) && Sound(t.ledger) && Evolves(s.ledger, t.ledger)
  {
    assert t.trace[..|s.trace|] == s.trace;
    ReplaySound(s.trace);
    ReplaySound(t.trace);
    ReplayEvolves(t.trace, |s.trace|);
  }

  lemma StillSpoken(s: State, t: State, id: string)
    requires Accounted(s) && Accounted(t) && s.trace <= t.trace
    ensures (Spoken(s.ledger, id) ==> Spoken(t.ledger, id)) && (Thought(s.ledger, id) ==> Thought(t.ledger, id))
  {
    EvolvedSince(s, t);
    if id in s.ledger.entries { EvolvesKeeps(s.ledger, t.ledger, id); }
  }

  lemma OwnedStill(s: State, t: State)
    requires Accounted(s) && Accounted(t) && s.trace <= t.trace && SameVoices(s, t) && Owned(s)
    ensures Owned(t)
  {
    forall k | k in t.assistant ensures Spoken(t.ledger, t.assistant[k]) { StillSpoken(s, t, s.assistant[k]); }
    forall k | k in t.reasoning ensures Thought(t.ledger, t.reasoning[k]) { StillSpoken(s, t, s.reasoning[k]); }
  }

  // Streamed text.

  /** A new streamed entry is filed under its own id. */
  lemma NewAssistantOwned(s: State, key: string, id: string, body: Body)
    requires !s.failed && Accounted(s) && Owned(s) && id !in s.ledger.entries && body.Message? && body.role.Assistant?
    ensures Owned(AddNew(s.(assistant := s.assistant[key := id]), id, InProgress, None, body, true))
  {
    var t := AddNew(s.(assistant := s.assistant[key := id]), id, InProgress, None, body, true);
    assert Spoken(t.ledger, id);
    forall k | k in t.assistant ensures Spoken(t.ledger, t.assistant[k]) {
      if k != key { assert Spoken(s.ledger, s.assistant[k]); }
    }
    forall k | k in t.reasoning ensures Thought(t.ledger, t.reasoning[k]) { assert Thought(s.ledger, s.reasoning[k]); }
  }

  lemma NewReasoningOwned(s: State, key: string, id: string, body: Body)
    requires !s.failed && Accounted(s) && Owned(s) && id !in s.ledger.entries && body.Reasoning?
    ensures Owned(AddNew(s.(reasoning := s.reasoning[key := id]), id, InProgress, None, body, true))
  {
    var t := AddNew(s.(reasoning := s.reasoning[key := id]), id, InProgress, None, body, true);
    assert Thought(t.ledger, id);
    forall k | k in t.reasoning ensures Thought(t.ledger, t.reasoning[k]) {
      if k != key { assert Thought(s.ledger, s.reasoning[k]); }
    }
    forall k | k in t.assistant ensures Spoken(t.ledger, t.assistant[k]) { assert Spoken(s.ledger, s.assistant[k]); }
  }

  lemma AssistantOwned(s: State, messageId: Option<string>, text: string, uuid: string, rest: Json)
    requires !s.failed && Accounted(s) && Owned(s)
    requires Known(s.assistant, Or(messageId, "assistant")) || Or(messageId, uuid) !in s.ledger.entries
    ensures Owned(ProjectAssistant(s, messageId, text, uuid, rest))
  {
    var key := Or(messageId, "assistant");
    if Known(s.assistant, key) {
      OwnedStill(s, Patch(s, s.assistant[key], [AppendContent(text)]));
    } else {
      NewAssistantOwned(s, key, Or(messageId, uuid), Message(Assistant, [Text(text)], None, rest));
    }
  }

  lemma ReasoningOwned(s: State, messageId: Option<string>, text: string, uuid: string)
    requires !s.failed && Accounted(s) && Owned(s)
    requires Known(s.reasoning, Or(messageId, "reasoning")) || Or(messageId, uuid) !in s.ledger.entries
    ensures Owned(ProjectReasoning(s, messageId, text, uuid))
  {
    var key := Or(messageId, "reasoning");
    if Known(s.reasoning, key) {
      OwnedStill(s, Patch(s, s.reasoning[key], [AppendText(text)]));
    } else {
      NewReasoningOwned(s, key, Or(messageId, uuid), Reasoning(text));
    }
  }

  // The tool call that completes streamed text.

  predicate Texts(g: Ledger, ids: set<string>) {
    forall id :: id in ids ==> Spoken(g, id) || Thought(g, id)
  }

  lemma CompleteTextTidy(s: State, id: string)
    requires Accounted(s) && AllTidy(s.ledger) && (Spoken(s.ledger, id) || Thought(s.ledger, id))
    ensures AllTidy(Patch(s, id, [ReplaceGeneration(Completed)]).ledger)
  {
    if !s.failed {
      var ops := [ReplaceGeneration(Completed)];
      var e := s.ledger.entries[id];
      PatchOutcome(s, id, ops);
      var stamped := Stamped(e, ops, s.clock(s.ticks));
      if Revise(e, stamped).Some? { KeepsClosed(stamped, e); }
    }
  }

  lemma TextsStill(s: State, t: State, ids: set<string>)
    requires Accounted(s) && Accounted(t) && s.trace <= t.trace && Texts(s.ledger, ids)
    ensures Texts(t.ledger, ids)
  {
    forall id | id in ids ensures Spoken(t.ledger, id) || Thought(t.ledger, id) { StillSpoken(s, t, id); }
  }

  lemma {:induction false} CompleteStreamedTidy(s: State, ids: set<string>, i: nat)
    requires Accounted(s) && AllTidy(s.ledger) && Texts(s.ledger, ids)
    ensures AllTidy(CompleteStreamed(s, ids, i).ledger)
    decreases |s.ledger.history| - i
  {
    if !s.failed && i < |s.ledger.history| {
      var e := s.ledger.history[i];
      if e.id in ids && e.generation.InProgress? {
        var t := Patch(s, e.id, [ReplaceGeneration(Completed)]);
        CompleteTextTidy(s, e.id);
        TextsStill(s, t, ids);
        CompleteStreamedTidy(t, ids, i + 1);
      } else {
        CompleteStreamedTidy(s, ids, i + 1);
      }
    }
  }

  lemma ToolCallTidy(s: State, callId: string, name: string, presentation: Option<Detail>)
    requires Ready(s)
    ensures AllTidy(ProjectToolCall(s, callId, name, presentation).ledger)
  {
    var ids := s.assistant.Values + s.reasoning.Values;
    var t := CompleteStreamed(s, ids, 0);
    CompleteStreamedTidy(s, ids, 0);
    if !t.failed && presentation.Some? {
      PlainlyTidy(t, StartEffect(t, callId, name, presentation.value));
    }
  }

  // One call.

  lemma StreamedOwned(s: State, event: Event)
    requires Ready(s) && !s.failed && Streams(Project(event)) && !Collides(s, Project(event))
    ensures Owned(ProjectEvent(s, event))
  {
    match event
    case AssistantText(messageId, text, uuid, rest) => AssistantOwned(s, messageId, text, uuid, rest);
    case ReasoningText(messageId, text, uuid) => ReasoningOwned(s, messageId, text, uuid);
  }

  lemma StepProjects(s: State, event: Event)
    ensures Step(s, Project(event)) == ProjectEvent(s.(failed := false), event)
  {
  }

  lemma StreamedReady(s: State, call: Call)
    requires Ready(s) && !s.failed && Streams(call) && !Collides(s, call)
    ensures Owned(Step(s, call))
  {
    StepProjects(s, call.event);
    StreamedOwned(s, call.event);
  }

  lemma FinalizeTidy(s: State, cancelled: bool, timing: Option<Timing>, ms: seq<ToolTiming>, replay: bool)
    requires Ready(s) && !s.failed
    ensures AllTidy(Finalize(s, cancelled, timing, ms, replay).ledger)
  {
    ReplaySound(s.trace);
    FinalizeOutcome(s, cancelled, timing, ms, replay);
    FinalizeSettles(s.ledger, Finalize(s, cancelled, timing, ms, replay).ledger, cancelled);
  }

  lemma BulkTidy(s: State, call: Call)
    requires Ready(s) && !s.failed && !OnlyCloses(call) && !call.Complete?
    ensures AllTidy(Step(s, call).ledger)
  {
    assert s.(failed := false) == s;
    match call
    case Project(event) => ToolCallTidy(s, event.callId, event.name, event.presentation);
    case Finish(cancelled, timing, ms, replay) => FinalizeTidy(s, cancelled, timing, ms, replay);
  }

  /** An expected call keeps the dictionaries of streamed texts honest and every
      completed entry closed, even when it raises. */
  lemma StepReady(s: State, call: Call)
    requires Ready(s) && Expected(s, call)
    ensures Ready(Step(s, call))
  {
    var u := s.(failed := false);
    var t := Step(s, call);
    assert t == Step(u, call);
    assert StepLaw(s, call, t);
    if OnlyCloses(call) { PlainlyTidy(s, t); } else { BulkTidy(u, call); }
    if Streams(call) { StreamedReady(u, call); } else { OwnedStill(s, t); }
  }

  // Runs.

  ghost predicate KeepsReady(step: Stepper) {
    forall s, c :: Ready(s) && Expected(s, c) ==> Ready(step(s, c))
  }

  predicate AllExpected(step: Stepper, s: State, calls: seq<Call>) {
    |calls| == 0 ||
    (AllExpected(step, s, calls[..|calls| - 1]) && Expected(Run(step, s, calls[..|calls| - 1]), calls[|calls| - 1]))
  }

  lemma {:induction false} RunReady(step: Stepper, s: State, calls: seq<Call>)
    requires KeepsReady(step) && Ready(s) && AllExpected(step, s, calls)
    ensures Ready(Run(step, s, calls))
  {
    if |calls| > 0 { RunReady(step, s, calls[..|calls| - 1]); }
  }

  lemma ReadyNeverMisplaced(s: State, timing: Option<Timing>, replay: bool)
    requires Owned(s)
    ensures !Misplaced(s, timing, replay)
  {
  }

  /** Whenever a ready projector is finalized, whether cancelled, timed or replayed, the
      call returns and everything is settled. */
  lemma ReadyFinishes(s: State, cancelled: bool, timing: Option<Timing>, ms: seq<ToolTiming>, replay: bool)
    requires Ready(s) && !s.failed
    ensures var t := Finalize(s, cancelled, timing, ms, replay);
            !t.failed && AllSettled(t.ledger) && TurnEnded(s.ledger, t.ledger, cancelled)
  {
    ReplaySound(s.trace);
    ReadyNeverMisplaced(s, timing, replay);
    FinalizeOutcome(s, cancelled, timing, ms, replay);
    FinalizeSettles(s.ledger, Finalize(s, cancelled, timing, ms, replay).ledger, cancelled);
  }

  /** After any run of expected calls, raising ones included. */
  lemma RunFinishes(step: Stepper, s: State, calls: seq<Call>, cancelled: bool, timing: Option<Timing>, ms: seq<ToolTiming>, replay: bool)
    requires KeepsReady(step) && Ready(s) && AllExpected(step, s, calls)
    ensures var before := Run(step, s, calls).(failed := false);
            var t := Finalize(before, cancelled, timing, ms, replay);
            !t.failed && AllSettled(t.ledger) && TurnEnded(before.ledger, t.ledger, cancelled)
  {
    RunReady(step, s, calls);
    ReadyFinishes(Run(step, s, calls).(failed := false), cancelled, timing, ms, replay);
  }

  lemma StepKeepsReady()
    ensures KeepsReady(Step)
  {
    forall s, c | Ready(s) && Expected(s, c) ensures Ready(Step(s, c)) { StepReady(s, c); }
  }

  /** Of the projector itself, from its creation on. */
  lemma FinishNeverRaises(s: State, calls: seq<Call>, cancelled: bool, timing: Option<Timing>, ms: seq<ToolTiming>, replay: bool)
    requires s == Start(s.sessionId, s.turnId, s.preview, s.clock) && AllExpected(Step, s, calls)
    ensures var t := Finalize(Run(Step, s, calls).(failed := false), cancelled, timing, ms, replay);
            !t.failed && AllSettled(t.ledger)
  {
    StepKeepsReady();
    RunFinishes(Step, s, calls, cancelled, timing, ms, replay);
  }

  // A collision.

  lemma CollisionSteps(s: State, id: string, content: seq<Block>, text: string, rest: Json)
    requires s == Start(s.sessionId, s.turnId, s.preview, s.clock) && id != ""
    ensures var a := ProjectUserMessage(s, id, content, "", rest);
            var b := ProjectAssistant(a, Some(id), text, "", rest);
            && !a.failed && b.failed && Accounted(b) && id in b.assistant && b.assistant[id] == id
            && id in b.ledger.entries && b.ledger.entries[id].body == Message(User, content, None, rest)
  {
  }

  /** What a collision leads to: a user message, an assistant text under the same id,
      whose call raises, and then a finalize with that text's duration, which raises
      because the user's message is frozen. */
  lemma CollisionRaises(s: State, id: string, content: seq<Block>, text: string, rest: Json, duration: real)
    requires s == Start(s.sessionId, s.turnId, s.preview, s.clock) && id != ""
    ensures var a := ProjectUserMessage(s, id, content, "", rest);
            var b := ProjectAssistant(a, Some(id), text, "", rest);
            && Collides(a, Project(AssistantText(Some(id), text, "", rest)))
            && Finalize(b.(failed := false), false, Some(Timing(id, duration)), [], false).failed
  {
    CollisionSteps(s, id, content, text, rest);
    var b := ProjectAssistant(ProjectUserMessage(s, id, content, "", rest), Some(id), text, "", rest).(failed := false);
    ReplaySound(b.trace);
    FinalizeOutcome(b, false, Some(Timing(id, duration)), [], false);
  }

  /** Where a collision puts a running effect among the streamed texts: the effect is started,
      a reasoning text comes under its id, and the call raises. */
  lemma MixedUp(s: State, id: string, title: string, detail: Detail, text: string)
    requires s == Start(s.sessionId, s.turnId, s.preview, s.clock) && id != ""
    ensures var a := StartEffect(s, id, title, detail);
            var b := ProjectReasoning(a, Some(id), text, "");
            && !a.failed && b.failed && Accounted(b) && Collides(a, Project(ReasoningText(Some(id), text, "")))
            && b.assistant == map[] && b.reasoning == map[id := id] && b.effects == map[id := id]
            && |b.ledger.history| == 1 && b.ledger.history[0].id == id && b.ledger.entries == map[id := b.ledger.history[0]]
            && b.ledger.history[0].generation.InProgress? && b.ledger.history[0].body == Effect(title, detail, Running(""))
  {
  }

  /** Completing the streamed texts then completes the effect, still running. */
  lemma CompletesRunning(b: State, id: string)
    requires !b.failed && |b.ledger.history| == 1 && b.ledger.history[0].id == id && b.ledger.entries == map[id := b.ledger.history[0]]
    requires b.ledger.history[0].generation.InProgress? && b.ledger.history[0].body.Effect?
    ensures var c := CompleteStreamed(b, {id}, 0);
            && !c.failed && c.ledger.entries.Keys == {id} && c.effects == b.effects
            && c.ledger.entries[id].generation.Completed? && c.ledger.entries[id].body == b.ledger.history[0].body
  {
    var e, op, now := b.ledger.history[0], ReplaceGeneration(Completed), b.clock(b.ticks);
    assert !TimingOnly(e, [op]) by { assert !Replays(e, [op][0]); }
    assert [op] + [ReplaceUpdatedAt(now)] == [op, ReplaceUpdatedAt(now)];
    ApplyTwo(op, ReplaceUpdatedAt(now), e);
    PatchOutcome(b, id, [op]);
    PatchSteps(b, id, [op]);
    var c := CompleteAt(b, {id}, 0);
    assert CompleteStreamed(b, {id}, 0) == CompleteStreamed(c, {id}, 1) == c;
  }

  lemma StartsNew(c: State, callId: string, name: string, detail: Detail, id: string)
    requires !c.failed && callId !in c.effects && callId !in c.ledger.entries && id in c.ledger.entries
    ensures var d := StartEffect(c, callId, name, detail);
            !d.failed && id in d.ledger.entries && d.ledger.entries[id] == c.ledger.entries[id] && (Accounted(c) ==> Accounted(d))
  {
  }

  lemma ToolCallStarts(b: State, ids: set<string>, callId: string, name: string, detail: Detail)
    requires b.assistant.Values + b.reasoning.Values == ids && !CompleteStreamed(b, ids, 0).failed
    ensures ProjectToolCall(b, callId, name, Some(detail)) == StartEffect(CompleteStreamed(b, ids, 0), callId, name, detail)
    ensures Accounted(b) ==> Accounted(CompleteStreamed(b, ids, 0))
  {
  }

  /** The next tool call gets through. */
  lemma ToolCallGoesOn(b: State, id: string, callId: string, name: string, detail: Detail)
    requires !b.failed && b.assistant.Values + b.reasoning.Values == {id} && callId !in b.effects
    requires var c := CompleteStreamed(b, {id}, 0);
             !c.failed && callId !in c.ledger.entries && id in c.ledger.entries && c.effects == b.effects
    ensures var c, d := CompleteStreamed(b, {id}, 0), ProjectToolCall(b, callId, name, Some(detail));
            !d.failed && id in d.ledger.entries && d.ledger.entries[id] == c.ledger.entries[id] && (Accounted(b) ==> Accounted(d))
  {
    ToolCallStarts(b, {id}, callId, name, detail);
    StartsNew(CompleteStreamed(b, {id}, 0), callId, name, detail, id);
  }

  /** A completed entry that is still running stays that way through the end of the turn. */
  predicate StillRunning(g: Ledger, id: string) {
    id in g.entries && g.entries[id].generation.Completed? && g.entries[id].body.Effect? && g.entries[id].body.state.Running?
  }

  lemma RunningAtEnd(g: Ledger, h: Ledger, id: string, cancelled: bool)
    requires TurnEnded(g, h, cancelled) && StillRunning(g, id)
    ensures StillRunning(h, id) && h.entries[id].body == g.entries[id].body && !AllTidy(g) && !AllSettled(h)
  {
    assert Frozen(EndOf(g.entries[id], cancelled, h.entries[id].updatedAt), h.entries[id]);
    assert !Tidy(g.entries[id]);
  }

  lemma MixedUpToolCall(s: State, id: string, title: string, detail: Detail, text: string, callId: string, name: string, other: Detail)
    requires s == Start(s.sessionId, s.turnId, s.preview, s.clock) && id != "" && callId != id
    ensures var b := ProjectReasoning(StartEffect(s, id, title, detail), Some(id), text, "").(failed := false);
            var c := ProjectToolCall(b, callId, name, Some(other));
            !c.failed && Accounted(c) && StillRunning(c.ledger, id) && c.ledger.entries[id].body == Effect(title, detail, Running(""))
  {
    MixedUp(s, id, title, detail, text);
    var b := ProjectReasoning(StartEffect(s, id, title, detail), Some(id), text, "").(failed := false);
    CompletesRunning(b, id);
    ToolCallGoesOn(b, id, callId, name, other);
  }

  /** What else a collision leads to: an effect that is completed while it is running, and that
      no end of the turn settles, though `finalize` returns. The calls are a started effect, a
      reasoning text under its id, which raises, and another tool call. */
  lemma CollisionLeavesRunning(s: State, c: State, id: string, title: string, detail: Detail, text: string, callId: string, name: string, other: Detail, cancelled: bool)
    requires s == Start(s.sessionId, s.turnId, s.preview, s.clock) && id != "" && callId != id
    requires c == ProjectToolCall(ProjectReasoning(StartEffect(s, id, title, detail), Some(id), text, "").(failed := false), callId, name, Some(other))
    ensures var t := Finalize(c, cancelled, None, [], false);
            && !c.failed && !t.failed && !AllSettled(t.ledger)
            && StillRunning(t.ledger, id) && t.ledger.entries[id].body == Effect(title, detail, Running(""))
  {
    MixedUpToolCall(s, id, title, detail, text, callId, name, other);
    ReplaySound(c.trace);
    FinalizeOutcome(c, cancelled, None, [], false);
    RunningAtEnd(c.ledger, Finalize(c, cancelled, None, [], false).ledger, id, cancelled);
  }
}
