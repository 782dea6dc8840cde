/** What each call of the projector does, brought together: links, callbacks, tool calls and
    the end of the turn, and the one statement about every call. */
module ProjectorSteps {
  import opened Wrappers
  import opened History
  import opened Projector
  import opened ProjectorHistory
  import opened ProjectorFinish
  import opened ProjectorCalls
  import opened ProjectorDurations

  // Subagent links.

  /** The filed effect of a subagent, open or not. */
  predicate Subagent(s: State, callId: string) {
    && callId in s.effects && s.effects[callId] in s.ledger.entries
    && s.ledger.entries[s.effects[callId]].body.Effect? && s.ledger.entries[s.effects[callId]].body.detail.Subagent?
  }

  function ChildOf(s: State, callId: string): Option<string>
    requires Subagent(s, callId)
  {
    s.ledger.entries[s.effects[callId]].body.detail.child
  }

  /** The effect has another child, or none; it raises where the effect has completed. */
  ghost predicate SetsChild(s: State, callId: string, child: Option<string>, t: State)
    requires Subagent(s, callId)
  {
    var e := s.ledger.entries[s.effects[callId]];
    && OnlyHistory(s, t)
    && if e.generation.InProgress? then Becomes(s, t, s.effects[callId], e.body.(detail := e.body.detail.(child := child)), InProgress)
       else Raises(s, t)
  }

  lemma SetChildDoes(s: State, callId: string, child: Option<string>)
    requires !s.failed && Sound(s.ledger) && Subagent(s, callId)
    ensures SetsChild(s, callId, child, Patch(s, s.effects[callId], [ReplaceChild(child)]))
  {
    PatchOneDoes(s, s.effects[callId], ReplaceChild(child));
  }

  /** A child is linked once: again does nothing, another raises. */
  ghost predicate Links(s: State, callId: string, child: string, t: State) {
    if !Subagent(s, callId) then OnlyHistory(s, t) && Raises(s, t)
    else if ChildOf(s, callId) == Some(child) then t == s
    else if ChildOf(s, callId).None? then SetsChild(s, callId, Some(child), t)
    else OnlyHistory(s, t) && Raises(s, t)
  }

  /** Only the child that is linked is replaced. */
  ghost predicate Relinks(s: State, callId: string, old_: string, new_: string, t: State) {
    if Subagent(s, callId) && ChildOf(s, callId) == Some(old_) then SetsChild(s, callId, Some(new_), t)
    else OnlyHistory(s, t) && Raises(s, t)
  }

  /** Only the child that is linked is unlinked; where none is, nothing happens. */
  ghost predicate Unlinks(s: State, callId: string, child: string, t: State) {
    if Subagent(s, callId) && ChildOf(s, callId).None? then t == s
    else if Subagent(s, callId) && ChildOf(s, callId) == Some(child) then SetsChild(s, callId, None, t)
    else OnlyHistory(s, t) && Raises(s, t)
  }

  lemma LinkDoes(s: State, callId: string, child: string)
    requires !s.failed && Sound(s.ledger)
    ensures Links(s, callId, child, LinkSubagent(s, callId, child))
  {
    if Subagent(s, callId) { SetChildDoes(s, callId, Some(child)); }
  }

  lemma RelinkDoes(s: State, callId: string, old_: string, new_: string)
    requires !s.failed && Sound(s.ledger)
    ensures Relinks(s, callId, old_, new_, ReplaceSubagent(s, callId, old_, new_))
  {
    if Subagent(s, callId) { SetChildDoes(s, callId, Some(new_)); }
  }

  lemma UnlinkDoes(s: State, callId: string, child: string)
    requires !s.failed && Sound(s.ledger)
    ensures Unlinks(s, callId, child, UnlinkSubagent(s, callId, child))
  {
    if Subagent(s, callId) { SetChildDoes(s, callId, None); }
  }

  // Callbacks.

  /** A running effect gets this state; one that has completed keeps it, or it raises. */
  ghost predicate SetsState(s: State, id: string, state: EffectState, t: State) {
    && OnlyHistory(s, t)
    && if id in s.ledger.entries && s.ledger.entries[id].body.Effect?
          && (s.ledger.entries[id].generation.InProgress? || SameUpToDuration(s.ledger.entries[id].body.state, state)) then
         var e := s.ledger.entries[id];
         Becomes(s, t, id, e.body.(state := state), e.generation)
       else Raises(s, t)
  }

  lemma SetStateDoes(s: State, id: string, state: EffectState)
    requires !s.failed && Sound(s.ledger)
    ensures SetsState(s, id, state, Patch(s, id, [ReplaceEffectState(state)]))
  {
    var op := ReplaceEffectState(state);
    if id !in s.ledger.entries {
      PatchMissing(s, id, [op]);
    } else {
      StateApplies(s.ledger.entries[id], state);
      if s.ledger.entries[id].generation.InProgress? { PatchDoes(s, id, [op]); } else { PatchFrozen(s, id, [op]); }
    }
  }

  lemma StateApplies(e: Entry, state: EffectState)
    ensures var ops := [ReplaceEffectState(state)];
            && ApplyAll(ops, e) == (if e.body.Effect? then Some(e.(body := e.body.(state := state))) else None)
            && (TimingOnly(e, ops) <==> e.body.Effect? && SameUpToDuration(e.body.state, state))
  {
    ApplyOne(ReplaceEffectState(state), e);
    assert [ReplaceEffectState(state)][0] == ReplaceEffectState(state);
  }

  /** Asking files an open callback in progress; the effect it belongs to, if it is there,
      is blocked by it. */
  ghost predicate Asks(s: State, callbackId: string, title: string, request: Json, related: Option<string>, t: State) {
    exists u :: OnlyHistory(s.(callbacks := s.callbacks[callbackId := "callback:" + callbackId]), u)
                && AddsNew(s, u, "callback:" + callbackId, InProgress, related, Callback(callbackId, title, request, Open))
                && if u.failed || related.None? || related.value !in u.ledger.entries then t == u
                   else SetsState(u, related.value, Blocked(callbackId, ""), t)
  }

  lemma AskDoes(s: State, callbackId: string, title: string, request: Json, related: Option<string>)
    requires !s.failed && Sound(s.ledger)
    ensures Asks(s, callbackId, title, request, related, OpenCallback(s, callbackId, title, request, related))
  {
    var id, body := "callback:" + callbackId, Callback(callbackId, title, request, Open);
    var filed := s.(callbacks := s.callbacks[callbackId := id]);
    var u := FileCallback(s, callbackId, title, request, related);
    AddDoes(filed, id, InProgress, related, body, true);
    if !u.failed {
      AddedSound(s, u, id, InProgress, related, body);
      if related.Some? { SetStateDoes(u, related.value, Blocked(callbackId, "")); }
    }
  }

  /** The effect a callback belongs to goes on running, with the output it had while it was
      blocked; a withdrawn callback leaves one alone that is not blocked. */
  ghost predicate Resumes(s: State, related: Option<string>, onlyBlocked: bool, t: State) {
    if related.None? || related.value !in s.ledger.entries || !s.ledger.entries[related.value].body.Effect? then t == s
    else
      var state := s.ledger.entries[related.value].body.state;
      if state.Blocked? then SetsState(s, related.value, Running(state.outputText), t)
      else if onlyBlocked then t == s
      else SetsState(s, related.value, Running(""), t)
  }

  lemma UnblockDoes(s: State, related: Option<string>, onlyBlocked: bool)
    requires !s.failed && Sound(s.ledger)
    ensures Resumes(s, related, onlyBlocked, Unblock(s, related, onlyBlocked))
  {
    if related.Some? && related.value in s.ledger.entries && s.ledger.entries[related.value].body.Effect? {
      var state := s.ledger.entries[related.value].body.state;
      var k := Located(s.ledger, related.value);
      SetStateDoes(s, related.value, Running(if state.Blocked? then state.outputText else ""));
    }
  }

  /** An open callback is completed with its answer, and its effect goes on; a completed one
      takes the answer it has, and no other. */
  ghost predicate Answers(s: State, id: string, answer: CallbackState, onlyBlocked: bool, t: State) {
    if id in s.ledger.entries && s.ledger.entries[id].body.Callback?
       && (s.ledger.entries[id].generation.InProgress? || s.ledger.entries[id].body.answer == answer) then
      var e := s.ledger.entries[id];
      exists u :: OnlyHistory(s, u) && Becomes(s, u, id, e.body.(answer := answer), Completed) && Resumes(u, e.related, onlyBlocked, t)
    else OnlyHistory(s, t) && Raises(s, t)
  }

  lemma SettleDoes(s: State, id: string, answer: CallbackState)
    requires !s.failed && Sound(s.ledger) && id in s.ledger.entries && !answer.Open?
    ensures var e, u := s.ledger.entries[id], SettleCallback(s, id, answer);
            && OnlyHistory(s, u)
            && if e.body.Callback? && (e.generation.InProgress? || e.body.answer == answer)
               then Becomes(s, u, id, e.body.(answer := answer), Completed) else Raises(s, u)
  {
    var e, ops := s.ledger.entries[id], [ReplaceCallbackState(answer), ReplaceGeneration(Completed)];
    ApplyTwo(ops[0], ops[1], e);
    if e.generation.InProgress? {
      PatchDoes(s, id, ops);
    } else {
      assert TimingOnly(e, ops) <==> Replays(e, ops[0]) && Replays(e, ops[1]);
      PatchFrozen(s, id, ops);
    }
  }

  lemma BecomesSound(s: State, t: State, id: string, body: Body, generation: Generation)
    requires Sound(s.ledger) && Becomes(s, t, id, body, generation)
    ensures Sound(t.ledger)
  {
    var k := Located(s.ledger, id);
    assert t.ledger.keys == Ids(t.ledger.history);
    forall i | 0 <= i < |t.ledger.history|
      ensures t.ledger.history[i].id in t.ledger.entries && t.ledger.entries[t.ledger.history[i].id] == t.ledger.history[i]
    {
      assert s.ledger.history[i].id in s.ledger.entries;
    }
  }

  lemma EndCallbackDoes(s: State, id: string, answer: CallbackState, onlyBlocked: bool)
    requires !s.failed && Sound(s.ledger) && !answer.Open?
    ensures Answers(s, id, answer, onlyBlocked, EndCallback(s, id, answer, onlyBlocked))
  {
    if id in s.ledger.entries {
      var e, u := s.ledger.entries[id], SettleCallback(s, id, answer);
      SettleDoes(s, id, answer);
      if !u.failed {
        BecomesSound(s, u, id, e.body.(answer := answer), Completed);
        UnblockDoes(u, e.related, onlyBlocked);
      }
    }
  }

  /** A callback nobody filed is left alone. */
  ghost predicate AnswersFiled(s: State, callbackId: string, answer: CallbackState, t: State) {
    if callbackId !in s.callbacks then t == s else Answers(s, s.callbacks[callbackId], answer, false, t)
  }

  /** Only an open callback is withdrawn; it raises where what is filed is no callback and has
      no state. */
  ghost predicate Withdraws(s: State, callbackId: string, reason: string, t: State) {
    if callbackId !in s.callbacks then t == s
    else
      var id := s.callbacks[callbackId];
      if id !in s.ledger.entries then OnlyHistory(s, t) && Raises(s, t)
      else
        match s.ledger.entries[id].body
        case Callback(_, _, _, Open) => Answers(s, id, Withdrawn(reason), true, t)
        case Callback(_, _, _, _) => t == s
        case Effect(_, _, _) => t == s
        case _ => OnlyHistory(s, t) && Raises(s, t)
  }

  lemma FinishCallbackDoes(s: State, callbackId: string, answer: CallbackState)
    requires !s.failed && Sound(s.ledger) && !answer.Open?
    ensures AnswersFiled(s, callbackId, answer, FinishCallback(s, callbackId, answer))
  {
    if callbackId in s.callbacks { EndCallbackDoes(s, s.callbacks[callbackId], answer, false); }
  }

  lemma CloseDoes(s: State, callbackId: string, reason: string)
    requires !s.failed && Sound(s.ledger)
    ensures Withdraws(s, callbackId, reason, CloseCallback(s, callbackId, reason))
  {
    if callbackId in s.callbacks { EndCallbackDoes(s, s.callbacks[callbackId], Withdrawn(reason), true); }
  }

  // Tool calls.

  /** A text in progress under one of these ids is completed; any other entry stays. */
  predicate TextCompleted(e: Entry, f: Entry, ids: set<string>) {
    if e.id in ids && e.generation.InProgress? then f == e.(generation := Completed, updatedAt := f.updatedAt) else f == e
  }

  predicate TextsCompleted(g: Ledger, h: Ledger, ids: set<string>, from: nat) {
    && h.keys == g.keys && |h.history| == |g.history|
    && (forall i :: 0 <= i < |g.history| && i < from ==> h.history[i] == g.history[i])
    && (forall i :: from <= i < |g.history| ==> TextCompleted(g.history[i], h.history[i], ids))
  }

  predicate OneCompleted(g: Ledger, h: Ledger, ids: set<string>, i: nat) {
    && h.keys == g.keys && i < |h.history| == |g.history| && TextCompleted(g.history[i], h.history[i], ids)
    && forall j :: 0 <= j < |g.history| && j != i ==> h.history[j] == g.history[j]
  }

  lemma CompletedOn(g: Ledger, h: Ledger, k: Ledger, ids: set<string>, i: nat)
    requires OneCompleted(g, h, ids, i) && TextsCompleted(h, k, ids, i + 1)
    ensures TextsCompleted(g, k, ids, i)
  {
  }

  lemma CompleteOneDoes(s: State, ids: set<string>, i: nat)
    requires !s.failed && Sound(s.ledger) && i < |s.ledger.history|
    ensures var u := CompleteAt(s, ids, i);
            !u.failed && OnlyHistory(s, u) && Sound(u.ledger) && OneCompleted(s.ledger, u.ledger, ids, i)
  {
    var e := s.ledger.history[i];
    if e.id in ids && e.generation.InProgress? {
      var u := CompleteAt(s, ids, i);
      ApplyOne(ReplaceGeneration(Completed), e);
      PatchDoes(s, e.id, [ReplaceGeneration(Completed)]);
      BecomesSound(s, u, e.id, e.body, Completed);
      forall j | 0 <= j < |s.ledger.history| && j != i ensures s.ledger.history[j].id != e.id {
        assert s.ledger.keys[j] != s.ledger.keys[i];
      }
    }
  }

  lemma {:induction false} CompleteTextsDoes(s: State, ids: set<string>, i: nat)
    requires !s.failed && Sound(s.ledger)
    ensures var u := CompleteStreamed(s, ids, i);
            !u.failed && OnlyHistory(s, u) && Sound(u.ledger) && TextsCompleted(s.ledger, u.ledger, ids, i)
    decreases |s.ledger.history| - i
  {
    if i < |s.ledger.history| {
      var u := CompleteAt(s, ids, i);
      CompleteOneDoes(s, ids, i);
      CompleteTextsDoes(u, ids, i + 1);
      CompletedOn(s.ledger, u.ledger, CompleteStreamed(u, ids, i + 1).ledger, ids, i);
      assert CompleteStreamed(s, ids, i) == CompleteStreamed(u, ids, i + 1);
    }
  }

  /** A tool call completes the texts streamed so far, and starts its effect; without a
      presentation it raises after that. */
  ghost predicate CallsTool(s: State, callId: string, name: string, presentation: Option<Detail>, t: State) {
    exists u :: OnlyHistory(s, u) && !u.failed && TextsCompleted(s.ledger, u.ledger, s.assistant.Values + s.reasoning.Values, 0)
                && if presentation.Some? then StartsEffect(u, callId, name, presentation.value, t) else Raises(u, t) && OnlyHistory(u, t)
  }

  lemma ToolCallDoes(s: State, callId: string, name: string, presentation: Option<Detail>)
    requires !s.failed && Sound(s.ledger)
    ensures CallsTool(s, callId, name, presentation, ProjectToolCall(s, callId, name, presentation))
  {
    var ids := s.assistant.Values + s.reasoning.Values;
    var u := CompleteStreamed(s, ids, 0);
    CompleteTextsDoes(s, ids, 0);
    if presentation.Some? { StartDoes(u, callId, name, presentation.value); }
  }

  // Any call.

  ghost predicate ProjectsEvent(s: State, event: Event, t: State) {
    match event
    case UserMessage(id, content, summary, rest) => AddsUserMessage(s, id, content, summary, rest, t)
    case AssistantText(id, text, uuid, rest) => AddsAssistantText(s, id, text, uuid, rest, t)
    case ReasoningText(id, text, uuid) => AddsReasoning(s, id, text, uuid, t)
    case ToolCall(id, name, presentation) => CallsTool(s, id, name, presentation, t)
    case ToolStream(id, text) => AppendsOutput(s, id, text, t)
    case ToolResult(id, name, generic, outcome) => EndsByResult(s, id, name, generic, outcome, t)
    case CompactStart(id, details) =>
      OnlyHistory(s.(checkpoints := s.checkpoints[id := id]), t)
      && AddsNew(s, t, id, InProgress, None, Checkpoint("compaction", Some("Compacting context"), details))
    case CompactEnd(id, details) => EndsCompaction(s, id, details, t)
    case Notified(id, notice) => AddsNew(s, t, id, Completed, None, Notice(notice)) && OnlyHistory(s, t)
    case TitleUpdated(id, notice, title) => Retitles(s, id, notice, title, t)
    case Ignored => t == s
  }

  /** What a call does to the projector it finds, raising or not. */
  ghost predicate Does(s: State, call: Call, t: State) {
    match call
    case Project(event) => ProjectsEvent(s, event, t)
    case Link(id, child) => Links(s, id, child, t)
    case Relink(id, old_, new_) => Relinks(s, id, old_, new_, t)
    case Unlink(id, child) => Unlinks(s, id, child, t)
    case Begin(id, title, detail) => StartsEffect(s, id, title, detail, t)
    case Note(id, notice) => AddsNew(s, t, id, Completed, None, Notice(notice)) && OnlyHistory(s, t)
    case Append(id, text) => AppendsOutput(s, id, text, t)
    case Complete(id, state) => CompletesEffect(s, id, state, t)
    case Ask(id, title, request, related) => Asks(s, id, title, request, related, t)
    case Resolve(id, output) => AnswersFiled(s, id, Answered(output), t)
    case Expire(id, reason) => AnswersFiled(s, id, Expired(reason), t)
    case Close(id, reason) => Withdraws(s, id, reason, t)
    case Finish(cancelled, timing, ms, replay) =>
      && (t.failed <==> Misplaced(s, timing, replay))
      && (!t.failed ==> OnlyHistory(s, t) && TurnEndsWith(s, t.ledger, cancelled, timing, ms, replay))
  }

  lemma EventDoes(s: State, event: Event)
    requires !s.failed && Sound(s.ledger)
    ensures ProjectsEvent(s, event, ProjectEvent(s, event))
  {
    match event
    case UserMessage(id, content, summary, rest) => UserMessageDoes(s, id, content, summary, rest);
    case AssistantText(id, text, uuid, rest) => AssistantDoes(s, id, text, uuid, rest);
    case ReasoningText(id, text, uuid) => ReasoningDoes(s, id, text, uuid);
    case ToolCall(id, name, presentation) => ToolCallDoes(s, id, name, presentation);
    case ToolStream(id, text) => AppendDoes(s, id, text);
    case ToolResult(id, name, generic, outcome) => ResultDoes(s, id, name, generic, outcome);
    case CompactStart(id, details) =>
      AddDoes(s.(checkpoints := s.checkpoints[id := id]), id, InProgress, None, Checkpoint("compaction", Some("Compacting context"), details), true);
    case CompactEnd(id, details) => CompactionDoes(s, id, details);
    case Notified(id, notice) => AddDoes(s, id, Completed, None, Notice(notice), true);
    case TitleUpdated(id, notice, title) => TitleDoes(s, id, notice, title);
    case Ignored =>
  }

  lemma EffectStepDoes(s: State, call: Call)
    requires !s.failed && Sound(s.ledger) && OfEffect(call)
    ensures Does(s, call, EffectStep(s, call))
  {
    match call
    case Link(id, child) => LinkDoes(s, id, child);
    case Relink(id, old_, new_) => RelinkDoes(s, id, old_, new_);
    case Unlink(id, child) => UnlinkDoes(s, id, child);
    case Begin(id, title, detail) => StartDoes(s, id, title, detail);
    case Append(id, text) => AppendDoes(s, id, text);
    case Complete(id, state) => CompleteDoes(s, id, state);
  }

  lemma CallbackStepDoes(s: State, call: Call)
    requires !s.failed && Sound(s.ledger) && OfCallback(call)
    ensures Does(s, call, CallbackStep(s, call))
  {
    match call
    case Ask(id, title, request, related) => AskDoes(s, id, title, request, related);
    case Resolve(id, output) => FinishCallbackDoes(s, id, Answered(output));
    case Expire(id, reason) => FinishCallbackDoes(s, id, Expired(reason));
    case Close(id, reason) => CloseDoes(s, id, reason);
  }

  lemma FinishDoes(s: State, cancelled: bool, timing: Option<Timing>, ms: seq<ToolTiming>, replay: bool)
    requires !s.failed && Sound(s.ledger)
    ensures Does(s, Finish(cancelled, timing, ms, replay), Finalize(s, cancelled, timing, ms, replay))
  {
    FinalizeOutcome(s, cancelled, timing, ms, replay);
    if !Misplaced(s, timing, replay) { FinalizeExactly(s, cancelled, timing, ms, replay); }
  }

  /** Every call, from any history in which list and dictionary agree, does what is said of it
      above, and raises exactly where that says so. */
  lemma StepDoes(s: State, call: Call)
    requires Sound(s.ledger)
    ensures Does(s.(failed := false), call, Step(s, call))
  {
    var u := s.(failed := false);
    if call.Project? {
      EventDoes(u, call.event);
    } else if OfCallback(call) {
      CallbackStepDoes(u, call);
    } else if OfEffect(call) {
      EffectStepDoes(u, call);
    } else {
      match call
      case Note(id, notice) => AddDoes(u, id, Completed, None, Notice(notice), true);
      case Finish(cancelled, timing, ms, replay) => FinishDoes(u, cancelled, timing, ms, replay);
    }
  }

  /** The effect with this entry has completed as the result says, with what it had streamed. */
  ghost predicate EndedBy(state: EffectState, outcome: ToolOutcome, t: State, id: string) {
    && id in t.ledger.entries && t.ledger.entries[id].generation.Completed? && t.ledger.entries[id].body.Effect?
    && exists text :: Streamed(state, text) && EndsAs(outcome, text, t.ledger.entries[id].body.state)
  }

  lemma FiledEnds(s: State, callId: string, outcome: ToolOutcome, t: State)
    requires EndsFiled(s, callId, outcome, t) && !t.failed
    ensures callId in s.effects && s.effects[callId] in s.ledger.entries && s.ledger.entries[s.effects[callId]].body.Effect?
    ensures EndedBy(s.ledger.entries[s.effects[callId]].body.state, outcome, t, s.effects[callId])
  {
  }

  /** Where a tool result returns, its effect has completed in the state the result says, with
      what was streamed before; one that nothing announced had streamed nothing. */
  lemma ResultEnds(s: State, callId: string, name: string, generic: Json, outcome: ToolOutcome)
    requires Sound(s.ledger) && !s.failed && !ProjectToolResult(s, callId, name, generic, outcome).failed
    ensures var t := ProjectToolResult(s, callId, name, generic, outcome);
            if callId in s.effects then
              && s.effects[callId] in s.ledger.entries && s.ledger.entries[s.effects[callId]].body.Effect?
              && EndedBy(s.ledger.entries[s.effects[callId]].body.state, outcome, t, s.effects[callId])
            else EndedBy(Running(""), outcome, t, callId)
  {
    var t := ProjectToolResult(s, callId, name, generic, outcome);
    ResultDoes(s, callId, name, generic, outcome);
    if callId in s.effects {
      FiledEnds(s, callId, outcome, t);
    } else {
      var u :| OnlyHistory(s.(effects := s.effects[callId := callId]), u)
               && AddsNew(s, u, callId, InProgress, None, Effect(name, OtherDetail(generic), Running("")))
               && if u.failed then t == u else EndsFiled(u, callId, outcome, t);
      FiledEnds(u, callId, outcome, t);
    }
  }
}
