/** What each call of the projector does to the history: which entry it adds or changes, to
    what, and when it raises. */
module ProjectorCalls {
  import opened Wrappers
  import opened History
  import opened Projector
  import opened ProjectorHistory
  import opened ProjectorFinish

  // One entry added, one entry changed.

  /** Everything but the history and the record of updates is the same. */
  ghost predicate OnlyHistory(s: State, t: State) {
    t == s.(ledger := t.ledger, ticks := t.ticks, trace := t.trace, failed := t.failed)
  }

  predicate Raises(s: State, t: State) {
    t.failed && t.ledger == s.ledger
  }

  /** A new entry of this session and turn at the end of the history; it raises where the id
      is taken. */
  predicate AddsNew(s: State, t: State, id: string, generation: Generation, related: Option<string>, body: Body) {
    if id in s.ledger.entries then Raises(s, t)
    else
      var now := s.clock(s.ticks);
      var e := Entry(id, s.sessionId, s.turnId, now, now, generation, related, body);
      !t.failed && t.ledger == Ledger(s.ledger.history + [e], s.ledger.entries[id := e], s.ledger.keys + [id])
  }

  /** One entry has a new body and generation, and is otherwise what and where it was; no other
      entry is touched. */
  predicate Becomes(s: State, t: State, id: string, body: Body, generation: Generation) {
    && !t.failed && id in s.ledger.entries && id in t.ledger.entries
    && t.ledger.entries[id] == s.ledger.entries[id].(body := body, generation := generation, updatedAt := t.ledger.entries[id].updatedAt)
    && StampedAt(s.ledger.entries[id], t.ledger.entries[id], s.clock(s.ticks))
    && Changes(s.ledger, t.ledger, id)
  }

  /** The entry bears the time of the call, unless nothing but a duration has changed. */
  predicate StampedAt(e: Entry, f: Entry, now: int) {
    f.updatedAt == now || Frozen(e, f)
  }

  predicate Changes(g: Ledger, h: Ledger, id: string)
    requires id in h.entries
  {
    && h.keys == g.keys && h.entries == g.entries[id := h.entries[id]]
    && |h.history| == |g.history|
    && forall i :: 0 <= i < |g.history| ==> h.history[i] == if g.history[i].id == id then h.entries[id] else g.history[i]
  }

  lemma AddDoes(s: State, id: string, generation: Generation, related: Option<string>, body: Body, announced: bool)
    requires !s.failed
    ensures var t := AddNew(s, id, generation, related, body, announced);
            AddsNew(s, t, id, generation, related, body) && OnlyHistory(s, t)
  {
  }

  lemma RewriteChanges(g: Ledger, id: string, e: Entry)
    requires Sound(g) && id in g.entries && e.id == id
    ensures Changes(g, Rewrite(g, id, e), id)
  {
    var k := Located(g, id);
    forall i | 0 <= i < |g.history| && i != k ensures g.history[i].id != id { assert g.keys[i] != g.keys[k]; }
  }

  lemma {:induction false} ApplyAllThen(ops: seq<Op>, op: Op, e: Entry)
    ensures ApplyAll(ops + [op], e) == match ApplyAll(ops, e) case None => None case Some(f) => Apply(op, f)
    decreases |ops|
  {
    if |ops| == 0 {
      assert ops + [op] == [op] && [op][1..] == [];
    } else {
      assert (ops + [op])[0] == ops[0] && (ops + [op])[1..] == ops[1..] + [op];
      if Apply(ops[0], e).Some? { ApplyAllThen(ops[1..], op, Apply(ops[0], e).value); }
    }
  }

  /** What a patch makes of an entry in progress: what its operations do. */
  lemma PatchDoes(s: State, id: string, ops: seq<Op>)
    requires !s.failed && Sound(s.ledger) && id in s.ledger.entries && s.ledger.entries[id].generation.InProgress?
    ensures var t := Patch(s, id, ops);
            && OnlyHistory(s, t)
            && match ApplyAll(ops, s.ledger.entries[id])
               case None => Raises(s, t)
               case Some(f) => Becomes(s, t, id, f.body, f.generation)
  {
    var e, now := s.ledger.entries[id], s.clock(s.ticks);
    var next := Revise(e, Stamped(e, ops, now));
    PatchSteps(s, id, ops);
    StampedDoes(e, ops, now);
    if next.Some? {
      var k := Located(s.ledger, id);
      RewriteChanges(s.ledger, id, next.value);
    }
  }

  /** What a patch with its stamp makes of an entry in progress. */
  lemma StampedDoes(e: Entry, ops: seq<Op>, now: int)
    requires e.generation.InProgress?
    ensures match ApplyAll(ops, e)
            case None => Revise(e, Stamped(e, ops, now)).None?
            case Some(f) =>
              var next := Revise(e, Stamped(e, ops, now));
              next.Some? && StampedAt(e, next.value, now)
              && next.value == e.(body := f.body, generation := f.generation, updatedAt := next.value.updatedAt)
  {
    ApplyAllThen(ops, ReplaceUpdatedAt(now), e);
    if TimingOnly(e, ops) { TimingOnlyFreezes(e, ops); }
    if ApplyAll(ops, e).Some? { ApplyAllKeeps(ops, e); }
  }

  lemma {:induction false} ApplyAllKeeps(ops: seq<Op>, e: Entry)
    requires ApplyAll(ops, e).Some?
    ensures var f := ApplyAll(ops, e).value;
            f == e.(body := f.body, generation := f.generation, updatedAt := f.updatedAt)
    decreases |ops|
  {
    if |ops| > 0 { ApplyAllKeeps(ops[1..], Apply(ops[0], e).value); }
  }

  /** A completed entry takes what it already holds, durations aside, and nothing else. */
  lemma PatchFrozen(s: State, id: string, ops: seq<Op>)
    requires !s.failed && Sound(s.ledger) && id in s.ledger.entries && s.ledger.entries[id].generation.Completed?
    ensures var t := Patch(s, id, ops);
            && OnlyHistory(s, t)
            && if TimingOnly(s.ledger.entries[id], ops) then
                 ApplyAll(ops, s.ledger.entries[id]).Some? && Becomes(s, t, id, ApplyAll(ops, s.ledger.entries[id]).value.body, Completed)
               else Raises(s, t)
  {
    var e, now := s.ledger.entries[id], s.clock(s.ticks);
    PatchSteps(s, id, ops);
    StampedAlike(e, ops, now);
    if TimingOnly(e, ops) {
      TimingOnlyFreezes(e, ops);
      var k := Located(s.ledger, id);
      RewriteChanges(s.ledger, id, ApplyAll(ops, e).value);
    }
  }

  lemma PatchMissing(s: State, id: string, ops: seq<Op>)
    requires !s.failed && id !in s.ledger.entries
    ensures Raises(s, Patch(s, id, ops)) && OnlyHistory(s, Patch(s, id, ops))
  {
  }

  /** A patch of one operation that no completed entry takes. */
  lemma PatchOneDoes(s: State, id: string, op: Op)
    requires !s.failed && Sound(s.ledger)
    requires !op.ReplaceGeneration? && !op.ReplaceEffectState? && !op.ReplaceCallbackState? && !op.SetTurnDuration? && !op.SetEffectDuration?
    ensures var t := Patch(s, id, [op]);
            && OnlyHistory(s, t)
            && if id in s.ledger.entries && s.ledger.entries[id].generation.InProgress? && Apply(op, s.ledger.entries[id]).Some?
               then Becomes(s, t, id, Apply(op, s.ledger.entries[id]).value.body, InProgress)
               else Raises(s, t)
  {
    if id !in s.ledger.entries {
      PatchMissing(s, id, [op]);
    } else if s.ledger.entries[id].generation.InProgress? {
      ApplyOne(op, s.ledger.entries[id]);
      PatchDoes(s, id, [op]);
    } else {
      assert !Replays(s.ledger.entries[id], [op][0]);
      PatchFrozen(s, id, [op]);
    }
  }

  // Effects.

  /** The effect filed under an id that can still change, if there is one. */
  predicate OpenEffect(s: State, files: map<string, string>, callId: string) {
    && callId in files && files[callId] in s.ledger.entries
    && s.ledger.entries[files[callId]].generation.InProgress? && s.ledger.entries[files[callId]].body.Effect?
  }

  function Named(s: State, files: map<string, string>, callId: string): Entry
    requires callId in files && files[callId] in s.ledger.entries
  {
    s.ledger.entries[files[callId]]
  }

  /** An effect that is filed gets the new detail, if it is open; another is added, running. */
  ghost predicate StartsEffect(s: State, id: string, title: string, detail: Detail, t: State) {
    if id in s.effects && s.effects[id] != "" then
      && OnlyHistory(s, t)
      && if OpenEffect(s, s.effects, id) then
           var body := s.ledger.entries[s.effects[id]].body;
           Becomes(s, t, s.effects[id], body.(detail := detail), InProgress)
         else Raises(s, t)
    else
      && OnlyHistory(s.(effects := s.effects[id := id]), t)
      && AddsNew(s, t, id, InProgress, None, Effect(title, detail, Running("")))
  }

  lemma StartDoes(s: State, id: string, title: string, detail: Detail)
    requires !s.failed && Sound(s.ledger)
    ensures StartsEffect(s, id, title, detail, StartEffect(s, id, title, detail))
  {
    if Known(s.effects, id) {
      PatchOneDoes(s, s.effects[id], ReplaceDetail(detail));
    } else {
      AddDoes(s.(effects := s.effects[id := id]), id, InProgress, None, Effect(title, detail, Running("")), true);
    }
  }

  /** Output is appended to an open effect whose state has any; otherwise it raises. */
  ghost predicate AppendsOutput(s: State, id: string, text: string, t: State) {
    && OnlyHistory(s, t)
    && if OpenEffect(s, s.effects, id) && !Named(s, s.effects, id).body.state.Pending? && !Named(s, s.effects, id).body.state.Skipped? then
         var body := Named(s, s.effects, id).body;
         Becomes(s, t, s.effects[id], body.(state := body.state.(outputText := body.state.outputText + text)), InProgress)
       else Raises(s, t)
  }

  lemma AppendDoes(s: State, id: string, text: string)
    requires !s.failed && Sound(s.ledger)
    ensures AppendsOutput(s, id, text, AppendEffectOutput(s, id, text))
  {
    if id in s.effects {
      PatchOneDoes(s, s.effects[id], AppendOutput(text));
      if s.effects[id] in s.ledger.entries { OutputApplies(s.ledger.entries[s.effects[id]], text); }
    }
  }

  lemma OutputApplies(e: Entry, text: string)
    ensures Apply(AppendOutput(text), e) ==
      if e.body.Effect? && !e.body.state.Pending? && !e.body.state.Skipped?
      then Some(e.(body := e.body.(state := e.body.state.(outputText := e.body.state.outputText + text)))) else None
  {
  }

  /** Two states that differ at most in a duration both have. */
  predicate SameUpToDuration(a: EffectState, b: EffectState) {
    match a
    case Succeeded(output, outputText, _, display) => b.Succeeded? && b.output == output && b.outputText == outputText && b.display == display
    case Failed(error, output, outputText, _, display) =>
      b.Failed? && b.error == error && b.output == output && b.outputText == outputText && b.display == display
    case Cancelled(reason, outputText, _, display) => b.Cancelled? && b.reason == reason && b.outputText == outputText && b.display == display
    case _ => a == b
  }

  /** An open effect is completed in the state given; one that is completed takes that state
      again, with its duration, and no other. */
  ghost predicate CompletesEffect(s: State, id: string, state: EffectState, t: State) {
    && OnlyHistory(s, t)
    && if OpenEffect(s, s.effects, id) || CompletedAlike(s, id, state) then
         var body := s.ledger.entries[s.effects[id]].body;
         Becomes(s, t, s.effects[id], body.(state := state), Completed)
       else Raises(s, t)
  }

  predicate CompletedAlike(s: State, id: string, state: EffectState) {
    && id in s.effects && s.effects[id] in s.ledger.entries && Named(s, s.effects, id).generation.Completed?
    && Named(s, s.effects, id).body.Effect? && SameUpToDuration(Named(s, s.effects, id).body.state, state)
  }

  lemma ReplaysExactly(e: Entry, state: EffectState)
    requires e.generation.Completed?
    ensures var ops := [ReplaceEffectState(state), ReplaceGeneration(Completed)];
            TimingOnly(e, ops) <==> e.body.Effect? && SameUpToDuration(e.body.state, state)
  {
    var ops := [ReplaceEffectState(state), ReplaceGeneration(Completed)];
    assert ops[0] == ReplaceEffectState(state) && Replays(e, ops[1]);
  }

  lemma CompleteDoes(s: State, id: string, state: EffectState)
    requires !s.failed && Sound(s.ledger)
    ensures CompletesEffect(s, id, state, CompleteEffect(s, id, state))
  {
    if id in s.effects { CompletionDoes(s, s.effects[id], state); }
  }

  lemma CompletionDoes(s: State, id: string, state: EffectState)
    requires !s.failed && Sound(s.ledger)
    ensures var t := Patch(s, id, [ReplaceEffectState(state), ReplaceGeneration(Completed)]);
            && OnlyHistory(s, t)
            && if id in s.ledger.entries && s.ledger.entries[id].body.Effect?
                  && (s.ledger.entries[id].generation.InProgress? || SameUpToDuration(s.ledger.entries[id].body.state, state)) then
                 var body := s.ledger.entries[id].body;
                 Becomes(s, t, id, body.(state := state), Completed)
               else Raises(s, t)
  {
    var ops := [ReplaceEffectState(state), ReplaceGeneration(Completed)];
    if id !in s.ledger.entries {
      PatchMissing(s, id, ops);
    } else {
      var e := s.ledger.entries[id];
      CompletionApplies(e, state);
      if e.generation.InProgress? {
        PatchDoes(s, id, ops);
      } else {
        ReplaysExactly(e, state);
        PatchFrozen(s, id, ops);
      }
    }
  }

  lemma CompletionApplies(e: Entry, state: EffectState)
    ensures ApplyAll([ReplaceEffectState(state), ReplaceGeneration(Completed)], e) ==
      if e.body.Effect? then Some(e.(body := e.body.(state := state), generation := Completed)) else None
  {
    ApplyTwo(ReplaceEffectState(state), ReplaceGeneration(Completed), e);
  }

  // Results.

  /** Milliseconds, where there are seconds. */
  predicate InMilliseconds(ms: Option<real>, seconds: Option<real>) {
    if seconds.None? then ms.None? else ms == Some(1000.0 * seconds.value)
  }

  function OrElse(text: string, default: string): string {
    if |text| > 0 then text else default
  }

  /** The state a tool result leaves its effect in: cancelled, skipped, failed or succeeded as
      the result was, with the reason it gives or the usual one, its error or its output, and
      the text streamed so far; the transcript stands in where nothing was streamed. */
  predicate EndsAs(outcome: ToolOutcome, streamed: string, state: EffectState) {
    match outcome
    case WasCancelled(error, duration, display) =>
      state.Cancelled? && state.reason == OrElse(error, "Cancelled") && state.outputText == streamed
      && InMilliseconds(state.duration, duration) && state.display == display
    case WasSkipped(reason, display) => state.Skipped? && state.reason == OrElse(reason, "Skipped") && state.display == display
    case WasError(error, duration, display) =>
      state.Failed? && state.error == error && state.output == "null" && state.outputText == streamed
      && InMilliseconds(state.duration, duration) && state.display == display
    case WasSuccess(output, transcript, duration, display) =>
      state.Succeeded? && state.output == output && state.outputText == OrElse(streamed, transcript)
      && InMilliseconds(state.duration, duration) && state.display == display
    case Unpresentable => false
  }

  /** What has been streamed of an effect that is under way. */
  predicate Streamed(state: EffectState, text: string) {
    match state
    case Running(output) => text == output
    case Blocked(_, output) => text == output
    case _ => text == ""
  }

  /** The result of a filed effect completes it; it raises without an effect to complete,
      without a presentation, or where the effect has completed otherwise. */
  ghost predicate EndsFiled(s: State, callId: string, outcome: ToolOutcome, t: State) {
    if callId in s.effects && s.effects[callId] in s.ledger.entries && Named(s, s.effects, callId).body.Effect? && !outcome.Unpresentable? then
      exists state, text :: Streamed(Named(s, s.effects, callId).body.state, text) && EndsAs(outcome, text, state)
                            && CompletesEffect(s, callId, state, t)
    else OnlyHistory(s, t) && Raises(s, t)
  }

  lemma EndDoes(s: State, callId: string, outcome: ToolOutcome)
    requires !s.failed && Sound(s.ledger)
    ensures EndsFiled(s, callId, outcome, EndEffect(s, callId, outcome))
  {
    match Ending(s, callId, outcome)
    case None =>
    case Some(state) =>
      CompleteDoes(s, callId, state);
      assert Streamed(Named(s, s.effects, callId).body.state, OutputText(Named(s, s.effects, callId).body.state));
      assert EndsAs(outcome, OutputText(Named(s, s.effects, callId).body.state), state);
  }

  /** The effect of a result that nothing announced is added first, running and without output. */
  ghost predicate EndsByResult(s: State, callId: string, name: string, generic: Json, outcome: ToolOutcome, t: State) {
    if callId in s.effects then EndsFiled(s, callId, outcome, t)
    else exists u :: OnlyHistory(s.(effects := s.effects[callId := callId]), u)
                     && AddsNew(s, u, callId, InProgress, None, Effect(name, OtherDetail(generic), Running("")))
                     && if u.failed then t == u else EndsFiled(u, callId, outcome, t)
  }

  lemma ResultDoes(s: State, callId: string, name: string, generic: Json, outcome: ToolOutcome)
    requires !s.failed && Sound(s.ledger)
    ensures EndsByResult(s, callId, name, generic, outcome, ProjectToolResult(s, callId, name, generic, outcome))
  {
    if callId in s.effects {
      EndDoes(s, callId, outcome);
    } else {
      var filed, body := s.(effects := s.effects[callId := callId]), Effect(name, OtherDetail(generic), Running(""));
      var u := AddNew(filed, callId, InProgress, None, body, true);
      AddDoes(filed, callId, InProgress, None, body, true);
      if !u.failed {
        AddedSound(s, u, callId, InProgress, None, body);
        EndDoes(u, callId, outcome);
      }
    }
  }

  lemma AddedSound(s: State, t: State, id: string, generation: Generation, related: Option<string>, body: Body)
    requires Sound(s.ledger) && AddsNew(s, t, id, generation, related, body) && !t.failed
    ensures Sound(t.ledger)
  {
    var now := s.clock(s.ticks);
    InsertSound(s.ledger, Entry(id, s.sessionId, s.turnId, now, now, generation, related, body));
  }

  // Messages and notices.

  /** The first 160 characters, or all of a shorter text. */
  predicate Shortened(text: string, preview: string) {
    preview <= text && (|preview| == 160 || (|text| < 160 && preview == text))
  }

  /** A user message is added; the first that has something to show names the session. */
  ghost predicate AddsUserMessage(s: State, id: string, content: seq<Block>, summary: string, rest: Json, t: State) {
    && AddsNew(s, t, id, Completed, None, Message(User, content, None, rest))
    && OnlyHistory(s.(preview := t.preview), t)
    && if t.failed || s.preview != "" || summary == "" then t.preview == s.preview
       else Shortened(summary, t.preview) && |t.trace| > 0 && t.trace[|t.trace| - 1] == SessionPatched("/preview", t.preview)
  }

  lemma UserMessageDoes(s: State, id: string, content: seq<Block>, summary: string, rest: Json)
    requires !s.failed && Sound(s.ledger)
    ensures AddsUserMessage(s, id, content, summary, rest, ProjectUserMessage(s, id, content, summary, rest))
  {
    AddDoes(s, id, Completed, None, Message(User, content, None, rest), true);
    PreviewDoes(AddNew(s, id, Completed, None, Message(User, content, None, rest), true), summary);
  }

  lemma PreviewDoes(s: State, summary: string)
    ensures var t := Preview(s, summary);
            && s.trace <= t.trace && t == s.(preview := t.preview, trace := t.trace)
            && if s.failed || s.preview != "" || summary == "" then t == s
               else Shortened(summary, t.preview) && t.trace == s.trace + [SessionPatched("/preview", t.preview)]
  {
  }

  /** A text in progress that more can be appended to. */
  predicate OpenMessage(s: State, id: string) {
    && id in s.ledger.entries && s.ledger.entries[id].generation.InProgress? && s.ledger.entries[id].body.Message?
    && |s.ledger.entries[id].body.content| > 0 && s.ledger.entries[id].body.content[0].Text?
  }

  /** The identifier, or where there is none the other. */
  function PickOr(id: Option<string>, other: string): string {
    if id.Some? && |id.value| > 0 then id.value else other
  }

  /** More text goes to the end of a message's first block, if the message is open. */
  ghost predicate ExtendsMessage(s: State, id: string, text: string, t: State) {
    && OnlyHistory(s, t)
    && if OpenMessage(s, id) then
         var body := s.ledger.entries[id].body;
         Becomes(s, t, id, body.(content := [Text(body.content[0].text + text)] + body.content[1..]), InProgress)
       else Raises(s, t)
  }

  /** What appending to a message's first block comes to. */
  lemma ContentApplies(e: Entry, text: string)
    ensures Apply(AppendContent(text), e) ==
      if e.body.Message? && |e.body.content| > 0 && e.body.content[0].Text?
      then Some(e.(body := e.body.(content := [Text(e.body.content[0].text + text)] + e.body.content[1..]))) else None
  {
    if e.body.Message? && |e.body.content| > 0 && e.body.content[0].Text? {
      var content := e.body.content;
      assert content[0 := Text(content[0].text + text)] == [Text(content[0].text + text)] + content[1..];
    }
  }

  lemma ExtendMessageDoes(s: State, id: string, text: string)
    requires !s.failed && Sound(s.ledger)
    ensures ExtendsMessage(s, id, text, Patch(s, id, [AppendContent(text)]))
  {
    var t := Patch(s, id, [AppendContent(text)]);
    PatchOneDoes(s, id, AppendContent(text));
    if id in s.ledger.entries { ContentApplies(s.ledger.entries[id], text); }
    assert OnlyHistory(s, t);
  }

  /** An assistant's text goes to the message filed for it, or is a new message, in progress. */
  ghost predicate AddsAssistantText(s: State, messageId: Option<string>, text: string, uuid: string, rest: Json, t: State) {
    var key := PickOr(messageId, "assistant");
    if key in s.assistant && s.assistant[key] != "" then ExtendsMessage(s, s.assistant[key], text, t)
    else
      && OnlyHistory(s.(assistant := s.assistant[key := PickOr(messageId, uuid)]), t)
      && AddsNew(s, t, PickOr(messageId, uuid), InProgress, None, Message(Assistant, [Text(text)], None, rest))
  }

  lemma AssistantDoes(s: State, messageId: Option<string>, text: string, uuid: string, rest: Json)
    requires !s.failed && Sound(s.ledger)
    ensures AddsAssistantText(s, messageId, text, uuid, rest, ProjectAssistant(s, messageId, text, uuid, rest))
  {
    var key, id := PickOr(messageId, "assistant"), PickOr(messageId, uuid);
    if Known(s.assistant, key) {
      ExtendMessageDoes(s, s.assistant[key], text);
    } else {
      AddDoes(s.(assistant := s.assistant[key := id]), id, InProgress, None, Message(Assistant, [Text(text)], None, rest), true);
    }
  }

  ghost predicate ExtendsReasoning(s: State, id: string, text: string, t: State) {
    && OnlyHistory(s, t)
    && if id in s.ledger.entries && s.ledger.entries[id].generation.InProgress? && s.ledger.entries[id].body.Reasoning?
       then Becomes(s, t, id, Reasoning(s.ledger.entries[id].body.text + text), InProgress)
       else Raises(s, t)
  }

  lemma ExtendReasoningDoes(s: State, id: string, text: string)
    requires !s.failed && Sound(s.ledger)
    ensures ExtendsReasoning(s, id, text, Patch(s, id, [AppendText(text)]))
  {
    var t := Patch(s, id, [AppendText(text)]);
    PatchOneDoes(s, id, AppendText(text));
    if id in s.ledger.entries { TextApplies(s.ledger.entries[id], text); }
    assert OnlyHistory(s, t);
  }

  lemma TextApplies(e: Entry, text: string)
    ensures Apply(AppendText(text), e) == if e.body.Reasoning? then Some(e.(body := Reasoning(e.body.text + text))) else None
  {
  }

  ghost predicate AddsReasoning(s: State, messageId: Option<string>, text: string, uuid: string, t: State) {
    var key := PickOr(messageId, "reasoning");
    if key in s.reasoning && s.reasoning[key] != "" then ExtendsReasoning(s, s.reasoning[key], text, t)
    else
      && OnlyHistory(s.(reasoning := s.reasoning[key := PickOr(messageId, uuid)]), t)
      && AddsNew(s, t, PickOr(messageId, uuid), InProgress, None, Reasoning(text))
  }

  lemma ReasoningDoes(s: State, messageId: Option<string>, text: string, uuid: string)
    requires !s.failed && Sound(s.ledger)
    ensures AddsReasoning(s, messageId, text, uuid, ProjectReasoning(s, messageId, text, uuid))
  {
    var key, id := PickOr(messageId, "reasoning"), PickOr(messageId, uuid);
    if Known(s.reasoning, key) {
      ExtendReasoningDoes(s, s.reasoning[key], text);
    } else {
      AddDoes(s.(reasoning := s.reasoning[key := id]), id, InProgress, None, Reasoning(text), true);
    }
  }

  /** A new title is a notice, and an update of the session. */
  ghost predicate Retitles(s: State, id: string, notice: Json, title: string, t: State) {
    && AddsNew(s, t, id, Completed, None, Notice(notice)) && OnlyHistory(s, t)
    && (!t.failed ==> |t.trace| > 0 && t.trace[|t.trace| - 1] == SessionPatched("/title", title))
  }

  lemma TitleDoes(s: State, id: string, notice: Json, title: string)
    requires !s.failed
    ensures Retitles(s, id, notice, title, Emit(AddNotice(s, id, notice), SessionPatched("/title", title)))
  {
    AddDoes(s, id, Completed, None, Notice(notice), true);
  }

  // Compactions.

  /** A compaction end completes the checkpoint it is filed for, or else its own; that one is
      added first if it is not there. It raises where that is no checkpoint in progress. */
  ghost predicate EndsCompaction(s: State, callId: string, details: Json, t: State) {
    var id := if callId in s.checkpoints then s.checkpoints[callId] else callId;
    if id in s.ledger.entries then CompletesCheckpoint(s, id, details, t)
    else exists u :: OnlyHistory(s.(checkpoints := s.checkpoints[callId := id]), u)
                     && AddsNew(s, u, id, InProgress, None, Checkpoint("compaction", None, "null"))
                     && CompletesCheckpoint(u, id, details, t)
  }

  ghost predicate CompletesCheckpoint(s: State, id: string, details: Json, t: State) {
    && OnlyHistory(s, t)
    && if id in s.ledger.entries && s.ledger.entries[id].generation.InProgress? && s.ledger.entries[id].body.Checkpoint?
       then Becomes(s, t, id, Checkpoint(s.ledger.entries[id].body.kind, Some("Context compacted"), details), Completed)
       else Raises(s, t)
  }

  lemma CheckpointApplies(e: Entry, details: Json)
    ensures ApplyAll(CompactionOps(details), e) ==
      if e.body.Checkpoint? then Some(e.(body := Checkpoint(e.body.kind, Some("Context compacted"), details), generation := Completed)) else None
  {
    var ops := CompactionOps(details);
    ApplyThree(ops[0], ops[1], ops[2], e);
    if e.body.Checkpoint? { ApplyTwo(ops[1], ops[2], Apply(ops[0], e).value); }
  }

  lemma CheckpointDoes(s: State, id: string, details: Json)
    requires !s.failed && Sound(s.ledger) && id in s.ledger.entries
    ensures CompletesCheckpoint(s, id, details, Patch(s, id, CompactionOps(details)))
  {
    var e, ops := s.ledger.entries[id], CompactionOps(details);
    if e.generation.InProgress? {
      CheckpointApplies(e, details);
      PatchDoes(s, id, ops);
    } else {
      assert !Replays(e, ops[0]);
      PatchFrozen(s, id, ops);
    }
  }

  lemma CompactionDoes(s: State, callId: string, details: Json)
    requires !s.failed && Sound(s.ledger)
    ensures EndsCompaction(s, callId, details, EndCompaction(s, callId, details))
  {
    var id := CheckpointId(s, callId);
    if id in s.ledger.entries {
      CheckpointDoes(s, id, details);
    } else {
      var filed, body := s.(checkpoints := s.checkpoints[callId := id]), Checkpoint("compaction", None, "null");
      var u := AddNew(filed, id, InProgress, None, body, false);
      AddDoes(filed, id, InProgress, None, body, false);
      AddedSound(s, u, id, InProgress, None, body);
      CheckpointDoes(u, id, details);
    }
  }
}
