/** A callback asked for and answered: what is left of the effect it blocked. */
module ProjectorCallbacks {
  import opened Wrappers
  import opened History
  import opened Projector
  import opened ProjectorHistory
  import opened ProjectorFinish

  /** A patch of an entry in progress that is no mere replay, one operation long. */
  lemma PatchOne(s: State, id: string, op: Op)
    requires !s.failed && id in s.ledger.entries && !Replays(s.ledger.entries[id], op)
    requires s.ledger.entries[id].generation.InProgress? && Apply(op, s.ledger.entries[id]).Some?
    ensures var t := Patch(s, id, [op]);
            !t.failed && t.ledger.entries == s.ledger.entries[id := Apply(op, s.ledger.entries[id]).value.(updatedAt := s.clock(s.ticks))]
  {
    var e, now := s.ledger.entries[id], s.clock(s.ticks);
    assert !TimingOnly(e, [op]) by { assert !Replays(e, [op][0]); }
    assert [op] + [ReplaceUpdatedAt(now)] == [op, ReplaceUpdatedAt(now)];
    ApplyTwo(op, ReplaceUpdatedAt(now), e);
    PatchOutcome(s, id, [op]);
  }

  lemma SettleCallbackOutcome(s: State, id: string, answer: CallbackState)
    requires !s.failed && id in s.ledger.entries && !answer.Open?
    requires s.ledger.entries[id].generation.InProgress? && s.ledger.entries[id].body.Callback?
    ensures var e, t := s.ledger.entries[id], SettleCallback(s, id, answer);
            && !t.failed
            && t.ledger.entries == s.ledger.entries[id := e.(body := e.body.(answer := answer), generation := Completed, updatedAt := s.clock(s.ticks))]
  {
    var e, now := s.ledger.entries[id], s.clock(s.ticks);
    var ops := [ReplaceCallbackState(answer), ReplaceGeneration(Completed)];
    assert !TimingOnly(e, ops) by { assert !Replays(e, ops[1]); }
    assert ops + [ReplaceUpdatedAt(now)] == [ops[0], ops[1], ReplaceUpdatedAt(now)];
    ApplyThree(ops[0], ops[1], ReplaceUpdatedAt(now), e);
    ApplyTwo(ops[1], ReplaceUpdatedAt(now), e.(body := e.body.(answer := answer)));
    PatchOutcome(s, id, ops);
  }

  /** An effect that is running, and no callback filed under this id. */
  predicate MayAsk(s: State, callbackId: string, effect: string) {
    && !s.failed && Sound(s.ledger)
    && effect in s.ledger.entries && s.ledger.entries[effect].generation.InProgress?
    && s.ledger.entries[effect].body.Effect? && s.ledger.entries[effect].body.state.Running?
    && CALLBACK_PREFIX + callbackId !in s.ledger.entries
  }

  predicate Asked(s: State, t: State, callbackId: string, effect: string) {
    var id := CALLBACK_PREFIX + callbackId;
    && !t.failed
    && callbackId in t.callbacks && t.callbacks[callbackId] == id
    && id in t.ledger.entries && effect in t.ledger.entries && effect in s.ledger.entries && id != effect
    && t.ledger.entries[id].body.Callback? && t.ledger.entries[id].body.answer.Open?
    && t.ledger.entries[id].generation.InProgress? && t.ledger.entries[id].related == Some(effect)
    && s.ledger.entries[effect].body.Effect?
    && t.ledger.entries[effect] == s.ledger.entries[effect].(
         body := s.ledger.entries[effect].body.(state := Blocked(callbackId, "")), updatedAt := t.ledger.entries[effect].updatedAt)
  }

  lemma FileOutcome(s: State, callbackId: string, title: string, request: Json, effect: string)
    requires MayAsk(s, callbackId, effect)
    ensures var a, id := FileCallback(s, callbackId, title, request, Some(effect)), CALLBACK_PREFIX + callbackId;
            && !a.failed && a.clock == s.clock && a.callbacks == s.callbacks[callbackId := id]
            && id in a.ledger.entries && a.ledger.entries == s.ledger.entries[id := a.ledger.entries[id]]
            && a.ledger.entries[id].body == Callback(callbackId, title, request, Open)
            && a.ledger.entries[id].generation.InProgress? && a.ledger.entries[id].related == Some(effect)
  {
  }

  lemma AskedFrom(s: State, a: State, t: State, callbackId: string, effect: string)
    requires MayAsk(s, callbackId, effect)
    requires !t.failed && t.callbacks == a.callbacks && callbackId in a.callbacks && a.callbacks[callbackId] == CALLBACK_PREFIX + callbackId
    requires var id := CALLBACK_PREFIX + callbackId;
             && id in a.ledger.entries && a.ledger.entries == s.ledger.entries[id := a.ledger.entries[id]]
             && a.ledger.entries[id].body.Callback? && a.ledger.entries[id].body.answer.Open?
             && a.ledger.entries[id].generation.InProgress? && a.ledger.entries[id].related == Some(effect)
    requires exists now :: t.ledger.entries == a.ledger.entries[effect := s.ledger.entries[effect].(
               body := s.ledger.entries[effect].body.(state := Blocked(callbackId, "")), updatedAt := now)]
    ensures Asked(s, t, callbackId, effect)
  {
  }

  lemma PatchKeepsFiles(s: State, id: string, ops: seq<Op>)
    ensures Patch(s, id, ops).callbacks == s.callbacks
  {
    if !s.failed && id in s.ledger.entries { PatchSteps(s, id, ops); }
  }

  /** Asking opens the callback and blocks the effect. */
  lemma AskBlocks(s: State, callbackId: string, title: string, request: Json, effect: string)
    requires MayAsk(s, callbackId, effect)
    ensures Asked(s, OpenCallback(s, callbackId, title, request, Some(effect)), callbackId, effect)
  {
    var a := FileCallback(s, callbackId, title, request, Some(effect));
    FileOutcome(s, callbackId, title, request, effect);
    var op := ReplaceEffectState(Blocked(callbackId, ""));
    PatchOne(a, effect, op);
    PatchKeepsFiles(a, effect, [op]);
    AskedFrom(s, a, Patch(a, effect, [op]), callbackId, effect);
  }

  /** A callback in progress and the effect in progress it belongs to, whatever became of the
      effect since it was asked. */
  predicate Answerable(s: State, callbackId: string, effect: string) {
    && !s.failed && Sound(s.ledger) && callbackId in s.callbacks
    && var id := s.callbacks[callbackId];
       && id in s.ledger.entries && effect in s.ledger.entries
       && s.ledger.entries[id].generation.InProgress? && s.ledger.entries[id].body.Callback?
       && s.ledger.entries[id].related == Some(effect)
       && s.ledger.entries[effect].generation.InProgress? && s.ledger.entries[effect].body.Effect?
  }

  /** The output an unblocked effect goes on with. */
  function Unblocked(state: EffectState): string {
    if state.Blocked? then state.outputText else ""
  }

  /** Giving an effect in progress another state, be it the one it has. */
  lemma PatchState(s: State, id: string, state: EffectState)
    requires !s.failed && id in s.ledger.entries
    requires s.ledger.entries[id].generation.InProgress? && s.ledger.entries[id].body.Effect?
    ensures var e, t := s.ledger.entries[id], Patch(s, id, [ReplaceEffectState(state)]);
            && !t.failed && id in t.ledger.entries
            && t.ledger.entries == s.ledger.entries[id := t.ledger.entries[id]]
            && EffectNow(e, t.ledger.entries[id], state)
  {
    var e, op := s.ledger.entries[id], ReplaceEffectState(state);
    if Replays(e, op) {
      assert TimingOnly(e, [op]);
      ApplyOne(op, e);
      PatchOutcome(s, id, [op]);
    } else {
      PatchOne(s, id, op);
    }
  }

  /** The entry `f` is `e` with its effect in this state, time stamp aside. */
  predicate EffectNow(e: Entry, f: Entry, state: EffectState) {
    e.body.Effect? && f == e.(body := e.body.(state := state), updatedAt := f.updatedAt)
  }

  /** Answering or letting expire a callback completes its entry and puts the effect back to
      running, with the output it had while it was blocked. */
  lemma AnswerUnblocks(s: State, callbackId: string, effect: string, answer: CallbackState)
    requires Answerable(s, callbackId, effect) && !answer.Open?
    ensures var t, id := FinishCallback(s, callbackId, answer), s.callbacks[callbackId];
            && !t.failed && id in t.ledger.entries && effect in t.ledger.entries
            && t.ledger.entries[id].generation.Completed? && t.ledger.entries[id].body == s.ledger.entries[id].body.(answer := answer)
            && EffectNow(s.ledger.entries[effect], t.ledger.entries[effect], Running(Unblocked(s.ledger.entries[effect].body.state)))
  {
    var id := s.callbacks[callbackId];
    SettleCallbackOutcome(s, id, answer);
    var a := SettleCallback(s, id, answer);
    assert a.ledger.entries[effect] == s.ledger.entries[effect];
    var k := Located(s.ledger, effect);
    PatchState(a, effect, Running(Unblocked(s.ledger.entries[effect].body.state)));
  }

  /** Asking and answering leaves the effect as it was, its time stamp aside, if and only if
      it had produced no output yet: the output so far is not carried over. */
  lemma AskAndAnswer(s: State, callbackId: string, title: string, request: Json, effect: string, answer: CallbackState)
    requires MayAsk(s, callbackId, effect) && !answer.Open? && Accounted(s)
    ensures var t := FinishCallback(OpenCallback(s, callbackId, title, request, Some(effect)), callbackId, answer);
            && !t.failed && effect in t.ledger.entries
            && (t.ledger.entries[effect] == s.ledger.entries[effect].(updatedAt := t.ledger.entries[effect].updatedAt)
                <==> s.ledger.entries[effect].body.state.outputText == "")
  {
    var a := OpenCallback(s, callbackId, title, request, Some(effect));
    AskBlocks(s, callbackId, title, request, effect);
    ReplaySound(a.trace);
    AnswerUnblocks(a, callbackId, effect, answer);
  }
}
