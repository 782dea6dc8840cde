/** The event projector as the object it is: its methods change the history, the
    dictionaries and the counters step by step. Each is proved to do what the
    specification of its call says, and to return the updates it has made, bar the
    silent ones: `emitted` is the record of all of them. A method whose `ok` is false
    has raised, and returns nothing that counts. */
module EventProjecting {
  import opened Wrappers
  import opened History
  import opened Projector
  import opened ProjectorHistory
  import opened ProjectorFinish
  import opened HistoryClient
  import opened ProjectorSteps

  // Patches.

  method IsTimingOnlyPatch(e: Entry, ops: seq<Op>) returns (timing: bool)
    ensures timing == TimingOnly(e, ops)
  {
    if |ops| == 0 { return false; }
    for i := 0 to |ops|
      invariant forall j :: 0 <= j < i ==> Replays(e, ops[j])
    {
      if !Replays(e, ops[i]) { return false; }
    }
    return true;
  }

  method ApplyPatch(e: Entry, ops: seq<Op>) returns (r: Option<Entry>)
    ensures r == ApplyAll(ops, e)
  {
    var document := e;
    for i := 0 to |ops|
      invariant ApplyAll(ops, e) == ApplyAll(ops[i..], document)
    {
      assert ops[i..][0] == ops[i] && ops[i..][1..] == ops[i + 1..];
      var next := Apply(ops[i], document);
      if next.None? { return None; }
      document := next.value;
    }
    return Some(document);
  }

  /** The history list with the first entry of this id replaced. */
  method ReplaceFirst(h: seq<Entry>, id: string, e: Entry) returns (r: seq<Entry>)
    ensures r == Overwrite(h, id, e)
  {
    for index := 0 to |h|
      invariant forall i :: 0 <= i < index ==> h[i].id != id
    {
      if h[index].id == id {
        OverwriteAt(h, index, e);
        return h[index := e];
      }
    }
    OverwriteNowhere(h, id, e);
    return h;
  }

  lemma {:induction false} OverwriteNowhere(h: seq<Entry>, id: string, e: Entry)
    requires forall i :: 0 <= i < |h| ==> h[i].id != id
    ensures Overwrite(h, id, e) == h
  {
    if |h| > 0 { OverwriteNowhere(h[1..], id, e); }
  }

  /** One position of the loop that completes streamed text; a failure ends it. */
  lemma CompleteNext(s: State, ids: set<string>, i: nat)
    requires !s.failed && i < |s.ledger.history|
    ensures var t := CompleteAt(s, ids, i);
            CompleteStreamed(s, ids, i) == if t.failed then t else CompleteStreamed(t, ids, i + 1)
  {
  }

  /** A call that has failed stays failed, whatever is left to do. */
  lemma {:induction false} FailedEntriesStay(s: State, es: seq<Entry>, cancelled: bool, replay: bool)
    requires s.failed
    ensures SettleEntries(s, es, cancelled, replay) == s
    decreases |es|
  {
    if |es| > 0 { FailedEntriesStay(s, es[1..], cancelled, replay); }
  }

  /** What `_add` does. */
  ghost function Attach(s: State, e: Entry, announced: bool): State {
    if e.id in s.ledger.entries then s.(failed := true)
    else s.(ledger := Insert(s.ledger, e), trace := s.trace + [if announced then Added(e) else Silent(e)])
  }

  lemma AddSteps(s: State, id: string, generation: Generation, related: Option<string>, body: Body, announced: bool)
    requires !s.failed
    ensures var now := s.clock(s.ticks);
            AddNew(s, id, generation, related, body, announced)
              == Attach(s.(ticks := s.ticks + 1), Entry(id, s.sessionId, s.turnId, now, now, generation, related, body), announced)
  {
  }

  /** The updates made between two points of the record, as the caller is given them. */
  ghost predicate Gives(before: seq<Update>, updates: seq<Update>, after: seq<Update>) {
    before <= after && updates == Returned(after[|before|..])
  }

  lemma {:induction false} ReturnedJoined(a: seq<Update>, b: seq<Update>)
    ensures Returned(a + b) == Returned(a) + Returned(b)
  {
    if |b| == 0 {
      assert a + b == a;
    } else {
      assert (a + b)[..|a + b| - 1] == a + b[..|b| - 1];
      ReturnedJoined(a, b[..|b| - 1]);
    }
  }

  lemma GivesOne(before: seq<Update>, u: Update)
    ensures Gives(before, if u.Silent? then [] else [u], before + [u])
  {
    assert (before + [u])[|before|..] == [u];
    assert Returned([u][..0]) == [];
  }

  lemma GivesTwo(before: seq<Update>, us: seq<Update>, between: seq<Update>, vs: seq<Update>, after: seq<Update>)
    ensures Gives(before, us, between) && Gives(between, vs, after) ==> Gives(before, us + vs, after)
  {
    if Gives(before, us, between) && Gives(between, vs, after) {
      assert after[|before|..] == between[|before|..] + after[|between|..];
      ReturnedJoined(between[|before|..], after[|between|..]);
    }
  }

  class EventProjector {
    const sessionId: string
    const turnId: Option<string>
    const clock: nat -> int
    var ticks: nat
    var preview: string
    var history: seq<Entry>
    var entries: map<string, Entry>
    var keys: seq<string>
    var assistantEntries: map<string, string>
    var reasoningEntries: map<string, string>
    var effectEntries: map<string, string>
    var checkpointEntries: map<string, string>
    var callbackEntries: map<string, string>
    ghost var emitted: seq<Update>
    ghost const start: State
    ghost var calls: seq<Call>

    ghost function Snapshot(failed: bool): State
      reads this
    {
      State(sessionId, turnId, clock, ticks, preview, Ledger(history, entries, keys),
            assistantEntries, reasoningEntries, effectEntries, checkpointEntries, callbackEntries, emitted, failed)
    }

    /** The projector is what its calls so far make of a new one. */
    ghost predicate Valid()
      reads this
    {
      IsRun(start, Snapshot(false), calls)
    }

    constructor (sessionId: string, turnId: Option<string>, preview: string, clock: nat -> int)
      ensures Valid() && Snapshot(false) == Start(sessionId, turnId, preview, clock) && calls == []
    {
      this.sessionId := sessionId;
      this.turnId := turnId;
      this.clock := clock;
      this.preview := preview;
      ticks := 0;
      history, entries, keys := [], map[], [];
      assistantEntries, reasoningEntries, effectEntries, checkpointEntries, callbackEntries := map[], map[], map[], map[], map[];
      start := Start(sessionId, turnId, preview, clock);
      calls := [];
      emitted := [];
    }

    method Now() returns (now: int)
      modifies this`ticks
      ensures now == clock(old(ticks)) && ticks == old(ticks) + 1
    {
      now := clock(ticks);
      ticks := ticks + 1;
    }

    method Add(e: Entry, ghost announced: bool) returns (ok: bool, updates: seq<Update>)
      modifies this`history, this`entries, this`keys, this`emitted
      ensures Snapshot(!ok) == Attach(old(Snapshot(false)), e, announced)
      ensures ok ==> Gives(old(emitted), if announced then updates else [], emitted)
    {
      if e.id in entries { return false, []; }
      history := history + [e];
      entries := entries[e.id := e];
      keys := keys + [e.id];
      ghost var update := if announced then Added(e) else Silent(e);
      GivesOne(emitted, update);
      emitted := emitted + [update];
      return true, [Added(e)];
    }

    method AddEntry(id: string, generation: Generation, related: Option<string>, body: Body, ghost announced: bool)
      returns (ok: bool, updates: seq<Update>)
      modifies this`history, this`entries, this`keys, this`emitted, this`ticks
      ensures Snapshot(!ok) == AddNew(old(Snapshot(false)), id, generation, related, body, announced)
      ensures ok ==> Gives(old(emitted), if announced then updates else [], emitted)
    {
      ghost var was := Snapshot(false);
      var now := Now();
      ok, updates := Add(Entry(id, sessionId, turnId, now, now, generation, related, body), announced);
      AddSteps(was, id, generation, related, body, announced);
    }

    /** The entry a patch gives; none where `_patch` raises. */
    method Revised(e: Entry, ops: seq<Op>) returns (stamped: seq<Op>, updated: Option<Entry>)
      modifies this`ticks
      ensures var now := clock(old(ticks));
              && (ticks == old(ticks) || ticks == old(ticks) + 1)
              && (ticks == old(ticks) <==> e.generation.Completed? && !TimingOnly(e, ops))
              && updated == Revise(e, Stamped(e, ops, now))
              && (updated.Some? ==> stamped == Stamped(e, ops, now))
    {
      var timing := IsTimingOnlyPatch(e, ops);
      StampedAlike(e, ops, clock(ticks));
      if e.generation.Completed? && !timing { return [], None; }
      var now := Now();
      stamped := if timing then ops else ops + [ReplaceUpdatedAt(now)];
      updated := ApplyPatch(e, stamped);
      // The check that follows, of type, id, session, turn and creation time, cannot fail.
      assert updated.Some? ==> SameIdentity(e, updated.value) by { IdentityAlwaysKept(e, stamped); }
    }

    /** Put a patched entry in place. */
    method Keep(id: string, ops: seq<Op>, e: Entry) returns (updates: seq<Update>)
      modifies this`history, this`entries, this`emitted
      ensures var was := old(Snapshot(false));
              Snapshot(false) == was.(ledger := Rewrite(was.ledger, id, e), trace := was.trace + [Patched(id, ops)])
      ensures Gives(old(emitted), updates, emitted)
    {
      entries := entries[id := e];
      history := ReplaceFirst(history, id, e);
      GivesOne(emitted, Patched(id, ops));
      emitted := emitted + [Patched(id, ops)];
      return [Patched(id, ops)];
    }

    method PatchEntry(id: string, ops: seq<Op>) returns (ok: bool, updates: seq<Update>)
      modifies this`history, this`entries, this`emitted, this`ticks
      ensures Snapshot(!ok) == Patch(old(Snapshot(false)), id, ops)
      ensures ok ==> Gives(old(emitted), updates, emitted)
    {
      if id !in entries { return false, []; }
      ghost var was := Snapshot(false);
      var stamped, updated := Revised(entries[id], ops);
      assert Snapshot(false) == was.(ticks := ticks);
      PatchSteps(was, id, ops);
      if updated.None? {
        return false, [];
      }
      updates := Keep(id, stamped, updated.value);
      return true, updates;
    }

    // Streamed text and messages.

    method PatchSession(path: string, value: string) returns (updates: seq<Update>)
      modifies this`emitted
      ensures Snapshot(false) == Emit(old(Snapshot(false)), SessionPatched(path, value))
      ensures Gives(old(emitted), updates, emitted)
    {
      ghost var was := Snapshot(false);
      GivesOne(emitted, SessionPatched(path, value));
      emitted := emitted + [SessionPatched(path, value)];
      assert Snapshot(false) == Emit(was, SessionPatched(path, value));
      return [SessionPatched(path, value)];
    }

    method PreviewCall(summary: string) returns (updates: seq<Update>)
      modifies this`preview, this`emitted
      ensures Snapshot(false) == Preview(old(Snapshot(false)), summary)
      ensures Gives(old(emitted), updates, emitted)
    {
      if preview != "" || summary == "" { return []; }
      ghost var was := Snapshot(false);
      preview := Take(summary, PREVIEW_LENGTH);
      assert Snapshot(false) == was.(preview := preview);
      updates := PatchSession("/preview", preview);
    }

    method UserMessageCall(id: string, content: seq<Block>, summary: string, rest: Json)
      returns (ok: bool, updates: seq<Update>)
      modifies this`history, this`entries, this`keys, this`emitted, this`ticks, this`preview
      ensures Snapshot(!ok) == ProjectUserMessage(old(Snapshot(false)), id, content, summary, rest)
      ensures ok ==> Gives(old(emitted), updates, emitted)
    {
      ok, updates := AddEntry(id, Completed, None, Message(User, content, None, rest), true);
      if !ok { return; }
      ghost var added := emitted;
      var more := PreviewCall(summary);
      GivesTwo(old(emitted), updates, added, more, emitted);
      updates := updates + more;
    }

    method AssistantCall(messageId: Option<string>, text: string, uuid: string, rest: Json) returns (ok: bool, updates: seq<Update>)
      modifies this`history, this`entries, this`keys, this`emitted, this`ticks, this`assistantEntries
      ensures Snapshot(!ok) == ProjectAssistant(old(Snapshot(false)), messageId, text, uuid, rest)
      ensures ok ==> Gives(old(emitted), updates, emitted)
    {
      var key := Or(messageId, "assistant");
      if Known(assistantEntries, key) {
        ok, updates := PatchEntry(assistantEntries[key], [AppendContent(text)]);
        return;
      }
      var id := Or(messageId, uuid);
      ghost var was := Snapshot(false);
      assistantEntries := assistantEntries[key := id];
      assert Snapshot(false) == was.(assistant := assistantEntries);
      ok, updates := AddEntry(id, InProgress, None, Message(Assistant, [Text(text)], None, rest), true);
    }

    method ReasoningCall(messageId: Option<string>, text: string, uuid: string) returns (ok: bool, updates: seq<Update>)
      modifies this`history, this`entries, this`keys, this`emitted, this`ticks, this`reasoningEntries
      ensures Snapshot(!ok) == ProjectReasoning(old(Snapshot(false)), messageId, text, uuid)
      ensures ok ==> Gives(old(emitted), updates, emitted)
    {
      var key := Or(messageId, "reasoning");
      if Known(reasoningEntries, key) {
        ok, updates := PatchEntry(reasoningEntries[key], [AppendText(text)]);
        return;
      }
      var id := Or(messageId, uuid);
      ghost var was := Snapshot(false);
      reasoningEntries := reasoningEntries[key := id];
      assert Snapshot(false) == was.(reasoning := reasoningEntries);
      ok, updates := AddEntry(id, InProgress, None, Reasoning(text), true);
    }

    method CompleteTextAt(i: nat, ids: set<string>) returns (ok: bool, updates: seq<Update>)
      requires i < |history|
      modifies this`history, this`entries, this`emitted, this`ticks
      ensures Snapshot(!ok) == CompleteAt(old(Snapshot(false)), ids, i)
      ensures ok ==> Gives(old(emitted), updates, emitted)
      ensures |history| == old(|history|)
    {
      if history[i].id in ids && history[i].generation.InProgress? {
        ok, updates := PatchEntry(history[i].id, [ReplaceGeneration(Completed)]);
      } else {
        return true, [];
      }
    }

    method CompleteStreamedText() returns (ok: bool, updates: seq<Update>)
      modifies this`history, this`entries, this`emitted, this`ticks
      ensures Snapshot(!ok) == CompleteStreamed(old(Snapshot(false)), assistantEntries.Values + reasoningEntries.Values, 0)
      ensures ok ==> Gives(old(emitted), updates, emitted)
    {
      var ids := assistantEntries.Values + reasoningEntries.Values;
      ghost var whole := CompleteStreamed(Snapshot(false), ids, 0);
      updates := [];
      var i := 0;
      while i < |history|
        invariant whole == CompleteStreamed(Snapshot(false), ids, i)
        invariant Gives(old(emitted), updates, emitted)
        decreases |history| - i
      {
        CompleteNext(Snapshot(false), ids, i);
        ghost var now := emitted;
        var more;
        ok, more := CompleteTextAt(i, ids);
        if !ok { return; }
        GivesTwo(old(emitted), updates, now, more, emitted);
        updates := updates + more;
        i := i + 1;
      }
      return true, updates;
    }

    // Effects.

    method StartEffectCall(id: string, title: string, detail: Detail) returns (ok: bool, updates: seq<Update>)
      modifies this`history, this`entries, this`keys, this`emitted, this`ticks, this`effectEntries
      ensures Snapshot(!ok) == StartEffect(old(Snapshot(false)), id, title, detail)
      ensures ok ==> Gives(old(emitted), updates, emitted)
    {
      if Known(effectEntries, id) {
        ok, updates := PatchEntry(effectEntries[id], [ReplaceDetail(detail)]);
        return;
      }
      ghost var was := Snapshot(false);
      effectEntries := effectEntries[id := id];
      assert Snapshot(false) == was.(effects := effectEntries);
      ok, updates := AddEntry(id, InProgress, None, Effect(title, detail, Running("")), true);
    }

    method ToolCallCall(callId: string, name: string, presentation: Option<Detail>) returns (ok: bool, updates: seq<Update>)
      modifies this`history, this`entries, this`keys, this`emitted, this`ticks, this`effectEntries
      ensures Snapshot(!ok) == ProjectToolCall(old(Snapshot(false)), callId, name, presentation)
      ensures ok ==> Gives(old(emitted), updates, emitted)
    {
      ok, updates := CompleteStreamedText();
      if !ok { return; }
      if presentation.None? { return false, []; }
      ghost var now := emitted;
      var more;
      ok, more := StartEffectCall(callId, name, presentation.value);
      GivesTwo(old(emitted), updates, now, more, emitted);
      updates := updates + more;
    }

    method AppendEffectOutputCall(id: string, text: string) returns (ok: bool, updates: seq<Update>)
      modifies this`history, this`entries, this`emitted, this`ticks
      ensures Snapshot(!ok) == AppendEffectOutput(old(Snapshot(false)), id, text)
      ensures ok ==> Gives(old(emitted), updates, emitted)
    {
      if id !in effectEntries { return false, []; }
      ok, updates := PatchEntry(effectEntries[id], [AppendOutput(text)]);
    }

    method CompleteEffectCall(id: string, state: EffectState) returns (ok: bool, updates: seq<Update>)
      modifies this`history, this`entries, this`emitted, this`ticks
      ensures Snapshot(!ok) == CompleteEffect(old(Snapshot(false)), id, state)
      ensures ok ==> Gives(old(emitted), updates, emitted)
    {
      if id !in effectEntries { return false, []; }
      ok, updates := PatchEntry(effectEntries[id], [ReplaceEffectState(state), ReplaceGeneration(Completed)]);
    }

    method EnsureEffectEntry(callId: string, name: string, generic: Json) returns (ok: bool, updates: seq<Update>)
      modifies this`history, this`entries, this`keys, this`emitted, this`ticks, this`effectEntries
      ensures Snapshot(!ok) == EnsureEffect(old(Snapshot(false)), callId, name, generic)
      ensures ok ==> Gives(old(emitted), updates, emitted)
    {
      if callId in effectEntries { return true, []; }
      ghost var was := Snapshot(false);
      effectEntries := effectEntries[callId := callId];
      assert Snapshot(false) == was.(effects := effectEntries);
      ok, updates := AddEntry(callId, InProgress, None, Effect(name, OtherDetail(generic), Running("")), true);
    }

    method EndEffectCall(callId: string, outcome: ToolOutcome) returns (ok: bool, updates: seq<Update>)
      modifies this`history, this`entries, this`emitted, this`ticks
      ensures Snapshot(!ok) == EndEffect(old(Snapshot(false)), callId, outcome)
      ensures ok ==> Gives(old(emitted), updates, emitted)
    {
      if callId !in effectEntries || effectEntries[callId] !in entries { return false, []; }
      var entry := entries[effectEntries[callId]];
      if !entry.body.Effect? { return false, []; }
      var state := StateFor(outcome, OutputText(entry.body.state));
      if state.None? { return false, []; }
      ok, updates := CompleteEffectCall(callId, state.value);
    }

    method ToolResultCall(callId: string, name: string, generic: Json, outcome: ToolOutcome) returns (ok: bool, updates: seq<Update>)
      modifies this`history, this`entries, this`keys, this`emitted, this`ticks, this`effectEntries
      ensures Snapshot(!ok) == ProjectToolResult(old(Snapshot(false)), callId, name, generic, outcome)
      ensures ok ==> Gives(old(emitted), updates, emitted)
    {
      ok, updates := EnsureEffectEntry(callId, name, generic);
      if !ok { return; }
      ghost var now := emitted;
      var more;
      ok, more := EndEffectCall(callId, outcome);
      GivesTwo(old(emitted), updates, now, more, emitted);
      updates := updates + more;
    }

    // Compactions and notices.

    method CompactStartCall(callId: string, details: Json) returns (ok: bool, updates: seq<Update>)
      modifies this`history, this`entries, this`keys, this`emitted, this`ticks, this`checkpointEntries
      ensures Snapshot(!ok) == StartCompaction(old(Snapshot(false)), callId, details)
      ensures ok ==> Gives(old(emitted), updates, emitted)
    {
      ghost var was := Snapshot(false);
      checkpointEntries := checkpointEntries[callId := callId];
      assert Snapshot(false) == was.(checkpoints := checkpointEntries);
      ok, updates := AddEntry(callId, InProgress, None, Checkpoint("compaction", Some(COMPACTING), details), true);
    }

    /** The update of an addition made here is thrown away. */
    method EnsureCheckpoint(callId: string) returns (ok: bool, id: string)
      modifies this`history, this`entries, this`keys, this`emitted, this`ticks, this`checkpointEntries
      ensures id == CheckpointId(old(Snapshot(false)), callId)
      ensures Snapshot(!ok) == EnsureCompaction(old(Snapshot(false)), callId)
      ensures ok ==> Gives(old(emitted), [], emitted)
    {
      id := if callId in checkpointEntries then checkpointEntries[callId] else callId;
      if id in entries { return true, id; }
      ghost var was := Snapshot(false);
      checkpointEntries := checkpointEntries[callId := id];
      assert Snapshot(false) == was.(checkpoints := checkpointEntries);
      var dropped;
      ok, dropped := AddEntry(id, InProgress, None, Checkpoint("compaction", None, "null"), false);
    }

    method CompactEndCall(callId: string, details: Json) returns (ok: bool, updates: seq<Update>)
      modifies this`history, this`entries, this`keys, this`emitted, this`ticks, this`checkpointEntries
      ensures Snapshot(!ok) == EndCompaction(old(Snapshot(false)), callId, details)
      ensures ok ==> Gives(old(emitted), updates, emitted)
    {
      var id;
      ok, id := EnsureCheckpoint(callId);
      if !ok { return false, []; }
      ghost var now := emitted;
      ok, updates := PatchEntry(id, CompactionOps(details));
      GivesTwo(old(emitted), [], now, updates, emitted);
      assert [] + updates == updates;
    }

    method AddNoticeCall(id: string, notice: Json) returns (ok: bool, updates: seq<Update>)
      modifies this`history, this`entries, this`keys, this`emitted, this`ticks
      ensures Snapshot(!ok) == AddNotice(old(Snapshot(false)), id, notice)
      ensures ok ==> Gives(old(emitted), updates, emitted)
    {
      ok, updates := AddEntry(id, Completed, None, Notice(notice), true);
    }

    method TitleCall(id: string, notice: Json, title: string) returns (ok: bool, updates: seq<Update>)
      modifies this`history, this`entries, this`keys, this`emitted, this`ticks
      ensures Snapshot(!ok) == Emit(AddNotice(old(Snapshot(false)), id, notice), SessionPatched("/title", title))
      ensures ok ==> Gives(old(emitted), updates, emitted)
    {
      ok, updates := AddNoticeCall(id, notice);
      if !ok { return; }
      ghost var now := emitted;
      var more := PatchSession("/title", title);
      GivesTwo(old(emitted), updates, now, more, emitted);
      updates := updates + more;
    }

    // Subagent links.

    method LinkCall(callId: string, child: string) returns (ok: bool, updates: seq<Update>)
      modifies this`history, this`entries, this`emitted, this`ticks
      ensures Snapshot(!ok) == LinkSubagent(old(Snapshot(false)), callId, child)
      ensures ok ==> Gives(old(emitted), updates, emitted)
    {
      var detail := SubagentDetail(callId);
      if detail.None? { return false, []; }
      if detail.value.child == Some(child) { return true, []; }
      if detail.value.child.Some? { return false, []; }
      ok, updates := PatchEntry(effectEntries[callId], [ReplaceChild(Some(child))]);
    }

    method RelinkCall(callId: string, old_: string, new_: string) returns (ok: bool, updates: seq<Update>)
      modifies this`history, this`entries, this`emitted, this`ticks
      ensures Snapshot(!ok) == ReplaceSubagent(old(Snapshot(false)), callId, old_, new_)
      ensures ok ==> Gives(old(emitted), updates, emitted)
    {
      var detail := SubagentDetail(callId);
      if detail.None? || detail.value.child != Some(old_) { return false, []; }
      ok, updates := PatchEntry(effectEntries[callId], [ReplaceChild(Some(new_))]);
    }

    method UnlinkCall(callId: string, child: string) returns (ok: bool, updates: seq<Update>)
      modifies this`history, this`entries, this`emitted, this`ticks
      ensures Snapshot(!ok) == UnlinkSubagent(old(Snapshot(false)), callId, child)
      ensures ok ==> Gives(old(emitted), updates, emitted)
    {
      var detail := SubagentDetail(callId);
      if detail.None? { return false, []; }
      if detail.value.child.None? { return true, []; }
      if detail.value.child != Some(child) { return false, []; }
      ok, updates := PatchEntry(effectEntries[callId], [ReplaceChild(None)]);
    }

    method SubagentDetail(callId: string) returns (detail: Option<Detail>)
      ensures detail == LinkedDetail(Snapshot(false), callId)
    {
      if callId !in effectEntries || effectEntries[callId] !in entries { return None; }
      var body := entries[effectEntries[callId]].body;
      if !body.Effect? || !body.detail.Subagent? { return None; }
      return Some(body.detail);
    }

    // Callbacks.

    method AddCallback(callbackId: string, title: string, request: Json, related: Option<string>) returns (ok: bool, updates: seq<Update>)
      modifies this`history, this`entries, this`keys, this`emitted, this`ticks, this`callbackEntries
      ensures Snapshot(!ok) == FileCallback(old(Snapshot(false)), callbackId, title, request, related)
      ensures ok ==> Gives(old(emitted), updates, emitted)
    {
      var id := CALLBACK_PREFIX + callbackId;
      ghost var was := Snapshot(false);
      callbackEntries := callbackEntries[callbackId := id];
      assert Snapshot(false) == was.(callbacks := callbackEntries);
      ok, updates := AddEntry(id, InProgress, related, Callback(callbackId, title, request, Open), true);
    }

    method OpenCallbackCall(callbackId: string, title: string, request: Json, related: Option<string>) returns (ok: bool, updates: seq<Update>)
      modifies this`history, this`entries, this`keys, this`emitted, this`ticks, this`callbackEntries
      ensures Snapshot(!ok) == OpenCallback(old(Snapshot(false)), callbackId, title, request, related)
      ensures ok ==> Gives(old(emitted), updates, emitted)
    {
      ok, updates := AddCallback(callbackId, title, request, related);
      if ok && related.Some? && related.value in entries {
        ghost var now := emitted;
        var more;
        ok, more := PatchEntry(related.value, [ReplaceEffectState(Blocked(callbackId, ""))]);
        GivesTwo(old(emitted), updates, now, more, emitted);
        updates := updates + more;
      }
    }

    method UnblockEffect(related: Option<string>, onlyBlocked: bool) returns (ok: bool, updates: seq<Update>)
      modifies this`history, this`entries, this`emitted, this`ticks
      ensures Snapshot(!ok) == Unblock(old(Snapshot(false)), related, onlyBlocked)
      ensures ok ==> Gives(old(emitted), updates, emitted)
    {
      if related.None? || related.value !in entries { return true, []; }
      var effect := entries[related.value];
      if !effect.body.Effect? || (onlyBlocked && !effect.body.state.Blocked?) { return true, []; }
      var output := if effect.body.state.Blocked? then effect.body.state.outputText else "";
      ok, updates := PatchEntry(effect.id, [ReplaceEffectState(Running(output))]);
    }

    method EndCallbackEntry(id: string, answer: CallbackState, onlyBlocked: bool) returns (ok: bool, updates: seq<Update>)
      requires !answer.Open?
      modifies this`history, this`entries, this`emitted, this`ticks
      ensures Snapshot(!ok) == EndCallback(old(Snapshot(false)), id, answer, onlyBlocked)
      ensures ok ==> Gives(old(emitted), updates, emitted)
    {
      if id !in entries { return false, []; }
      var related := entries[id].related;
      ok, updates := PatchEntry(id, [ReplaceCallbackState(answer), ReplaceGeneration(Completed)]);
      if !ok { return; }
      ghost var now := emitted;
      var more;
      ok, more := UnblockEffect(related, onlyBlocked);
      GivesTwo(old(emitted), updates, now, more, emitted);
      updates := updates + more;
    }

    method FinishCallbackCall(callbackId: string, answer: CallbackState) returns (ok: bool, updates: seq<Update>)
      requires !answer.Open?
      modifies this`history, this`entries, this`emitted, this`ticks
      ensures Snapshot(!ok) == FinishCallback(old(Snapshot(false)), callbackId, answer)
      ensures ok ==> Gives(old(emitted), updates, emitted)
    {
      if callbackId !in callbackEntries { return true, []; }
      ok, updates := EndCallbackEntry(callbackEntries[callbackId], answer, false);
    }

    method CloseCallbackCall(callbackId: string, reason: string) returns (ok: bool, updates: seq<Update>)
      modifies this`history, this`entries, this`emitted, this`ticks
      ensures Snapshot(!ok) == CloseCallback(old(Snapshot(false)), callbackId, reason)
      ensures ok ==> Gives(old(emitted), updates, emitted)
    {
      if callbackId !in callbackEntries { return true, []; }
      if callbackEntries[callbackId] !in entries { return false, []; }
      var body := entries[callbackEntries[callbackId]].body;
      if !HasState(body) { return false, []; }
      if !(body.Callback? && body.answer.Open?) { return true, []; }
      ok, updates := EndCallbackEntry(callbackEntries[callbackId], Withdrawn(reason), true);
    }

    // The end of the turn.

    method SettleEntryCall(e: Entry, cancelled: bool, replay: bool) returns (ok: bool, updates: seq<Update>)
      modifies this`history, this`entries, this`emitted, this`ticks
      ensures Snapshot(!ok) == SettleEntry(old(Snapshot(false)), e, cancelled, replay)
      ensures ok ==> Gives(old(emitted), updates, emitted)
    {
      var ops := Settlement(e, cancelled, replay);
      if ops.None? { return true, []; }
      ok, updates := PatchEntry(e.id, ops.value);
    }

    method SettleEntriesCall(cancelled: bool, replay: bool) returns (ok: bool, updates: seq<Update>)
      modifies this`history, this`entries, this`emitted, this`ticks
      ensures Snapshot(!ok) == SettleEntries(old(Snapshot(false)), Listed(old(Snapshot(false)).ledger), cancelled, replay)
      ensures ok ==> Gives(old(emitted), updates, emitted)
    {
      var es := Listed(Ledger(history, entries, keys));
      ghost var whole := SettleEntries(Snapshot(false), es, cancelled, replay);
      updates := [];
      for i := 0 to |es|
        invariant whole == SettleEntries(Snapshot(false), es[i..], cancelled, replay)
        invariant Gives(old(emitted), updates, emitted)
      {
        assert es[i..][0] == es[i] && es[i..][1..] == es[i + 1..];
        ghost var now := emitted;
        var more;
        ok, more := SettleEntryCall(es[i], cancelled, replay);
        if !ok {
          FailedEntriesStay(Snapshot(true), es[i + 1..], cancelled, replay);
          return;
        }
        GivesTwo(old(emitted), updates, now, more, emitted);
        updates := updates + more;
      }
      return true, updates;
    }

    method SetDueCall(due: Option<Due>) returns (ok: bool, updates: seq<Update>)
      requires due.Some? ==> !due.value.op.ReplaceGeneration? && Wordless(due.value.op)
      modifies this`history, this`entries, this`emitted, this`ticks
      ensures Snapshot(!ok) == SetDue(old(Snapshot(false)), due)
      ensures ok ==> Gives(old(emitted), updates, emitted)
    {
      if due.None? { return true, []; }
      ok, updates := PatchEntry(due.value.id, [due.value.op]);
    }

    method LookupEntry(ids: map<string, string>, key: string) returns (e: Option<Entry>)
      ensures e == Lookup(Snapshot(false), ids, key)
    {
      if key !in ids || ids[key] !in entries { return None; }
      return Some(entries[ids[key]]);
    }

    method FindTurnDue(timing: Option<Timing>, replay: bool) returns (due: Option<Due>)
      ensures due == TurnDue(Snapshot(false), timing, replay)
    {
      if timing.None? { return None; }
      var entry := LookupEntry(assistantEntries, timing.value.messageId);
      var ms := timing.value.duration * 1000.0;
      if entry.None? || !entry.value.body.Message? || (!replay && entry.value.body.turnDuration == Some(ms)) { return None; }
      return Some(Due(entry.value.id, SetTurnDuration(ms)));
    }

    method SettleTurnCall(timing: Option<Timing>, replay: bool) returns (ok: bool, updates: seq<Update>)
      modifies this`history, this`entries, this`emitted, this`ticks
      ensures Snapshot(!ok) == SettleTurnDuration(old(Snapshot(false)), timing, replay)
      ensures ok ==> Gives(old(emitted), updates, emitted)
    {
      var due := FindTurnDue(timing, replay);
      ok, updates := SetDueCall(due);
    }

    method FindToolDue(m: ToolTiming, replay: bool) returns (due: Option<Due>)
      ensures due == ToolDue(Snapshot(false), m, replay)
    {
      var entry := LookupEntry(effectEntries, Or(m.callId, ""));
      if m.duration.None? || entry.None? { return None; }
      var body := entry.value.body;
      if !body.Effect? || !Timed(body.state) || (!replay && body.state.duration.Some?) { return None; }
      return Some(Due(entry.value.id, SetEffectDuration(m.duration.value * 1000.0)));
    }

    method SettleToolCall(m: ToolTiming, replay: bool) returns (ok: bool, updates: seq<Update>)
      modifies this`history, this`entries, this`emitted, this`ticks
      ensures Snapshot(!ok) == SetDue(old(Snapshot(false)), ToolDue(old(Snapshot(false)), m, replay))
      ensures ok ==> Gives(old(emitted), updates, emitted)
    {
      var due := FindToolDue(m, replay);
      ok, updates := SetDueCall(due);
    }

    method SettleToolCalls(ms: seq<ToolTiming>, replay: bool) returns (ok: bool, updates: seq<Update>)
      modifies this`history, this`entries, this`emitted, this`ticks
      ensures Snapshot(!ok) == SettleToolDurations(old(Snapshot(false)), ms, replay)
      ensures ok ==> Gives(old(emitted), updates, emitted)
    {
      ghost var whole := SettleToolDurations(Snapshot(false), ms, replay);
      updates := [];
      for i := 0 to |ms|
        invariant whole == SettleToolDurations(Snapshot(false), ms[i..], replay)
        invariant Gives(old(emitted), updates, emitted)
      {
        assert ms[i..][0] == ms[i] && ms[i..][1..] == ms[i + 1..];
        ghost var now := emitted;
        var more;
        ok, more := SettleToolCall(ms[i], replay);
        if !ok {
          FailedStays(Snapshot(true), ms[i + 1..], replay);
          return;
        }
        GivesTwo(old(emitted), updates, now, more, emitted);
        updates := updates + more;
      }
      return true, updates;
    }

    method FinalizeCall(cancelled: bool, timing: Option<Timing>, messages: seq<ToolTiming>, replay: bool)
      returns (ok: bool, updates: seq<Update>)
      modifies this`history, this`entries, this`emitted, this`ticks
      ensures Snapshot(!ok) == Finalize(old(Snapshot(false)), cancelled, timing, messages, replay)
      ensures ok ==> Gives(old(emitted), updates, emitted)
    {
      ok, updates := SettleEntriesCall(cancelled, replay);
      if !ok {
        FailedTurn(Snapshot(true), timing, messages, replay);
        return;
      }
      ghost var ended := emitted;
      var more;
      ok, more := SettleDurations(timing, messages, replay);
      GivesTwo(old(emitted), updates, ended, more, emitted);
      updates := updates + more;
    }

    /** The durations that settle with the turn: its own, then its tool calls'. */
    method SettleDurations(timing: Option<Timing>, messages: seq<ToolTiming>, replay: bool)
      returns (ok: bool, updates: seq<Update>)
      modifies this`history, this`entries, this`emitted, this`ticks
      ensures Snapshot(!ok) == SettleToolDurations(SettleTurnDuration(old(Snapshot(false)), timing, replay), messages, replay)
      ensures ok ==> Gives(old(emitted), updates, emitted)
    {
      ok, updates := SettleTurnCall(timing, replay);
      if !ok {
        FailedStays(Snapshot(true), messages, replay);
        return;
      }
      ghost var now := emitted;
      var more;
      ok, more := SettleToolCalls(messages, replay);
      GivesTwo(old(emitted), updates, now, more, emitted);
      updates := updates + more;
    }

    // Any call.

    method TextEvent(event: Event) returns (ok: bool, updates: seq<Update>)
      requires event.UserMessage? || event.AssistantText? || event.ReasoningText? || event.Notified? || event.TitleUpdated? || event.Ignored?
      modifies this`history, this`entries, this`keys, this`emitted, this`ticks, this`preview, this`assistantEntries, this`reasoningEntries
      ensures Snapshot(!ok) == ProjectEvent(old(Snapshot(false)), event)
      ensures ok ==> Gives(old(emitted), updates, emitted)
    {
      match event {
        case UserMessage(id, content, summary, rest) => ok, updates := UserMessageCall(id, content, summary, rest);
        case AssistantText(id, text, uuid, rest) => ok, updates := AssistantCall(id, text, uuid, rest);
        case ReasoningText(id, text, uuid) => ok, updates := ReasoningCall(id, text, uuid);
        case Notified(uuid, notice) => ok, updates := AddNoticeCall(uuid, notice);
        case TitleUpdated(uuid, notice, title) => ok, updates := TitleCall(uuid, notice, title);
        case Ignored => return true, [];
      }
    }

    method ToolEvent(event: Event) returns (ok: bool, updates: seq<Update>)
      requires event.ToolCall? || event.ToolStream? || event.ToolResult? || event.CompactStart? || event.CompactEnd?
      modifies this`history, this`entries, this`keys, this`emitted, this`ticks, this`effectEntries, this`checkpointEntries
      ensures Snapshot(!ok) == ProjectEvent(old(Snapshot(false)), event)
      ensures ok ==> Gives(old(emitted), updates, emitted)
    {
      match event {
        case ToolCall(id, name, presentation) => ok, updates := ToolCallCall(id, name, presentation);
        case ToolStream(id, text) => ok, updates := AppendEffectOutputCall(id, text);
        case ToolResult(id, name, generic, outcome) => ok, updates := ToolResultCall(id, name, generic, outcome);
        case CompactStart(id, details) => ok, updates := CompactStartCall(id, details);
        case CompactEnd(id, details) => ok, updates := CompactEndCall(id, details);
      }
    }

    method ProjectCall(event: Event) returns (ok: bool, updates: seq<Update>)
      modifies this`history, this`entries, this`keys, this`emitted, this`ticks, this`preview,
               this`assistantEntries, this`reasoningEntries, this`effectEntries, this`checkpointEntries
      ensures Snapshot(!ok) == ProjectEvent(old(Snapshot(false)), event)
      ensures ok ==> Gives(old(emitted), updates, emitted)
    {
      if event.ToolCall? || event.ToolStream? || event.ToolResult? || event.CompactStart? || event.CompactEnd? {
        ok, updates := ToolEvent(event);
      } else {
        ok, updates := TextEvent(event);
      }
    }

    method CallbackCall(call: Call) returns (ok: bool, updates: seq<Update>)
      requires OfCallback(call)
      modifies this`history, this`entries, this`keys, this`emitted, this`ticks, this`callbackEntries
      ensures Snapshot(!ok) == CallbackStep(old(Snapshot(false)), call)
      ensures ok ==> Gives(old(emitted), updates, emitted)
    {
      match call {
        case Ask(id, title, request, related) => ok, updates := OpenCallbackCall(id, title, request, related);
        case Resolve(id, output) => ok, updates := FinishCallbackCall(id, Answered(output));
        case Expire(id, reason) => ok, updates := FinishCallbackCall(id, Expired(reason));
        case Close(id, reason) => ok, updates := CloseCallbackCall(id, reason);
      }
    }

    method EffectCall(call: Call) returns (ok: bool, updates: seq<Update>)
      requires OfEffect(call)
      modifies this`history, this`entries, this`keys, this`emitted, this`ticks, this`effectEntries
      ensures Snapshot(!ok) == EffectStep(old(Snapshot(false)), call)
      ensures ok ==> Gives(old(emitted), updates, emitted)
    {
      match call {
        case Link(id, child) => ok, updates := LinkCall(id, child);
        case Relink(id, old_, new_) => ok, updates := RelinkCall(id, old_, new_);
        case Unlink(id, child) => ok, updates := UnlinkCall(id, child);
        case Begin(id, title, detail) => ok, updates := StartEffectCall(id, title, detail);
        case Append(id, text) => ok, updates := AppendEffectOutputCall(id, text);
        case Complete(id, state) => ok, updates := CompleteEffectCall(id, state);
      }
    }

    method Carry(call: Call) returns (ok: bool, updates: seq<Update>)
      modifies this`history, this`entries, this`keys, this`emitted, this`ticks, this`preview,
               this`assistantEntries, this`reasoningEntries, this`effectEntries, this`checkpointEntries, this`callbackEntries
      ensures Snapshot(!ok) == Step(old(Snapshot(false)), call)
      ensures ok ==> Gives(old(emitted), updates, emitted)
    {
      if call.Project? {
        ok, updates := ProjectCall(call.event);
      } else if OfCallback(call) {
        ok, updates := CallbackCall(call);
      } else if OfEffect(call) {
        ok, updates := EffectCall(call);
      } else {
        match call {
          case Note(id, notice) => ok, updates := AddNoticeCall(id, notice);
          case Finish(cancelled, timing, messages, replay) => ok, updates := FinalizeCall(cancelled, timing, messages, replay);
        }
      }
    }

    /** One call, and its place in the history of calls. */
    method Track(call: Call) returns (ok: bool, updates: seq<Update>)
      requires Valid()
      modifies this
      ensures Valid() && calls == old(calls) + [call]
      ensures Snapshot(!ok) == Step(old(Snapshot(false)), call)
      ensures ok ==> Gives(old(emitted), updates, emitted)
    {
      ghost var was := Snapshot(false);
      ok, updates := Carry(call);
      IsRunNext(start, was, calls, call);
      calls := calls + [call];
    }

    /** One call of the projector does what is said of it. Whatever the calls before it, and whether it raises or not,
        list and dictionary agree and entries only evolve; the updates it returns, joined from
        those of its parts, are the ones it has made, in order, bar the silent ones. */
    method Perform(call: Call) returns (ok: bool, updates: seq<Update>)
      requires Valid()
      modifies this
      ensures Valid() && calls == old(calls) + [call]
      ensures Snapshot(!ok) == Step(old(Snapshot(false)), call)
      ensures Sound(Snapshot(false).ledger) && Evolves(old(Snapshot(false)).ledger, Snapshot(false).ledger)
      ensures Does(old(Snapshot(false)), call, Snapshot(!ok))
      ensures old(emitted) <= emitted
      ensures ok ==> updates == Returned(emitted[|old(emitted)|..])
    {
      CallKeeps(start, Snapshot(false), calls, call);
      CallDoes(start, Snapshot(false), calls, call);
      ok, updates := Track(call);
    }

    /** The end of the turn raises exactly when the turn's duration is misplaced; either way
        every entry has ended. */
    method PerformFinish(cancelled: bool, timing: Option<Timing>, messages: seq<ToolTiming>, replay: bool)
      returns (ok: bool, updates: seq<Update>)
      requires Valid()
      modifies this
      ensures Valid() && calls == old(calls) + [Finish(cancelled, timing, messages, replay)]
      ensures ok <==> !Misplaced(old(Snapshot(false)), timing, replay)
      ensures TurnEnded(old(Snapshot(false)).ledger, Snapshot(false).ledger, cancelled) && AllCompleted(Snapshot(false).ledger)
    {
      ghost var was := Snapshot(false);
      AccountedSound(start, was, calls);
      ok, updates := Perform(Finish(cancelled, timing, messages, replay));
      FinalizeOutcome(was, cancelled, timing, messages, replay);
      FinalizeSettles(was.ledger, Snapshot(false).ledger, cancelled);
    }
  }

  lemma CallDoes(start: State, s: State, calls: seq<Call>, call: Call)
    requires IsRun(start, s, calls)
    ensures Does(s, call, Step(s, call))
  {
    AccountedSound(start, s, calls);
    assert s.(failed := false) == s;
    StepDoes(s, call);
  }

  lemma CallKeeps(start: State, s: State, calls: seq<Call>, call: Call)
    requires IsRun(start, s, calls)
    ensures s.trace <= Step(s, call).trace && Sound(Step(s, call).ledger) && Evolves(s.ledger, Step(s, call).ledger)
  {
    IsRunNext(start, s, calls, call);
  }

  lemma AccountedSound(start: State, s: State, calls: seq<Call>)
    requires IsRun(start, s, calls)
    ensures Accounted(s) && Sound(s.ledger)
  {
    StepIsLawful();
    RunAccounted(Step, start, calls);
  }

  lemma FailedTurn(s: State, timing: Option<Timing>, ms: seq<ToolTiming>, replay: bool)
    requires s.failed
    ensures SettleToolDurations(SettleTurnDuration(s, timing, replay), ms, replay) == s
  {
    assert SettleTurnDuration(s, timing, replay) == s;
    FailedStays(s, ms, replay);
  }
}
