/** The event projector as a value: what each of its calls does to the public
    history, to the id dictionaries and to the stream of updates it returns.
    `trace` lists the updates made since the projector was created, the silent
    additions a call keeps to itself included. Once `failed` is set, the call
    has raised and does nothing more. */
module Projector {
  import opened Wrappers
  import opened History

  /** The history list and the `_entries` dictionary with its key order. */
  datatype Ledger = Ledger(history: seq<Entry>, entries: map<string, Entry>, keys: seq<string>)

  const EMPTY: Ledger := Ledger([], map[], [])

  datatype Update =
    | Added(entry: Entry)
    | Silent(entry: Entry)             // an addition whose update is thrown away
    | Patched(id: string, ops: seq<Op>)
    | SessionPatched(path: string, value: string)

  datatype State = State(
    sessionId: string, turnId: Option<string>, clock: nat -> int, ticks: nat, preview: string,
    ledger: Ledger,
    assistant: map<string, string>, reasoning: map<string, string>, effects: map<string, string>,
    checkpoints: map<string, string>, callbacks: map<string, string>,
    trace: seq<Update>, failed: bool)

  function Start(sessionId: string, turnId: Option<string>, preview: string, clock: nat -> int): State {
    State(sessionId, turnId, clock, 0, preview, EMPTY, map[], map[], map[], map[], map[], [], false)
  }

  function Ids(es: seq<Entry>): seq<string> {
    seq(|es|, i requires 0 <= i < |es| => es[i].id)
  }

  /** Overwrite the first entry of the list that has this id. */
  function Overwrite(h: seq<Entry>, id: string, e: Entry): (r: seq<Entry>)
    ensures |r| == |h|
  {
    if |h| == 0 then []
    else if h[0].id == id then [e] + h[1..]
    else [h[0]] + Overwrite(h[1..], id, e)
  }

  function Insert(g: Ledger, e: Entry): Ledger {
    Ledger(g.history + [e], g.entries[e.id := e], g.keys + [e.id])
  }

  function Rewrite(g: Ledger, id: string, e: Entry): Ledger {
    g.(history := Overwrite(g.history, id, e), entries := g.entries[id := e])
  }

  // Replaying updates.

  function Play(g: Ledger, u: Update): Option<Ledger> {
    match u
    case Added(e) => if e.id in g.entries then None else Some(Insert(g, e))
    case Silent(e) => if e.id in g.entries then None else Some(Insert(g, e))
    case SessionPatched(_, _) => Some(g)
    case Patched(id, ops) =>
      if id !in g.entries then None
      else
        match Revise(g.entries[id], ops)
        case None => None
        case Some(next) => Some(Rewrite(g, id, next))
  }

  /** The ledger a list of updates builds from nothing, silent ones included;
      none when one of them breaks a rule of the history. */
  function Replay(t: seq<Update>): Option<Ledger> {
    if |t| == 0 then Some(EMPTY)
    else
      match Replay(t[..|t| - 1])
      case None => None
      case Some(g) => Play(g, t[|t| - 1])
  }

  /** The ledger is exactly what the updates made so far build. */
  predicate Accounted(s: State) {
    Replay(s.trace) == Some(s.ledger)
  }

  /** `t` adds updates to `s`, and accounts for its ledger if `s` did. */
  predicate Grows(s: State, t: State) {
    && s.trace <= t.trace
    && (Accounted(s) ==> Accounted(t))
    && (s.failed ==> t.failed)
  }

  /** The updates from position `n` on are all given to the caller. */
  predicate Told(t: seq<Update>, n: nat) {
    forall i :: n <= i < |t| ==> !t[i].Silent?
  }

  /** `t` continues `s` without keeping an update from the caller or touching the
      dictionaries of streamed texts and checkpoints. */
  predicate Continues(s: State, t: State) {
    Grows(s, t) && Told(t.trace, |s.trace|) && SameTexts(s, t) && s.checkpoints == t.checkpoints
  }

  /** Neither those dictionaries nor the text of any entry is touched. */
  predicate SameTexts(s: State, t: State) {
    SameVoices(s, t) && forall i :: |s.trace| <= i < |t.trace| ==> Quiet(t.trace[i])
  }

  predicate SameVoices(s: State, t: State) {
    s.assistant == t.assistant && s.reasoning == t.reasoning
  }

  /** An update that changes no text, and adds none without telling. */
  predicate Quiet(u: Update) {
    (u.Patched? ==> AllWordless(u.ops)) && (u.Silent? ==> !Textual(u.entry.body))
  }

  /** An update that completes no entry without closing it. */
  predicate Plain(u: Update) {
    match u
    case Added(e) => Tidy(e)
    case Silent(e) => Tidy(e)
    case Patched(_, ops) => Proper(ops)
    case SessionPatched(_, _) => true
  }

  predicate Plainly(s: State, t: State) {
    forall i :: |s.trace| <= i < |t.trace| ==> Plain(t.trace[i])
  }

  lemma ReplayOne(t: seq<Update>, u: Update)
    ensures Replay(t + [u]) == if Replay(t).None? then None else Play(Replay(t).value, u)
  {
    assert (t + [u])[..|t|] == t;
  }

  // The primitives of the projector: `_add`, `_update_session` and `_patch`.

  function Fail(s: State): State {
    s.(failed := true)
  }

  /** Put an update and the ledger it gives on record. */
  function Record(s: State, u: Update, g: Ledger): (t: State)
    ensures t == s.(ledger := g, trace := t.trace) && s.trace <= t.trace
    ensures !u.Silent? <==> Told(t.trace, |s.trace|)
    ensures Plain(u) ==> Plainly(s, t)
    ensures Quiet(u) ==> SameTexts(s, t)
    ensures Accounted(s) && Play(s.ledger, u) == Some(g) ==> Accounted(t)
  {
    ReplayOne(s.trace, u);
    assert (s.trace + [u])[|s.trace|] == u;
    s.(ledger := g, trace := s.trace + [u])
  }

  lemma PlayKeeps(g: Ledger, u: Update)
    requires Play(g, u).Some?
    ensures g.entries.Keys <= Play(g, u).value.entries.Keys
    ensures u.Patched? ==> |Play(g, u).value.history| == |g.history| && Play(g, u).value.entries.Keys == g.entries.Keys
    ensures u.Added? || u.Silent? ==> u.entry.id in Play(g, u).value.entries
  {
  }

  /** Make an update: carry it out on the ledger and put it on the trace. */
  function Emit(s: State, u: Update): (t: State)
    ensures Grows(s, t) && SameVoices(s, t) && (Quiet(u) ==> SameTexts(s, t)) && s.checkpoints == t.checkpoints
    ensures (!u.Silent? ==> Told(t.trace, |s.trace|)) && (Plain(u) ==> Plainly(s, t))
    ensures u.Silent? && !t.failed ==> !Told(t.trace, |s.trace|)
    ensures t.ledger.entries.Keys >= s.ledger.entries.Keys && (u.Patched? ==> |t.ledger.history| == |s.ledger.history| && t.ledger.entries.Keys == s.ledger.entries.Keys)
    ensures !t.failed && (u.Added? || u.Silent?) ==> u.entry.id in t.ledger.entries
  {
    if s.failed then s
    else if Play(s.ledger, u).None? then Fail(s)
    else
      PlayKeeps(s.ledger, u);
      Record(s, u, Play(s.ledger, u).value)
  }

  function AddNew(s: State, id: string, generation: Generation, related: Option<string>, body: Body, announced: bool): (t: State)
    ensures Grows(s, t) && SameVoices(s, t) && s.checkpoints == t.checkpoints
    ensures announced || !Textual(body) ==> SameTexts(s, t)
    ensures (announced ==> Told(t.trace, |s.trace|)) && (generation.InProgress? || Closed(body) ==> Plainly(s, t))
    ensures !announced && !t.failed ==> !Told(t.trace, |s.trace|)
    ensures !t.failed ==> id in t.ledger.entries
  {
    var now := s.clock(s.ticks);
    var e := Entry(id, s.sessionId, s.turnId, now, now, generation, related, body);
    Emit(s.(ticks := s.ticks + 1), if announced then Added(e) else Silent(e))
  }

  /** The identity check `_patch` makes on the entry a patch gives. */
  predicate KeepsIdentity(e: Entry, ops: seq<Op>) {
    ApplyAll(ops, e).Some? ==> SameIdentity(e, ApplyAll(ops, e).value)
  }

  lemma StampedKind(e: Entry, ops: seq<Op>, now: int)
    ensures AllWordless(ops) ==> AllWordless(Stamped(e, ops, now))
    ensures Proper(ops) ==> Proper(Stamped(e, ops, now))
  {
  }

  function Patch(s: State, id: string, ops: seq<Op>): (t: State)
    ensures Grows(s, t) && Told(t.trace, |s.trace|) && SameVoices(s, t) && s.checkpoints == t.checkpoints
    ensures (AllWordless(ops) ==> Continues(s, t)) && (Proper(ops) ==> Plainly(s, t))
    ensures t.ledger.entries.Keys == s.ledger.entries.Keys && |t.ledger.history| == |s.ledger.history|
  {
    if s.failed then s
    else if id !in s.ledger.entries then Fail(s)
    else
      var e := s.ledger.entries[id];
      if e.generation.Completed? && !TimingOnly(e, ops) then Fail(s)
      else
        var stamped := Stamped(e, ops, s.clock(s.ticks));
        StampedKind(e, ops, s.clock(s.ticks));
        if KeepsIdentity(e, stamped) then Emit(s.(ticks := s.ticks + 1), Patched(id, stamped)) else Fail(s.(ticks := s.ticks + 1))
  }

  // Events.

  datatype ToolOutcome =
    | WasCancelled(error: string, duration: Option<real>, display: Json)
    | WasSkipped(reason: string, display: Json)
    | WasError(error: Json, duration: Option<real>, display: Json)
    | WasSuccess(output: Json, transcript: string, duration: Option<real>, display: Json)
    | Unpresentable                     // a result without a presentation snapshot

  datatype Event =
    | UserMessage(id: string, content: seq<Block>, summary: string, rest: Json)
    | AssistantText(messageId: Option<string>, text: string, uuid: string, rest: Json)
    | ReasoningText(messageId: Option<string>, text: string, uuid: string)
    | ToolCall(callId: string, name: string, presentation: Option<Detail>)
    | ToolStream(callId: string, text: string)
    | ToolResult(callId: string, name: string, generic: Json, outcome: ToolOutcome)
    | CompactStart(callId: string, details: Json)
    | CompactEnd(callId: string, details: Json)
    | Notified(uuid: string, notice: Json)
    | TitleUpdated(uuid: string, notice: Json, title: string)
    | Ignored

  const COMPACTING: string := "Compacting context"
  const COMPACTED: string := "Context compacted"
  const PREVIEW_LENGTH: nat := 160

  function Take(s: string, n: nat): string {
    if |s| <= n then s else s[..n]
  }

  /** Python's `a or b` on an optional string. */
  function Or(a: Option<string>, b: string): string {
    if a.Some? && a.value != "" then a.value else b
  }

  /** Python's truth of `ids.get(key)`. */
  predicate Known(ids: map<string, string>, key: string) {
    key in ids && ids[key] != ""
  }

  function Scaled(duration: Option<real>): Option<real> {
    match duration
    case None => None
    case Some(d) => Some(d * 1000.0)
  }

  /** The settled state a tool result ends its effect in. */
  function StateFor(outcome: ToolOutcome, output: string): (r: Option<EffectState>)
    ensures r.Some? ==> Settled(r.value)
  {
    match outcome
    case WasCancelled(error, d, display) => Some(Cancelled(if error == "" then "Cancelled" else error, output, Scaled(d), display))
    case WasSkipped(reason, display) => Some(Skipped(if reason == "" then "Skipped" else reason, display))
    case WasError(error, d, display) => Some(Failed(error, "null", output, Scaled(d), display))
    case WasSuccess(value, transcript, d, display) => Some(Succeeded(value, if output == "" then transcript else output, Scaled(d), display))
    case Unpresentable => None
  }

  function OutputText(state: EffectState): string {
    if state.Running? || state.Blocked? then state.outputText else ""
  }

  /** The entry a dictionary of ids leads to. */
  function Lookup(s: State, ids: map<string, string>, key: string): Option<Entry> {
    if key in ids && ids[key] in s.ledger.entries then Some(s.ledger.entries[ids[key]]) else None
  }

  /** The first message that has something to show names the session. */
  function Preview(s: State, summary: string): (t: State)
    ensures Continues(s, t) && Plainly(s, t)
  {
    if s.failed || s.preview != "" || summary == "" then s
    else
      var preview := Take(summary, PREVIEW_LENGTH);
      Emit(s.(preview := preview), SessionPatched("/preview", preview))
  }

  function ProjectUserMessage(s: State, id: string, content: seq<Block>, summary: string, rest: Json): (t: State)
    ensures Continues(s, t) && Plainly(s, t)
  {
    Preview(AddNew(s, id, Completed, None, Message(User, content, None, rest), true), summary)
  }

  function ProjectAssistant(s: State, messageId: Option<string>, text: string, uuid: string, rest: Json): (t: State)
    ensures Grows(s, t) && Told(t.trace, |s.trace|) && s.checkpoints == t.checkpoints && Plainly(s, t)
    ensures s.reasoning == t.reasoning
  {
    var key := Or(messageId, "assistant");
    if Known(s.assistant, key) then Patch(s, s.assistant[key], [AppendContent(text)])
    else
      var id := Or(messageId, uuid);
      AddNew(s.(assistant := s.assistant[key := id]), id, InProgress, None, Message(Assistant, [Text(text)], None, rest), true)
  }

  function ProjectReasoning(s: State, messageId: Option<string>, text: string, uuid: string): (t: State)
    ensures Grows(s, t) && Told(t.trace, |s.trace|) && s.checkpoints == t.checkpoints && Plainly(s, t)
    ensures s.assistant == t.assistant
  {
    var key := Or(messageId, "reasoning");
    if Known(s.reasoning, key) then Patch(s, s.reasoning[key], [AppendText(text)])
    else
      var id := Or(messageId, uuid);
      AddNew(s.(reasoning := s.reasoning[key := id]), id, InProgress, None, Reasoning(text), true)
  }

  /** Complete the entry at position `i` if it is a streamed one still in progress. */
  function CompleteAt(s: State, ids: set<string>, i: nat): (t: State)
    requires i < |s.ledger.history|
    ensures Continues(s, t) && |t.ledger.history| == |s.ledger.history|
  {
    var e := s.ledger.history[i];
    if e.id in ids && e.generation.InProgress? then Patch(s, e.id, [ReplaceGeneration(Completed)]) else s
  }

  /** The same from position `i` of the history on. */
  function CompleteStreamed(s: State, ids: set<string>, i: nat): (t: State)
    ensures Continues(s, t)
    decreases |s.ledger.history| - i
  {
    if s.failed || i >= |s.ledger.history| then s else CompleteStreamed(CompleteAt(s, ids, i), ids, i + 1)
  }

  function StartEffect(s: State, id: string, title: string, detail: Detail): (t: State)
    ensures Continues(s, t) && Plainly(s, t)
  {
    if Known(s.effects, id) then Patch(s, s.effects[id], [ReplaceDetail(detail)])
    else AddNew(s.(effects := s.effects[id := id]), id, InProgress, None, Effect(title, detail, Running("")), true)
  }

  function ProjectToolCall(s: State, callId: string, name: string, presentation: Option<Detail>): (t: State)
    ensures Continues(s, t)
  {
    var t := CompleteStreamed(s, s.assistant.Values + s.reasoning.Values, 0);
    if t.failed then t
    else
      match presentation
      case None => Fail(t)
      case Some(detail) => StartEffect(t, callId, name, detail)
  }

  function AppendEffectOutput(s: State, id: string, text: string): (t: State)
    ensures Continues(s, t) && Plainly(s, t)
  {
    if id !in s.effects then Fail(s) else Patch(s, s.effects[id], [AppendOutput(text)])
  }

  function CompleteEffect(s: State, id: string, state: EffectState): (t: State)
    ensures Continues(s, t) && (Settled(state) ==> Plainly(s, t))
  {
    if id !in s.effects then Fail(s)
    else Patch(s, s.effects[id], [ReplaceEffectState(state), ReplaceGeneration(Completed)])
  }

  /** An effect nobody announced is added from its result. */
  function EnsureEffect(s: State, callId: string, name: string, generic: Json): (t: State)
    ensures Continues(s, t) && Plainly(s, t) && callId in t.effects
  {
    if callId in s.effects then s
    else AddNew(s.(effects := s.effects[callId := callId]), callId, InProgress, None,
                Effect(name, OtherDetail(generic), Running("")), true)
  }

  /** The state a result ends an effect in; none where reading the effect or
      projecting the result raises. */
  function Ending(s: State, callId: string, outcome: ToolOutcome): (r: Option<EffectState>)
    ensures r.Some? ==> Settled(r.value)
  {
    match Lookup(s, s.effects, callId)
    case None => None
    case Some(e) => if e.body.Effect? then StateFor(outcome, OutputText(e.body.state)) else None
  }

  function EndEffect(s: State, callId: string, outcome: ToolOutcome): (t: State)
    ensures Continues(s, t) && Plainly(s, t)
  {
    if s.failed then s
    else
      match Ending(s, callId, outcome)
      case None => Fail(s)
      case Some(state) => CompleteEffect(s, callId, state)
  }

  function ProjectToolResult(s: State, callId: string, name: string, generic: Json, outcome: ToolOutcome): (t: State)
    ensures Continues(s, t) && Plainly(s, t)
  {
    EndEffect(EnsureEffect(s, callId, name, generic), callId, outcome)
  }

  /** A checkpoint is only ever filed under its own id. */
  predicate SelfNamed(s: State) {
    forall k :: k in s.checkpoints ==> s.checkpoints[k] == k
  }

  function StartCompaction(s: State, callId: string, details: Json): (t: State)
    ensures Grows(s, t) && Told(t.trace, |s.trace|) && SameTexts(s, t) && Plainly(s, t)
    ensures SelfNamed(s) ==> SelfNamed(t)
    ensures !t.failed ==> callId in t.ledger.entries
  {
    AddNew(s.(checkpoints := s.checkpoints[callId := callId]), callId, InProgress, None,
           Checkpoint("compaction", Some(COMPACTING), details), true)
  }

  function CheckpointId(s: State, callId: string): string {
    if callId in s.checkpoints then s.checkpoints[callId] else callId
  }

  function CompactionOps(details: Json): (r: seq<Op>)
    ensures AllWordless(r) && Proper(r)
  {
    [ReplaceMessage(COMPACTED), ReplaceDetails(details), ReplaceGeneration(Completed)]
  }

  /** The entry a compaction ends in, added silently if it is not there. */
  function EnsureCompaction(s: State, callId: string): (t: State)
    ensures Grows(s, t) && SameTexts(s, t) && Plainly(s, t)
    ensures SelfNamed(s) ==> SelfNamed(t)
    ensures CheckpointId(s, callId) in s.ledger.entries ==> t == s
    ensures CheckpointId(s, callId) !in s.ledger.entries && !t.failed ==> !Told(t.trace, |s.trace|)
  {
    var id := CheckpointId(s, callId);
    if id in s.ledger.entries then s
    else AddNew(s.(checkpoints := s.checkpoints[callId := id]), id, InProgress, None, Checkpoint("compaction", None, "null"), false)
  }

  /** A compaction end; the entry it adds when none was started is not announced. */
  function EndCompaction(s: State, callId: string, details: Json): (t: State)
    ensures Grows(s, t) && SameTexts(s, t) && Plainly(s, t)
    ensures SelfNamed(s) ==> SelfNamed(t)
    ensures CheckpointId(s, callId) in s.ledger.entries ==> Told(t.trace, |s.trace|)
    ensures CheckpointId(s, callId) !in s.ledger.entries && !t.failed ==> !Told(t.trace, |s.trace|)
  {
    Patch(EnsureCompaction(s, callId), CheckpointId(s, callId), CompactionOps(details))
  }

  function AddNotice(s: State, id: string, notice: Json): (t: State)
    ensures Continues(s, t) && Plainly(s, t)
  {
    AddNew(s, id, Completed, None, Notice(notice), true)
  }

  /** A compaction end that no start announced an entry for. */
  predicate Unstarted(s: State, event: Event) {
    event.CompactEnd? && CheckpointId(s, event.callId) !in s.ledger.entries
  }

  function ProjectEvent(s: State, event: Event): (t: State)
    ensures Grows(s, t)
    ensures !event.AssistantText? && !event.ReasoningText? ==> SameTexts(s, t)
    ensures !event.ToolCall? ==> Plainly(s, t)
    ensures event.CompactStart? && !t.failed ==> event.callId in t.ledger.entries
    ensures SelfNamed(s) ==> SelfNamed(t)
    ensures !Unstarted(s, event) ==> Told(t.trace, |s.trace|)
    ensures Unstarted(s, event) && !t.failed ==> !Told(t.trace, |s.trace|)
  {
    match event
    case UserMessage(id, content, summary, rest) => ProjectUserMessage(s, id, content, summary, rest)
    case AssistantText(id, text, uuid, rest) => ProjectAssistant(s, id, text, uuid, rest)
    case ReasoningText(id, text, uuid) => ProjectReasoning(s, id, text, uuid)
    case ToolCall(id, name, presentation) => ProjectToolCall(s, id, name, presentation)
    case ToolStream(id, text) => AppendEffectOutput(s, id, text)
    case ToolResult(id, name, generic, outcome) => ProjectToolResult(s, id, name, generic, outcome)
    case CompactStart(id, details) => StartCompaction(s, id, details)
    case CompactEnd(id, details) => EndCompaction(s, id, details)
    case Notified(uuid, notice) => AddNotice(s, uuid, notice)
    case TitleUpdated(uuid, notice, title) => Emit(AddNotice(s, uuid, notice), SessionPatched("/title", title))
    case Ignored => s
  }

  // Subagent links.

  function LinkedDetail(s: State, callId: string): Option<Detail> {
    if callId !in s.effects || s.effects[callId] !in s.ledger.entries then None
    else
      var e := s.ledger.entries[s.effects[callId]];
      if e.body.Effect? && e.body.detail.Subagent? then Some(e.body.detail) else None
  }

  function LinkSubagent(s: State, callId: string, child: string): (t: State)
    ensures Continues(s, t) && Plainly(s, t)
  {
    match LinkedDetail(s, callId)
    case None => Fail(s)
    case Some(detail) =>
      if detail.child == Some(child) then s
      else if detail.child.Some? then Fail(s)
      else Patch(s, s.effects[callId], [ReplaceChild(Some(child))])
  }

  function ReplaceSubagent(s: State, callId: string, old_: string, new_: string): (t: State)
    ensures Continues(s, t) && Plainly(s, t)
  {
    match LinkedDetail(s, callId)
    case None => Fail(s)
    case Some(detail) =>
      if detail.child != Some(old_) then Fail(s)
      else Patch(s, s.effects[callId], [ReplaceChild(Some(new_))])
  }

  function UnlinkSubagent(s: State, callId: string, child: string): (t: State)
    ensures Continues(s, t) && Plainly(s, t)
  {
    match LinkedDetail(s, callId)
    case None => Fail(s)
    case Some(detail) =>
      if detail.child.None? then s
      else if detail.child != Some(child) then Fail(s)
      else Patch(s, s.effects[callId], [ReplaceChild(None)])
  }

  // Callbacks.

  const CALLBACK_PREFIX: string := "callback:"

  function FileCallback(s: State, callbackId: string, title: string, request: Json, related: Option<string>): (t: State)
    ensures Continues(s, t) && Plainly(s, t)
  {
    var id := CALLBACK_PREFIX + callbackId;
    AddNew(s.(callbacks := s.callbacks[callbackId := id]), id, InProgress, related, Callback(callbackId, title, request, Open), true)
  }

  function OpenCallback(s: State, callbackId: string, title: string, request: Json, related: Option<string>): (t: State)
    ensures Continues(s, t) && Plainly(s, t)
  {
    var t := FileCallback(s, callbackId, title, request, related);
    if !t.failed && related.Some? && related.value in t.ledger.entries
    then Patch(t, related.value, [ReplaceEffectState(Blocked(callbackId, ""))])
    else t
  }

  /** Put the effect a callback belongs to back to running. */
  function Unblock(s: State, related: Option<string>, onlyBlocked: bool): (t: State)
    ensures Continues(s, t) && Plainly(s, t)
  {
    if s.failed || related.None? || related.value !in s.ledger.entries then s
    else
      var effect := s.ledger.entries[related.value];
      if !effect.body.Effect? || (onlyBlocked && !effect.body.state.Blocked?) then s
      else
        var output := if effect.body.state.Blocked? then effect.body.state.outputText else "";
        Patch(s, effect.id, [ReplaceEffectState(Running(output))])
  }

  function SettleCallback(s: State, id: string, answer: CallbackState): (t: State)
    requires !answer.Open?
    ensures Continues(s, t) && Plainly(s, t)
  {
    Patch(s, id, [ReplaceCallbackState(answer), ReplaceGeneration(Completed)])
  }

  /** Settle a callback's entry and unblock the effect it belongs to. */
  function EndCallback(s: State, id: string, answer: CallbackState, onlyBlocked: bool): (t: State)
    requires !answer.Open?
    ensures Continues(s, t) && Plainly(s, t)
  {
    if id !in s.ledger.entries then Fail(s)
    else Unblock(SettleCallback(s, id, answer), s.ledger.entries[id].related, onlyBlocked)
  }

  /** Answer or expire a callback. */
  function FinishCallback(s: State, callbackId: string, answer: CallbackState): (t: State)
    requires !answer.Open?
    ensures Continues(s, t) && Plainly(s, t)
  {
    if callbackId !in s.callbacks then s else EndCallback(s, s.callbacks[callbackId], answer, false)
  }

  predicate HasState(b: Body) {
    b.Effect? || b.Callback?
  }

  /** Withdraw a callback, unless it already reached a terminal state. */
  function CloseCallback(s: State, callbackId: string, reason: string): (t: State)
    ensures Continues(s, t) && Plainly(s, t)
  {
    if callbackId !in s.callbacks then s
    else
      match Lookup(s, s.callbacks, callbackId)
      case None => Fail(s)
      case Some(e) =>
        if !HasState(e.body) then Fail(s)        // there is no state to read
        else if !(e.body.Callback? && e.body.answer.Open?) then s
        else EndCallback(s, s.callbacks[callbackId], Withdrawn(reason), true)
  }

  // The end of the turn.

  function Reason(cancelled: bool): string {
    if cancelled then "Turn interrupted" else "Turn ended"
  }

  function TurnEnd(cancelled: bool, output: string): EffectState {
    if cancelled then Cancelled(Reason(true), output, None, Reason(true))
    else Failed(Reason(false), "null", output, None, Reason(false))
  }

  /** What `finalize` does to an entry, if anything. */
  function Settlement(e: Entry, cancelled: bool, replay: bool): (r: Option<seq<Op>>)
    ensures r.Some? ==> AllWordless(r.value)
  {
    if e.generation.Completed? then
      if !replay then None
      else
        match e.body
        case Effect(_, _, state) => Some([ReplaceEffectState(state), ReplaceGeneration(Completed)])
        case Callback(_, _, _, answer) => Some([ReplaceCallbackState(answer), ReplaceGeneration(Completed)])
        case _ => Some([ReplaceGeneration(Completed)])
    else
      match e.body
      case Effect(_, _, state) => Some([ReplaceEffectState(TurnEnd(cancelled, OutputText(state))), ReplaceGeneration(Completed)])
      case Callback(_, _, _, _) => Some([ReplaceCallbackState(Withdrawn(Reason(cancelled))), ReplaceGeneration(Completed)])
      case _ => Some([ReplaceGeneration(Completed)])
  }

  function SettleEntry(s: State, e: Entry, cancelled: bool, replay: bool): (t: State)
    ensures Continues(s, t)
  {
    match Settlement(e, cancelled, replay)
    case None => s
    case Some(ops) => Patch(s, e.id, ops)
  }

  /** Settle the entries listed, one after another. */
  function SettleEntries(s: State, es: seq<Entry>, cancelled: bool, replay: bool): (t: State)
    ensures Continues(s, t)
    decreases |es|
  {
    if |es| == 0 then s else SettleEntries(SettleEntry(s, es[0], cancelled, replay), es[1..], cancelled, replay)
  }

  /** The entries of the dictionary in its order. */
  function Listed(g: Ledger): seq<Entry> {
    seq(|g.keys|, i requires 0 <= i < |g.keys| => if g.keys[i] in g.entries then g.entries[g.keys[i]] else NOTHING)
  }

  const NOTHING: Entry := Entry("", "", None, 0, 0, Completed, None, Notice(""))

  datatype Timing = Timing(messageId: string, duration: real)

  datatype ToolTiming = ToolTiming(callId: Option<string>, duration: Option<real>)

  /** A duration to set, and the entry to set it in. */
  datatype Due = Due(id: string, op: Op)

  function SetDue(s: State, due: Option<Due>): (t: State)
    requires due.Some? ==> !due.value.op.ReplaceGeneration? && Wordless(due.value.op)
    ensures Continues(s, t) && Plainly(s, t)
  {
    match due
    case None => s
    case Some(d) => Patch(s, d.id, [d.op])
  }

  /** The turn's duration, if its message is there and does not have it yet. */
  function TurnDue(s: State, timing: Option<Timing>, replay: bool): (r: Option<Due>)
    ensures r.Some? ==> r.value.op.SetTurnDuration?
  {
    if timing.None? then None
    else
      var ms := timing.value.duration * 1000.0;
      match Lookup(s, s.assistant, timing.value.messageId)
      case None => None
      case Some(e) =>
        if e.body.Message? && (replay || e.body.turnDuration != Some(ms)) then Some(Due(e.id, SetTurnDuration(ms))) else None
  }

  /** The duration of a tool call, if its effect takes one and has none yet. */
  function ToolDue(s: State, m: ToolTiming, replay: bool): (r: Option<Due>)
    ensures r.Some? ==> r.value.op.SetEffectDuration?
  {
    match (Lookup(s, s.effects, Or(m.callId, "")), m.duration)
    case (Some(e), Some(d)) =>
      if e.body.Effect? && Timed(e.body.state) && (replay || e.body.state.duration.None?)
      then Some(Due(e.id, SetEffectDuration(d * 1000.0)))
      else None
    case _ => None
  }

  function SettleToolDurations(s: State, ms: seq<ToolTiming>, replay: bool): (t: State)
    ensures Continues(s, t) && Plainly(s, t)
    decreases |ms|
  {
    if |ms| == 0 then s else SettleToolDurations(SetDue(s, ToolDue(s, ms[0], replay)), ms[1..], replay)
  }

  function SettleTurnDuration(s: State, timing: Option<Timing>, replay: bool): (t: State)
    ensures Continues(s, t) && Plainly(s, t)
  {
    SetDue(s, TurnDue(s, timing, replay))
  }

  function Finalize(s: State, cancelled: bool, timing: Option<Timing>, messages: seq<ToolTiming>, replay: bool): (t: State)
    ensures Continues(s, t)
  {
    SettleToolDurations(
      SettleTurnDuration(SettleEntries(s, Listed(s.ledger), cancelled, replay), timing, replay),
      messages, replay)
  }

  // Calls and runs.

  datatype Call =
    | Project(event: Event)
    | Link(callId: string, child: string)
    | Relink(callId: string, old_: string, new_: string)
    | Unlink(callId: string, child: string)
    | Begin(id: string, title: string, detail: Detail)
    | Note(id: string, notice: Json)
    | Append(id: string, text: string)
    | Complete(id: string, state: EffectState)
    | Ask(callbackId: string, title: string, request: Json, related: Option<string>)
    | Resolve(callbackId: string, output: Json)
    | Expire(callbackId: string, reason: string)
    | Close(callbackId: string, reason: string)
    | Finish(cancelled: bool, timing: Option<Timing>, messages: seq<ToolTiming>, replay: bool)

  /** The calls whose added entry is kept from the caller. */
  predicate Dropping(s: State, call: Call) {
    call.Project? && Unstarted(s, call.event)
  }

  /** The calls that add to the dictionaries of streamed texts. */
  predicate Streams(call: Call) {
    call.Project? && (call.event.AssistantText? || call.event.ReasoningText?)
  }

  /** Every call but the two that complete entries in bulk, and a completion with an
      unsettled state. */
  predicate OnlyCloses(call: Call) {
    !call.Finish? && !(call.Project? && call.event.ToolCall?) && (call.Complete? ==> Settled(call.state))
  }

  /** What every call keeps, whether or not it raises. */
  predicate StepLaw(s: State, call: Call, t: State) {
    && s.trace <= t.trace
    && (Accounted(s) ==> Accounted(t))
    && (SelfNamed(s) ==> SelfNamed(t))
    && (!Streams(call) ==> SameTexts(s, t))
    && (OnlyCloses(call) ==> Plainly(s, t))
    && (!Dropping(s, call) ==> Told(t.trace, |s.trace|))
    && (Dropping(s, call) && !t.failed ==> !Told(t.trace, |s.trace|))
    && (Starting(call) && !t.failed ==> call.event.callId in t.ledger.entries)
  }

  predicate Starting(call: Call) {
    call.Project? && call.event.CompactStart?
  }

  predicate OfCallback(call: Call) {
    call.Ask? || call.Resolve? || call.Expire? || call.Close?
  }

  predicate OfEffect(call: Call) {
    call.Link? || call.Relink? || call.Unlink? || call.Begin? || call.Append? || call.Complete?
  }

  function CallbackStep(s: State, call: Call): (t: State)
    requires OfCallback(call)
    ensures Continues(s, t) && Plainly(s, t)
  {
    match call
    case Ask(id, title, request, related) => OpenCallback(s, id, title, request, related)
    case Resolve(id, output) => FinishCallback(s, id, Answered(output))
    case Expire(id, reason) => FinishCallback(s, id, Expired(reason))
    case Close(id, reason) => CloseCallback(s, id, reason)
  }

  function EffectStep(s: State, call: Call): (t: State)
    requires OfEffect(call)
    ensures Continues(s, t) && (OnlyCloses(call) ==> Plainly(s, t))
  {
    match call
    case Link(id, child) => LinkSubagent(s, id, child)
    case Relink(id, old_, new_) => ReplaceSubagent(s, id, old_, new_)
    case Unlink(id, child) => UnlinkSubagent(s, id, child)
    case Begin(id, title, detail) => StartEffect(s, id, title, detail)
    case Append(id, text) => AppendEffectOutput(s, id, text)
    case Complete(id, state) => CompleteEffect(s, id, state)
  }

  /** One call, from the state the previous call left behind. */
  function Step(s: State, call: Call): (t: State)
    ensures StepLaw(s, call, t)
  {
    var s := s.(failed := false);
    if call.Project? then ProjectEvent(s, call.event)
    else if OfCallback(call) then CallbackStep(s, call)
    else if OfEffect(call) then EffectStep(s, call)
    else
      match call
      case Note(id, notice) => AddNotice(s, id, notice)
      case Finish(cancelled, timing, messages, replay) => Finalize(s, cancelled, timing, messages, replay)
  }

  // Runs. They are stated over a step function so that their laws rest on the laws
  // of one step alone; `Step` is the projector's.

  type Stepper = (State, Call) -> State

  ghost predicate Lawful(step: Stepper) {
    forall s, c :: StepLaw(s, c, step(s, c))
  }

  /** The state after a list of calls, whether or not some of them raise. */
  function Run(step: Stepper, s: State, calls: seq<Call>): State {
    if |calls| == 0 then s else step(Run(step, s, calls[..|calls| - 1]), calls[|calls| - 1])
  }

  /** Every call of the list returns normally. */
  predicate AllReturn(step: Stepper, s: State, calls: seq<Call>) {
    |calls| == 0 || (AllReturn(step, s, calls[..|calls| - 1]) && !Run(step, s, calls).failed)
  }

  lemma StepIsLawful()
    ensures Lawful(Step)
  {
    forall s, c ensures StepLaw(s, c, Step(s, c)) { var t := Step(s, c); }
  }
}
