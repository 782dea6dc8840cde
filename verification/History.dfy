/** Public history entries and the patch operations the projector emits on them:
    RFC 6902 replacements at fixed paths, plus the local `append` operation.
    Every function is total; a patch that JSON Patch or validation would refuse
    has no result. */
module History {
  import opened Wrappers

  type Json = string

  datatype Generation = InProgress | Completed

  datatype EffectState =
    | Pending
    | Running(outputText: string)
    | Blocked(callbackId: string, outputText: string)
    | Succeeded(output: Json, outputText: string, duration: Option<real>, display: Json)
    | Failed(error: Json, output: Json, outputText: string, duration: Option<real>, display: Json)
    | Cancelled(reason: string, outputText: string, duration: Option<real>, display: Json)
    | Skipped(reason: string, display: Json)

  datatype CallbackState = Open | Answered(output: Json) | Withdrawn(reason: string) | Expired(reason: string)

  datatype Role = System | User | Assistant

  datatype Block = Text(text: string) | OtherBlock(json: Json)

  datatype Detail = Subagent(child: Option<string>, rest: Json) | OtherDetail(json: Json)

  datatype Body =
    | Message(role: Role, content: seq<Block>, turnDuration: Option<real>, rest: Json)
    | Reasoning(text: string)
    | Effect(title: string, detail: Detail, state: EffectState)
    | Callback(callbackId: string, title: string, request: Json, answer: CallbackState)
    | Checkpoint(kind: string, message: Option<string>, details: Json)
    | Notice(notice: Json)

  datatype Entry = Entry(
    id: string, sessionId: string, turnId: Option<string>, createdAt: int, updatedAt: int,
    generation: Generation, related: Option<string>, body: Body)

  datatype Op =
    | ReplaceGeneration(generation: Generation)      // replace /generationStatus
    | ReplaceEffectState(state: EffectState)         // replace /state with an effect state
    | ReplaceCallbackState(answer: CallbackState)    // replace /state with a callback state
    | SetTurnDuration(ms: real)                      // replace /turnDurationMs
    | SetEffectDuration(ms: real)                    // replace /state/durationMs
    | ReplaceDetail(detail: Detail)                  // replace /detail
    | ReplaceChild(child: Option<string>)            // replace /detail/childSessionId
    | ReplaceMessage(message: string)                // replace /message
    | ReplaceDetails(details: Json)                  // replace /details
    | AppendContent(text: string)                    // append /content/0/text
    | AppendText(text: string)                       // append /text
    | AppendOutput(text: string)                     // append /state/outputText
    | ReplaceUpdatedAt(stamp: int)                   // replace /updatedAt

  /** Effect states that carry a duration. */
  predicate Timed(s: EffectState) {
    s.Succeeded? || s.Failed? || s.Cancelled?
  }

  /** Effect states a finished tool call may end in. */
  predicate Settled(s: EffectState) {
    Timed(s) || s.Skipped?
  }

  function WithDuration(s: EffectState, d: Option<real>): EffectState {
    if Timed(s) then s.(duration := d) else s
  }

  function ApplyBody(op: Op, b: Body): Option<Body> {
    match op
    case ReplaceEffectState(state) => if b.Effect? then Some(b.(state := state)) else None
    case ReplaceCallbackState(answer) => if b.Callback? then Some(b.(answer := answer)) else None
    case SetTurnDuration(ms) => if b.Message? then Some(b.(turnDuration := Some(ms))) else None
    case SetEffectDuration(ms) => if b.Effect? && Timed(b.state) then Some(b.(state := WithDuration(b.state, Some(ms)))) else None
    case ReplaceDetail(detail) => if b.Effect? then Some(b.(detail := detail)) else None
    case ReplaceChild(child) => if b.Effect? && b.detail.Subagent? then Some(b.(detail := b.detail.(child := child))) else None
    case ReplaceMessage(message) => if b.Checkpoint? then Some(b.(message := Some(message))) else None
    case ReplaceDetails(details) => if b.Checkpoint? then Some(b.(details := details)) else None
    case AppendContent(text) =>
      if b.Message? && |b.content| > 0 && b.content[0].Text? then Some(b.(content := b.content[0 := Text(b.content[0].text + text)])) else None
    case AppendText(text) => if b.Reasoning? then Some(Reasoning(b.text + text)) else None
    case AppendOutput(text) =>
      if b.Effect? && !b.state.Pending? && !b.state.Skipped? then Some(b.(state := b.state.(outputText := b.state.outputText + text))) else None
    case _ => Some(b)
  }

  function Apply(op: Op, e: Entry): Option<Entry> {
    match op
    case ReplaceGeneration(generation) => Some(e.(generation := generation))
    case ReplaceUpdatedAt(stamp) => Some(e.(updatedAt := stamp))
    case _ =>
      match ApplyBody(op, e.body)
      case None => None
      case Some(b) => Some(e.(body := b))
  }

  function ApplyAll(ops: seq<Op>, e: Entry): Option<Entry> {
    if |ops| == 0 then Some(e)
    else
      match Apply(ops[0], e)
      case None => None
      case Some(next) => ApplyAll(ops[1..], next)
  }

  predicate SameKind(a: Body, b: Body) {
    || (a.Message? && b.Message?) || (a.Reasoning? && b.Reasoning?) || (a.Effect? && b.Effect?)
    || (a.Callback? && b.Callback?) || (a.Checkpoint? && b.Checkpoint?) || (a.Notice? && b.Notice?)
  }

  /** The same type, id, session, turn and creation time. */
  predicate SameIdentity(a: Entry, b: Entry) {
    && SameKind(a.body, b.body)
    && a.id == b.id && a.sessionId == b.sessionId && a.turnId == b.turnId && a.createdAt == b.createdAt
  }

  /** A message keeps its speaker, and its blocks their number and kinds. */
  predicate SameVoice(a: Body, b: Body) {
    a.Message? && b.Message? ==> a.role == b.role && SameBlocks(a.content, b.content)
  }

  predicate SameBlocks(a: seq<Block>, b: seq<Block>) {
    |a| == |b| && forall i :: 0 <= i < |a| ==> (a[i].Text? <==> b[i].Text?)
  }

  /** One operation of a patch a completed entry still accepts: a duration, or a
      replay of what the entry already holds. */
  predicate Replays(e: Entry, op: Op) {
    match op
    case SetTurnDuration(_) => e.body.Message? && e.body.role.Assistant?
    case SetEffectDuration(_) => e.body.Effect? && Timed(e.body.state)
    case ReplaceGeneration(g) => g == e.generation
    case ReplaceEffectState(s) => e.body.Effect? && (if Timed(e.body.state) then WithDuration(s, None) == WithDuration(e.body.state, None) else s == e.body.state)
    case ReplaceCallbackState(s) => e.body.Callback? && s == e.body.answer
    case _ => false
  }

  predicate TimingOnly(e: Entry, ops: seq<Op>) {
    |ops| > 0 && forall i :: 0 <= i < |ops| ==> Replays(e, ops[i])
  }

  /** An entry after a patch; none when the patch is refused. A completed entry
      takes timing-only patches alone. */
  function Revise(e: Entry, ops: seq<Op>): Option<Entry> {
    if e.generation.Completed? && !TimingOnly(e, ops) then None else ApplyAll(ops, e)
  }

  /** Every patch but a timing-only one also moves `updatedAt`. */
  function Stamped(e: Entry, ops: seq<Op>, now: int): seq<Op> {
    if TimingOnly(e, ops) then ops else ops + [ReplaceUpdatedAt(now)]
  }

  /** Stamping changes nothing about whether a completed entry takes a patch. */
  lemma StampedAlike(e: Entry, ops: seq<Op>, now: int)
    ensures TimingOnly(e, Stamped(e, ops, now)) <==> TimingOnly(e, ops)
  {
    if !TimingOnly(e, ops) {
      assert !Replays(e, Stamped(e, ops, now)[|ops|]);
    }
  }

  /** `b` is `a` up to an assistant message's turn duration or a timed effect's duration. */
  predicate SameButDuration(a: Body, b: Body) {
    || a == b
    || (a.Message? && b.Message? && a.role.Assistant? && b == a.(turnDuration := b.turnDuration))
    || (a.Effect? && b.Effect? && Timed(a.state) && Timed(b.state) && b == a.(state := b.state)
        && WithDuration(a.state, None) == WithDuration(b.state, None))
  }

  predicate Frozen(a: Entry, b: Entry) {
    b == a.(body := b.body) && SameButDuration(a.body, b.body)
  }

  // Completion: what a completed entry must look like.

  /** No effect left running or blocked and no callback left open. */
  predicate Closed(b: Body) {
    match b
    case Effect(_, _, state) => Settled(state)
    case Callback(_, _, _, answer) => !answer.Open?
    case _ => true
  }

  predicate Tidy(e: Entry) {
    e.generation.Completed? ==> Closed(e.body)
  }

  /** An operation that only applies to a body it closes. */
  predicate Closes(op: Op) {
    || (op.ReplaceEffectState? && Settled(op.state))
    || (op.ReplaceCallbackState? && !op.answer.Open?)
    || op.ReplaceMessage?
  }

  predicate LeavesState(op: Op) {
    op.ReplaceGeneration? || op.ReplaceDetails? || op.ReplaceUpdatedAt?
  }

  /** A patch that completes an entry only together with its state. */
  predicate Proper(ops: seq<Op>) {
    || (forall i :: 0 <= i < |ops| ==> !ops[i].ReplaceGeneration?)
    || (|ops| > 0 && Closes(ops[0]) && forall i :: 0 < i < |ops| ==> LeavesState(ops[i]))
  }

  lemma {:induction false} KeepsGeneration(ops: seq<Op>, e: Entry)
    requires ApplyAll(ops, e).Some? && forall i :: 0 <= i < |ops| ==> !ops[i].ReplaceGeneration?
    ensures ApplyAll(ops, e).value.generation == e.generation
    decreases |ops|
  {
    if |ops| > 0 { KeepsGeneration(ops[1..], Apply(ops[0], e).value); }
  }

  lemma {:induction false} KeepsClosed(ops: seq<Op>, e: Entry)
    requires ApplyAll(ops, e).Some? && Closed(e.body) && forall i :: 0 <= i < |ops| ==> LeavesState(ops[i])
    ensures Closed(ApplyAll(ops, e).value.body)
    decreases |ops|
  {
    if |ops| > 0 { KeepsClosed(ops[1..], Apply(ops[0], e).value); }
  }

  /** A proper patch never leaves an entry completed but open. */
  lemma ProperKeepsTidy(e: Entry, ops: seq<Op>)
    requires Tidy(e) && Proper(ops) && Revise(e, ops).Some?
    ensures Tidy(Revise(e, ops).value)
  {
    if e.generation.Completed? {
      TimingOnlyFreezes(e, ops);
    } else if forall i :: 0 <= i < |ops| ==> !ops[i].ReplaceGeneration? {
      KeepsGeneration(ops, e);
    } else {
      assert Closed(Apply(ops[0], e).value.body);
      KeepsClosed(ops[1..], Apply(ops[0], e).value);
    }
  }

  lemma ApplyReplay(e: Entry, current: Entry, op: Op)
    requires Replays(e, op) && Frozen(e, current)
    ensures Apply(op, current).Some? && Frozen(e, Apply(op, current).value)
  {
  }

  lemma {:induction false} ReplayAll(e: Entry, current: Entry, ops: seq<Op>)
    requires Frozen(e, current) && forall i :: 0 <= i < |ops| ==> Replays(e, ops[i])
    ensures ApplyAll(ops, current).Some? && Frozen(e, ApplyAll(ops, current).value)
    decreases |ops|
  {
    if |ops| > 0 {
      ApplyReplay(e, current, ops[0]);
      ReplayAll(e, Apply(ops[0], current).value, ops[1..]);
    }
  }

  /** A patch recognized as timing-only always applies, and moves nothing but a
      duration. */
  lemma TimingOnlyFreezes(e: Entry, ops: seq<Op>)
    requires TimingOnly(e, ops)
    ensures ApplyAll(ops, e).Some? && Frozen(e, ApplyAll(ops, e).value)
  {
    ReplayAll(e, e, ops);
  }

  lemma {:induction false} ApplyKeepsIdentity(ops: seq<Op>, e: Entry)
    requires ApplyAll(ops, e).Some?
    ensures SameIdentity(e, ApplyAll(ops, e).value) && SameVoice(e.body, ApplyAll(ops, e).value.body)
  {
    if |ops| > 0 { ApplyKeepsIdentity(ops[1..], Apply(ops[0], e).value); }
  }

  /** Conversely, a patch that any completed entry refuses really would have
      changed it: an operation other than a duration is a replay exactly when
      applying it alone leaves the entry as it is, durations aside. */
  lemma ReplayIffUnchanged(e: Entry, op: Op)
    requires op.ReplaceGeneration? || op.ReplaceCallbackState? || op.ReplaceEffectState?
    ensures Replays(e, op) <==> Apply(op, e).Some? && Frozen(e, Apply(op, e).value)
  {
  }

  // Text.

  predicate Wordless(op: Op) {
    !op.AppendContent? && !op.AppendText?
  }

  predicate AllWordless(ops: seq<Op>) {
    forall i :: 0 <= i < |ops| ==> Wordless(ops[i])
  }

  function TextsOf(content: seq<Block>): (r: seq<string>)
    ensures |r| <= |content|
  {
    if |content| == 0 then [] else (if content[0].Text? then [content[0].text] else []) + TextsOf(content[1..])
  }

  const SEPARATOR: string := "\n\n"

  function Join(texts: seq<string>): string {
    if |texts| == 0 then "" else if |texts| == 1 then texts[0] else texts[0] + SEPARATOR + Join(texts[1..])
  }

  /** The `text` of a message, or of a reasoning entry. */
  function TextOf(b: Body): string {
    match b
    case Message(_, content, _, _) => Join(TextsOf(content))
    case Reasoning(text) => text
    case _ => ""
  }

  /** The kinds of entry that carry a text. */
  predicate Textual(b: Body) {
    b.Message? || b.Reasoning?
  }

  /** A body whose text is one piece, so that appending to it extends the text. */
  predicate OnePiece(b: Body) {
    b.Message? ==> |TextsOf(b.content)| <= 1
  }

  lemma {:induction false} SameTextCount(a: seq<Block>, b: seq<Block>)
    requires SameBlocks(a, b)
    ensures |TextsOf(a)| == |TextsOf(b)|
  {
    if |a| > 0 {
      assert forall i :: 0 <= i < |a| - 1 ==> a[1..][i] == a[i + 1] && b[1..][i] == b[i + 1];
      SameTextCount(a[1..], b[1..]);
    }
  }

  lemma ApplyExtends(op: Op, e: Entry)
    requires Apply(op, e).Some?
    ensures var f := Apply(op, e).value;
            && (Wordless(op) ==> TextOf(f.body) == TextOf(e.body))
            && (OnePiece(e.body) ==> OnePiece(f.body))
            && (OnePiece(e.body) && !Wordless(op) ==> TextOf(f.body) == TextOf(e.body) + op.text)
  {
    var f := Apply(op, e).value;
    if op.AppendContent? {
      var a, b := e.body.content, f.body.content;
      assert a[1..] == b[1..];
      SameTextCount(a, b);
      if OnePiece(e.body) { assert TextsOf(a) == [a[0].text] && TextsOf(b) == [b[0].text]; }
    }
  }

  lemma {:induction false} ApplyAllExtends(ops: seq<Op>, e: Entry)
    requires ApplyAll(ops, e).Some? && OnePiece(e.body)
    ensures var f := ApplyAll(ops, e).value;
            OnePiece(f.body) && TextOf(e.body) <= TextOf(f.body)
    decreases |ops|
  {
    if |ops| > 0 {
      ApplyExtends(ops[0], e);
      ApplyAllExtends(ops[1..], Apply(ops[0], e).value);
    }
  }

  lemma {:induction false} WordlessKeepsText(ops: seq<Op>, e: Entry)
    requires ApplyAll(ops, e).Some? && AllWordless(ops)
    ensures TextOf(ApplyAll(ops, e).value.body) == TextOf(e.body)
    decreases |ops|
  {
    if |ops| > 0 {
      ApplyExtends(ops[0], e);
      WordlessKeepsText(ops[1..], Apply(ops[0], e).value);
    }
  }
}
