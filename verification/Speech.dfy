/** What streamed events say, and that it is what the ACP client hears: over every run of
    normally returning calls the text of a streamed entry, and the chunks sent for it,
    are the contents of its events, in order. */
module Speech {
  import opened Wrappers
  import opened History
  import opened Projector
  import opened ProjectorHistory
  import opened ProjectorFinish
  import opened ProjectorRuns
  import opened HistoryClient
  import opened StreamedText

  // What is said, by the calls alone.

  function Heard(words: map<string, string>, key: string, text: string): map<string, string> {
    words[key := (if key in words then words[key] else "") + text]
  }

  function SaidNext(words: map<string, string>, call: Call): map<string, string> {
    match call
    case Project(AssistantText(messageId, text, _, _)) => Heard(words, Or(messageId, "assistant"), text)
    case _ => words
  }

  function MusedNext(words: map<string, string>, call: Call): map<string, string> {
    match call
    case Project(ReasoningText(messageId, text, _)) => Heard(words, Or(messageId, "reasoning"), text)
    case _ => words
  }

  /** For each message key, the contents of its assistant events put together. */
  function Said(calls: seq<Call>): map<string, string> {
    if |calls| == 0 then map[] else SaidNext(Said(calls[..|calls| - 1]), calls[|calls| - 1])
  }

  /** The same for reasoning events. */
  function Mused(calls: seq<Call>): map<string, string> {
    if |calls| == 0 then map[] else MusedNext(Mused(calls[..|calls| - 1]), calls[|calls| - 1])
  }

  // What the ledger holds.

  /** The text of the entry each key leads to. */
  function Words(g: Ledger, ids: map<string, string>): map<string, string> {
    map k | k in ids && ids[k] in g.entries :: TextOf(g.entries[ids[k]].body)
  }

  /** Different keys lead to different entries, under real ids. */
  predicate OneToOne(ids: map<string, string>) {
    && (forall j, k :: j in ids && k in ids && ids[j] == ids[k] ==> j == k)
    && (forall k :: k in ids ==> ids[k] != "")
  }

  predicate Pieces(s: State) {
    forall k :: k in s.assistant && s.assistant[k] in s.ledger.entries ==> OnePiece(s.ledger.entries[s.assistant[k]].body)
  }

  predicate Fluent(s: State) {
    Accounted(s) && Owned(s) && OneToOne(s.assistant) && OneToOne(s.reasoning) && Pieces(s)
  }

  /** A fresh identifier is not empty. */
  predicate Minted(call: Call) {
    match call
    case Project(AssistantText(_, _, uuid, _)) => uuid != ""
    case Project(ReasoningText(_, _, uuid)) => uuid != ""
    case _ => true
  }

  // Calls that stream nothing.

  predicate SameWords(g: Ledger, h: Ledger) {
    forall id :: id in g.entries ==> id in h.entries && TextOf(h.entries[id].body) == TextOf(g.entries[id].body)
  }

  lemma PlayQuiet(g: Ledger, u: Update)
    requires Quiet(u) && Play(g, u).Some?
    ensures SameWords(g, Play(g, u).value)
  {
    match u
    case Patched(id, ops) => WordlessKeepsText(ops, g.entries[id]);
    case _ =>
  }

  lemma {:induction false} QuietTrace(t: seq<Update>, n: nat)
    requires n <= |t| && Replay(t).Some? && forall i :: n <= i < |t| ==> Quiet(t[i])
    ensures Replay(t[..n]).Some? && SameWords(Replay(t[..n]).value, Replay(t).value)
  {
    if n == |t| {
      assert t[..n] == t;
    } else {
      var r := t[..|t| - 1];
      assert r[..n] == t[..n];
      QuietTrace(r, n);
      PlayQuiet(Replay(r).value, t[|t| - 1]);
    }
  }

  lemma PiecesStill(s: State, t: State)
    requires Accounted(s) && Accounted(t) && s.trace <= t.trace && SameVoices(s, t) && Owned(s) && Pieces(s)
    ensures Pieces(t)
  {
    EvolvedSince(s, t);
    forall k | k in t.assistant && t.assistant[k] in t.ledger.entries
      ensures OnePiece(t.ledger.entries[t.assistant[k]].body)
    {
      var id := s.assistant[k];
      assert Spoken(s.ledger, id);
      EvolvesKeeps(s.ledger, t.ledger, id);
      SameTextCount(s.ledger.entries[id].body.content, t.ledger.entries[id].body.content);
    }
  }

  lemma FluentStill(s: State, t: State)
    requires Fluent(s) && Accounted(t) && s.trace <= t.trace && SameVoices(s, t)
    ensures Fluent(t)
  {
    OwnedStill(s, t);
    PiecesStill(s, t);
  }

  lemma QuietWords(s: State, t: State)
    requires Accounted(s) && Accounted(t) && s.trace <= t.trace && SameTexts(s, t) && Owned(s)
    ensures Words(t.ledger, t.assistant) == Words(s.ledger, s.assistant)
    ensures Words(t.ledger, t.reasoning) == Words(s.ledger, s.reasoning)
  {
    assert t.trace[..|s.trace|] == s.trace;
    QuietTrace(t.trace, |s.trace|);
    assert forall k :: k in s.assistant ==> Spoken(s.ledger, s.assistant[k]);
    assert forall k :: k in s.reasoning ==> Thought(s.ledger, s.reasoning[k]);
  }

  // An event that continues an entry.

  /** A patch that appends lands its text at the end of that one entry. */
  lemma AppendLands(s: State, id: string, op: Op) returns (f: Entry)
    requires !s.failed && Sound(s.ledger) && id in s.ledger.entries && !Wordless(op) && OnePiece(s.ledger.entries[id].body)
    requires !Patch(s, id, [op]).failed
    ensures var e, t := s.ledger.entries[id], Patch(s, id, [op]);
            t.ledger == Rewrite(s.ledger, id, f) && TextOf(f.body) == TextOf(e.body) + op.text
  {
    var e := s.ledger.entries[id];
    var now := s.clock(s.ticks);
    assert !Replays(e, [op][0]);
    assert Stamped(e, [op], now) == [op, ReplaceUpdatedAt(now)];
    PatchOutcome(s, id, [op]);
    ApplyTwo(op, ReplaceUpdatedAt(now), e);
    ApplyExtends(op, e);
    f := Revise(e, Stamped(e, [op], now)).value;
  }

  lemma ContinuedWords(s: State, ids: map<string, string>, key: string, f: Entry, text: string)
    requires OneToOne(ids) && key in ids && ids[key] in s.ledger.entries
    requires TextOf(f.body) == TextOf(s.ledger.entries[ids[key]].body) + text
    ensures Words(Rewrite(s.ledger, ids[key], f), ids) == Heard(Words(s.ledger, ids), key, text)
  {
  }

  lemma OtherWords(s: State, ids: map<string, string>, id: string, f: Entry)
    requires id in s.ledger.entries && forall k :: k in ids ==> ids[k] != id
    ensures Words(Rewrite(s.ledger, id, f), ids) == Words(s.ledger, ids)
  {
  }

  lemma AssistantContinues(s: State, key: string, text: string)
    requires Fluent(s) && !s.failed && key in s.assistant && !Patch(s, s.assistant[key], [AppendContent(text)]).failed
    ensures var t := Patch(s, s.assistant[key], [AppendContent(text)]);
            && Fluent(t)
            && Words(t.ledger, t.assistant) == Heard(Words(s.ledger, s.assistant), key, text)
            && Words(t.ledger, t.reasoning) == Words(s.ledger, s.reasoning)
  {
    var id := s.assistant[key];
    ReplaySound(s.trace);
    assert Spoken(s.ledger, id);
    var f := AppendLands(s, id, AppendContent(text));
    var t := Patch(s, id, [AppendContent(text)]);
    ContinuedWords(s, s.assistant, key, f, text);
    assert forall k :: k in s.reasoning ==> Thought(s.ledger, s.reasoning[k]);
    OtherWords(s, s.reasoning, id, f);
    FluentStill(s, t);
  }

  lemma ReasoningContinues(s: State, key: string, text: string)
    requires Fluent(s) && !s.failed && key in s.reasoning && !Patch(s, s.reasoning[key], [AppendText(text)]).failed
    ensures var t := Patch(s, s.reasoning[key], [AppendText(text)]);
            && Fluent(t)
            && Words(t.ledger, t.reasoning) == Heard(Words(s.ledger, s.reasoning), key, text)
            && Words(t.ledger, t.assistant) == Words(s.ledger, s.assistant)
  {
    var id := s.reasoning[key];
    ReplaySound(s.trace);
    assert Thought(s.ledger, id);
    var f := AppendLands(s, id, AppendText(text));
    var t := Patch(s, id, [AppendText(text)]);
    ContinuedWords(s, s.reasoning, key, f, text);
    assert forall k :: k in s.assistant ==> Spoken(s.ledger, s.assistant[k]);
    OtherWords(s, s.assistant, id, f);
    FluentStill(s, t);
  }

  // An event that starts an entry.

  lemma NewWords(g: Ledger, ids: map<string, string>, key: string, e: Entry)
    requires e.id !in g.entries && key !in ids && forall k :: k in ids ==> ids[k] in g.entries
    ensures Words(Insert(g, e), ids) == Words(g, ids)
    ensures Words(Insert(g, e), ids[key := e.id]) == Heard(Words(g, ids), key, TextOf(e.body))
  {
    assert "" + TextOf(e.body) == TextOf(e.body);
  }

  /** Adding an entry that is not there yet. */
  lemma AddOutcome(s: State, id: string, body: Body) returns (e: Entry)
    requires !s.failed
    ensures var t := AddNew(s, id, InProgress, None, body, true);
            && (t.failed <==> id in s.ledger.entries)
            && e.id == id && e.body == body && (!t.failed ==> t.ledger == Insert(s.ledger, e))
  {
    var now := s.clock(s.ticks);
    e := Entry(id, s.sessionId, s.turnId, now, now, InProgress, None, body);
  }

  lemma OneToOneMore(g: Ledger, ids: map<string, string>, key: string, id: string)
    requires OneToOne(ids) && id !in g.entries && id != "" && forall k :: k in ids ==> ids[k] in g.entries
    ensures OneToOne(ids[key := id])
  {
  }

  lemma PieceOf(text: string)
    ensures TextsOf([Text(text)]) == [text]
  {
    assert [Text(text)][1..] == [];
  }

  lemma Files(s: State)
    requires Owned(s)
    ensures forall k :: k in s.assistant ==> s.assistant[k] in s.ledger.entries
    ensures forall k :: k in s.reasoning ==> s.reasoning[k] in s.ledger.entries
  {
    assert forall k :: k in s.assistant ==> Spoken(s.ledger, s.assistant[k]);
    assert forall k :: k in s.reasoning ==> Thought(s.ledger, s.reasoning[k]);
  }

  lemma PiecesMore(s: State, t: State, key: string, e: Entry)
    requires Owned(s) && Pieces(s) && e.id !in s.ledger.entries && OnePiece(e.body)
    requires t.ledger == Insert(s.ledger, e) && (t.assistant == s.assistant || t.assistant == s.assistant[key := e.id])
    ensures Pieces(t)
  {
    Files(s);
  }

  function Began(s: State, key: string, id: string, text: string, rest: Json): State {
    AddNew(s.(assistant := s.assistant[key := id]), id, InProgress, None, Message(Assistant, [Text(text)], None, rest), true)
  }

  lemma AssistantBegan(s: State, key: string, id: string, text: string, rest: Json) returns (e: Entry)
    requires !s.failed && !Began(s, key, id, text, rest).failed
    ensures id !in s.ledger.entries && e.id == id && OnePiece(e.body) && TextOf(e.body) == text
    ensures var t := Began(s, key, id, text, rest);
            t.ledger == Insert(s.ledger, e) && t.assistant == s.assistant[key := id] && t.reasoning == s.reasoning
  {
    e := AddOutcome(s.(assistant := s.assistant[key := id]), id, Message(Assistant, [Text(text)], None, rest));
    PieceOf(text);
  }

  lemma AssistantStarts(s: State, key: string, id: string, text: string, rest: Json)
    requires Fluent(s) && !s.failed && key !in s.assistant && id != "" && !Began(s, key, id, text, rest).failed
    ensures var t := Began(s, key, id, text, rest);
            && Fluent(t)
            && Words(t.ledger, t.assistant) == Heard(Words(s.ledger, s.assistant), key, text)
            && Words(t.ledger, t.reasoning) == Words(s.ledger, s.reasoning)
  {
    var t := Began(s, key, id, text, rest);
    var e := AssistantBegan(s, key, id, text, rest);
    Files(s);
    NewWords(s.ledger, s.assistant, key, e);
    OtherNewWords(s.ledger, s.reasoning, e);
    NewAssistantOwned(s, key, id, Message(Assistant, [Text(text)], None, rest));
    OneToOneMore(s.ledger, s.assistant, key, id);
    PiecesMore(s, t, key, e);
    assert Accounted(t) by { assert Accounted(s.(assistant := s.assistant[key := id])); }
  }

  lemma OtherNewWords(g: Ledger, ids: map<string, string>, e: Entry)
    requires e.id !in g.entries && forall k :: k in ids ==> ids[k] in g.entries
    ensures Words(Insert(g, e), ids) == Words(g, ids)
  {
  }

  function BeganThought(s: State, key: string, id: string, text: string): State {
    AddNew(s.(reasoning := s.reasoning[key := id]), id, InProgress, None, Reasoning(text), true)
  }

  lemma ReasoningBegan(s: State, key: string, id: string, text: string) returns (e: Entry)
    requires !s.failed && !BeganThought(s, key, id, text).failed
    ensures id !in s.ledger.entries && e.id == id && OnePiece(e.body) && TextOf(e.body) == text
    ensures var t := BeganThought(s, key, id, text);
            t.ledger == Insert(s.ledger, e) && t.reasoning == s.reasoning[key := id] && t.assistant == s.assistant
  {
    e := AddOutcome(s.(reasoning := s.reasoning[key := id]), id, Reasoning(text));
  }

  lemma ReasoningStarts(s: State, key: string, id: string, text: string)
    requires Fluent(s) && !s.failed && key !in s.reasoning && id != "" && !BeganThought(s, key, id, text).failed
    ensures var t := BeganThought(s, key, id, text);
            && Fluent(t)
            && Words(t.ledger, t.reasoning) == Heard(Words(s.ledger, s.reasoning), key, text)
            && Words(t.ledger, t.assistant) == Words(s.ledger, s.assistant)
  {
    var t := BeganThought(s, key, id, text);
    var e := ReasoningBegan(s, key, id, text);
    Files(s);
    NewWords(s.ledger, s.reasoning, key, e);
    OtherNewWords(s.ledger, s.assistant, e);
    NewReasoningOwned(s, key, id, Reasoning(text));
    OneToOneMore(s.ledger, s.reasoning, key, id);
    PiecesMore(s, t, key, e);
    assert Accounted(t) by { assert Accounted(s.(reasoning := s.reasoning[key := id])); }
  }

  // One call, and runs.

  /** A call that returns adds to the texts exactly what it says. */
  predicate SpeechLaw(s: State, call: Call, t: State) {
    && Fluent(t)
    && Words(t.ledger, t.assistant) == SaidNext(Words(s.ledger, s.assistant), call)
    && Words(t.ledger, t.reasoning) == MusedNext(Words(s.ledger, s.reasoning), call)
  }

  lemma AssistantEither(s: State, messageId: Option<string>, text: string, uuid: string, rest: Json)
    requires OneToOne(s.assistant) && uuid != ""
    ensures var key, t := Or(messageId, "assistant"), ProjectAssistant(s, messageId, text, uuid, rest);
            && (key in s.assistant ==> t == Patch(s, s.assistant[key], [AppendContent(text)]))
            && (key !in s.assistant ==> t == Began(s, key, Or(messageId, uuid), text, rest) && Or(messageId, uuid) != "")
  {
  }

  lemma AssistantSpeaks(s: State, messageId: Option<string>, text: string, uuid: string, rest: Json, t: State)
    requires Fluent(s) && !s.failed && uuid != "" && t == ProjectAssistant(s, messageId, text, uuid, rest) && !t.failed
    ensures Fluent(t)
    ensures Words(t.ledger, t.assistant) == Heard(Words(s.ledger, s.assistant), Or(messageId, "assistant"), text)
    ensures Words(t.ledger, t.reasoning) == Words(s.ledger, s.reasoning)
  {
    var key := Or(messageId, "assistant");
    AssistantEither(s, messageId, text, uuid, rest);
    if key in s.assistant { AssistantContinues(s, key, text); } else { AssistantStarts(s, key, Or(messageId, uuid), text, rest); }
  }

  lemma ReasoningEither(s: State, messageId: Option<string>, text: string, uuid: string)
    requires OneToOne(s.reasoning) && uuid != ""
    ensures var key, t := Or(messageId, "reasoning"), ProjectReasoning(s, messageId, text, uuid);
            && (key in s.reasoning ==> t == Patch(s, s.reasoning[key], [AppendText(text)]))
            && (key !in s.reasoning ==> t == BeganThought(s, key, Or(messageId, uuid), text) && Or(messageId, uuid) != "")
  {
  }

  lemma ReasoningSpeaks(s: State, messageId: Option<string>, text: string, uuid: string, t: State)
    requires Fluent(s) && !s.failed && uuid != "" && t == ProjectReasoning(s, messageId, text, uuid) && !t.failed
    ensures Fluent(t)
    ensures Words(t.ledger, t.reasoning) == Heard(Words(s.ledger, s.reasoning), Or(messageId, "reasoning"), text)
    ensures Words(t.ledger, t.assistant) == Words(s.ledger, s.assistant)
  {
    var key := Or(messageId, "reasoning");
    ReasoningEither(s, messageId, text, uuid);
    if key in s.reasoning { ReasoningContinues(s, key, text); } else { ReasoningStarts(s, key, Or(messageId, uuid), text); }
  }

  lemma QuietSpeaks(s: State, call: Call, t: State)
    requires Fluent(s) && !Streams(call) && StepLaw(s, call, t)
    ensures SpeechLaw(s, call, t)
  {
    FluentStill(s, t);
    QuietWords(s, t);
  }

  lemma AssistantCall(s: State, e: Event)
    requires Fluent(s) && e.AssistantText? && e.uuid != "" && !Step(s, Project(e)).failed
    ensures SpeechLaw(s, Project(e), Step(s, Project(e)))
  {
    AssistantSpeaks(s.(failed := false), e.messageId, e.text, e.uuid, e.rest, Step(s, Project(e)));
  }

  lemma ReasoningCall(s: State, e: Event)
    requires Fluent(s) && e.ReasoningText? && e.uuid != "" && !Step(s, Project(e)).failed
    ensures SpeechLaw(s, Project(e), Step(s, Project(e)))
  {
    ReasoningSpeaks(s.(failed := false), e.messageId, e.text, e.uuid, Step(s, Project(e)));
  }

  lemma StepSpeaks(s: State, call: Call)
    requires Fluent(s) && Minted(call) && !Step(s, call).failed
    ensures SpeechLaw(s, call, Step(s, call))
  {
    if !Streams(call) {
      QuietSpeaks(s, call, Step(s, call));
    } else if call.event.AssistantText? {
      AssistantCall(s, call.event);
    } else {
      ReasoningCall(s, call.event);
    }
  }

  ghost predicate Speaks(step: Stepper) {
    forall s, c :: Fluent(s) && Minted(c) && !step(s, c).failed ==> SpeechLaw(s, c, step(s, c))
  }

  predicate AllMinted(calls: seq<Call>) {
    forall j :: 0 <= j < |calls| ==> Minted(calls[j])
  }

  lemma {:induction false} RunSpeaks(step: Stepper, s: State, calls: seq<Call>)
    requires Speaks(step) && Fluent(s) && s.assistant == map[] && s.reasoning == map[]
    requires AllReturn(step, s, calls) && AllMinted(calls)
    ensures var t := Run(step, s, calls);
            && Fluent(t)
            && Words(t.ledger, t.assistant) == Said(calls)
            && Words(t.ledger, t.reasoning) == Mused(calls)
  {
    if |calls| > 0 {
      var r := calls[..|calls| - 1];
      RunSpeaks(step, s, r);
      assert Minted(calls[|calls| - 1]);
      assert SpeechLaw(Run(step, s, r), calls[|calls| - 1], Run(step, s, calls));
    }
  }

  lemma StepAlwaysSpeaks()
    ensures Speaks(Step)
  {
    forall s, c | Fluent(s) && Minted(c) && !Step(s, c).failed ensures SpeechLaw(s, c, Step(s, c)) { StepSpeaks(s, c); }
  }

  /** The text of every streamed entry of the projector is what its events said. */
  lemma TextsAreSaid(s: State, calls: seq<Call>)
    requires s == Start(s.sessionId, s.turnId, s.preview, s.clock) && AllReturn(Step, s, calls) && AllMinted(calls)
    ensures var t := Run(Step, s, calls);
            && Fluent(t)
            && Words(t.ledger, t.assistant) == Said(calls)
            && Words(t.ledger, t.reasoning) == Mused(calls)
  {
    StepAlwaysSpeaks();
    RunSpeaks(Step, s, calls);
  }

  // What is kept from the client.

  /** No text was added without telling. */
  predicate Mute(t: seq<Update>, n: nat) {
    forall i :: n <= i < |t| && t[i].Silent? ==> !Textual(t[i].entry.body)
  }

  lemma StepMute(s: State, call: Call, t: State)
    requires StepLaw(s, call, t)
    ensures t.failed || Mute(t.trace, |s.trace|)
  {
    if Dropping(s, call) { assert SameTexts(s, t); } else { assert Told(t.trace, |s.trace|); }
  }

  lemma {:induction false} RunMute(step: Stepper, s: State, calls: seq<Call>)
    requires Lawful(step) && Accounted(s) && AllReturn(step, s, calls)
    ensures Mute(Run(step, s, calls).trace, |s.trace|)
  {
    if |calls| > 0 {
      var r := calls[..|calls| - 1];
      RunMute(step, s, r);
      RunAccounted(step, s, r);
      var before, after := Run(step, s, r), Run(step, s, calls);
      assert StepLaw(before, calls[|calls| - 1], after);
      StepMute(before, calls[|calls| - 1], after);
      MuteOn(before.trace, after.trace, |s.trace|);
    }
  }

  lemma MuteOn(t: seq<Update>, u: seq<Update>, n: nat)
    requires n <= |t| && t <= u && Mute(t, n) && Mute(u, |t|)
    ensures Mute(u, n)
  {
    assert forall i :: 0 <= i < |t| ==> t[i] == u[i];
  }

  /** What is silent stays no text, so an entry with a text was announced. */
  lemma TextsAreTold(t: seq<Update>, id: string)
    requires Replay(t).Some? && Mute(t, 0) && id in Replay(t).value.entries && Textual(Replay(t).value.entries[id].body)
    ensures id !in Silenced(t)
  {
    if id in Silenced(t) {
      var i :| 0 <= i < |t| && t[i].Silent? && t[i].entry.id == id;
      var front, e := t[..i + 1], t[i].entry;
      assert front[..i] == t[..i];
      ReplaySound(t);
      ReplayEvolves(t, i + 1);
      ReplaySound(front);
      assert Replay(front).value.entries[id] == e;
      EvolvesKeeps(Replay(front).value, Replay(t).value, id);
      assert false;
    }
  }

  lemma ChunksAreText(t: State, id: string)
    requires Accounted(t) && Mute(t.trace, 0) && (Spoken(t.ledger, id) || Thought(t.ledger, id)) && OnePiece(t.ledger.entries[id].body)
    ensures var c := ReceiveAll(Returned(t.trace));
            c.Some? && Concat(Chunks(c.value.events, id)) == TextOf(t.ledger.entries[id].body)
  {
    ReplayRebuilds(t.trace);
    TextsAreTold(t.trace, id);
    ChunksMakeText(Returned(t.trace), id);
  }

  lemma SpokenIsHeard(t: State, id: string)
    requires Fluent(t) && Mute(t.trace, 0) && exists k :: k in t.assistant && t.assistant[k] == id
    ensures var c := ReceiveAll(Returned(t.trace));
            c.Some? && Concat(Chunks(c.value.events, id)) == TextOf(t.ledger.entries[id].body)
  {
    ChunksAreText(t, id);
  }

  lemma ThoughtIsHeard(t: State, id: string)
    requires Fluent(t) && Mute(t.trace, 0) && exists k :: k in t.reasoning && t.reasoning[k] == id
    ensures var c := ReceiveAll(Returned(t.trace));
            c.Some? && Concat(Chunks(c.value.events, id)) == TextOf(t.ledger.entries[id].body)
  {
    ChunksAreText(t, id);
  }

  /** From the agent's events to the ACP client: if every call returns, the chunks the client is sent for a message are the
      contents of that message's events, no more and no less. */
  lemma RunIsHeard(step: Stepper, s: State, calls: seq<Call>, key: string)
    requires Lawful(step) && Speaks(step) && s == Start(s.sessionId, s.turnId, s.preview, s.clock)
    requires AllReturn(step, s, calls) && AllMinted(calls)
    ensures var t := Run(step, s, calls);
            var c := ReceiveAll(Returned(t.trace));
            && c.Some?
            && (key in Said(calls) ==> key in t.assistant && Concat(Chunks(c.value.events, t.assistant[key])) == Said(calls)[key])
            && (key in Mused(calls) ==> key in t.reasoning && Concat(Chunks(c.value.events, t.reasoning[key])) == Mused(calls)[key])
  {
    var t := Run(step, s, calls);
    RunMute(step, s, calls);
    RunSpeaks(step, s, calls);
    ReplayRebuilds(t.trace);
    if key in Said(calls) { SpokenIsHeard(t, t.assistant[key]); }
    if key in Mused(calls) { ThoughtIsHeard(t, t.reasoning[key]); }
  }

  /** Of the projector itself. */
  lemma ClientHearsWhatIsSaid(s: State, calls: seq<Call>, key: string)
    requires s == Start(s.sessionId, s.turnId, s.preview, s.clock) && AllReturn(Step, s, calls) && AllMinted(calls)
    ensures var t := Run(Step, s, calls);
            var c := ReceiveAll(Returned(t.trace));
            && c.Some?
            && (key in Said(calls) ==> key in t.assistant && Concat(Chunks(c.value.events, t.assistant[key])) == Said(calls)[key])
            && (key in Mused(calls) ==> key in t.reasoning && Concat(Chunks(c.value.events, t.reasoning[key])) == Mused(calls)[key])
  {
    StepIsLawful();
    StepAlwaysSpeaks();
    RunIsHeard(Step, s, calls, key);
  }
}
