/** The text an ACP client receives for one entry: the chunks sent for the client's
    history events, and how they relate to the entry and to the streamed events. */
module StreamedText {
  import opened Wrappers
  import opened History
  import opened Projector
  import opened HistoryClient

  // The chunks of one event.

  /** The part of a text not sent yet; the whole of it if it was rewritten. */
  function TextDelta(previous: string, current: string): string {
    if previous <= current then current[|previous|..] else current
  }

  function NonEmpty(texts: seq<string>): seq<string> {
    if |texts| == 0 then [] else (if texts[0] == "" then [] else [texts[0]]) + NonEmpty(texts[1..])
  }

  /** Text chunks for a new entry. */
  function AddedChunks(b: Body): seq<string> {
    match b
    case Message(_, content, _, _) => NonEmpty(TextsOf(content))
    case Reasoning(text) => NonEmpty([text])
    case _ => []
  }

  /** Text chunks for a changed entry. */
  function UpdatedChunks(previous: Body, current: Body): seq<string> {
    if (previous.Message? && current.Message?) || (previous.Reasoning? && current.Reasoning?)
    then NonEmpty([TextDelta(TextOf(previous), TextOf(current))])
    else []
  }

  function EventChunks(event: ClientEvent, id: string): seq<string> {
    match event
    case EntryAdded(e) => if e.id == id then AddedChunks(e.body) else []
    case EntryUpdated(previous, e) => if e.id == id then UpdatedChunks(previous.body, e.body) else []
  }

  /** All text chunks sent for one entry. */
  function Chunks(events: seq<ClientEvent>, id: string): seq<string> {
    if |events| == 0 then [] else Chunks(events[..|events| - 1], id) + EventChunks(events[|events| - 1], id)
  }

  lemma {:induction false} ConcatTwo(a: seq<string>, b: seq<string>)
    ensures Concat(a + b) == Concat(a) + Concat(b)
  {
    if |a| == 0 {
      assert a + b == b;
    } else {
      assert (a + b)[0] == a[0] && (a + b)[1..] == a[1..] + b;
      ConcatTwo(a[1..], b);
    }
  }

  lemma ConcatOne(text: string)
    ensures Concat(NonEmpty([text])) == text
  {
    assert [text][1..] == [];
    assert NonEmpty([text]) == if text == "" then [] else [text];
  }

  lemma ChunksAppend(events: seq<ClientEvent>, event: ClientEvent, id: string)
    ensures Concat(Chunks(events + [event], id)) == Concat(Chunks(events, id)) + Concat(EventChunks(event, id))
  {
    assert (events + [event])[..|events|] == events;
    ConcatTwo(Chunks(events, id), EventChunks(event, id));
  }

  // The client's side.

  /** The chunks sent so far for an entry make up its text, or nothing was sent and
      the entry is unknown. */
  predicate SentSoFar(c: Client, id: string) {
    if id !in c.entries then Chunks(c.events, id) == []
    else Textual(c.entries[id].body) && OnePiece(c.entries[id].body) ==>
           Concat(Chunks(c.events, id)) == TextOf(c.entries[id].body)
  }

  lemma AddedChunksText(b: Body)
    requires Textual(b) && OnePiece(b)
    ensures Concat(AddedChunks(b)) == TextOf(b)
  {
    match b
    case Message(_, content, _, _) =>
      var texts := TextsOf(content);
      if |texts| == 1 {
        assert texts == [texts[0]];
        ConcatOne(texts[0]);
      }
    case Reasoning(text) => ConcatOne(text);
  }

  /** Whether an entry's text is one piece never changes. */
  lemma RevisePiece(e: Entry, ops: seq<Op>)
    requires Revise(e, ops).Some?
    ensures var f := Revise(e, ops).value;
            SameIdentity(e, f) && (OnePiece(f.body) ==> OnePiece(e.body) && TextOf(e.body) <= TextOf(f.body))
  {
    ApplyKeepsIdentity(ops, e);
    var f := Revise(e, ops).value;
    if e.body.Message? { SameTextCount(e.body.content, f.body.content); }
    if OnePiece(e.body) { ApplyAllExtends(ops, e); }
  }

  lemma SentAdded(c: Client, e: Entry, id: string)
    requires SentSoFar(c, id) && e.id !in c.entries
    ensures SentSoFar(Receive(c, Added(e)).value, id)
  {
    ChunksAppend(c.events, EntryAdded(e), id);
    assert (c.events + [EntryAdded(e)])[..|c.events|] == c.events;
    if e.id == id && Textual(e.body) && OnePiece(e.body) { AddedChunksText(e.body); }
  }

  lemma UpdatedChunksText(p: Body, b: Body)
    requires Textual(b) && SameKind(p, b) && TextOf(p) <= TextOf(b)
    ensures TextOf(p) + Concat(UpdatedChunks(p, b)) == TextOf(b)
  {
    ConcatOne(TextDelta(TextOf(p), TextOf(b)));
  }

  lemma SentUpdated(c: Client, previous: Entry, e: Entry, id: string)
    requires SentSoFar(c, id) && e.id in c.entries && c.entries[e.id] == previous && SameIdentity(previous, e)
    requires OnePiece(e.body) ==> OnePiece(previous.body) && TextOf(previous.body) <= TextOf(e.body)
    ensures SentSoFar(Client(Overwrite(c.history, e.id, e), c.entries[e.id := e], c.events + [EntryUpdated(previous, e)]), id)
  {
    var event := EntryUpdated(previous, e);
    ChunksAppend(c.events, event, id);
    assert (c.events + [event])[..|c.events|] == c.events;
    if e.id == id && Textual(e.body) && OnePiece(e.body) { UpdatedChunksText(previous.body, e.body); }
  }

  predicate Filed(c: Client) {
    forall id :: id in c.entries ==> c.entries[id].id == id
  }

  lemma SentOne(c: Client, u: Update, id: string)
    requires SentSoFar(c, id) && Filed(c) && Receive(c, u).Some?
    ensures SentSoFar(Receive(c, u).value, id) && Filed(Receive(c, u).value)
  {
    match u
    case Added(e) => if e.id !in c.entries { SentAdded(c, e, id); }
    case Patched(other, ops) =>
      if other in c.entries && !CompletedReplay(c.entries[other], ops) {
        RevisePiece(c.entries[other], ops);
        SentUpdated(c, c.entries[other], Revise(c.entries[other], ops).value, id);
      }
    case _ =>
  }

  /** Whatever updates a client accepts, the chunks sent for a message or reasoning entry
      whose text is one piece concatenate to that entry's text. */
  lemma {:induction false} ChunksMakeText(t: seq<Update>, id: string)
    requires ReceiveAll(t).Some?
    ensures SentSoFar(ReceiveAll(t).value, id) && Filed(ReceiveAll(t).value)
  {
    if |t| > 0 {
      ChunksMakeText(t[..|t| - 1], id);
      SentOne(ReceiveAll(t[..|t| - 1]).value, t[|t| - 1], id);
    }
  }
}
