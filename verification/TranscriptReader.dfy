/** The transcript readers as they run: index the messages in one pass, then
    materialize only the selected entries. Each is proved to answer exactly what
    the full-projection reference answers. */
module TranscriptReader {
  import opened Wrappers
  import opened TranscriptModel
  import opened TranscriptIndex
  import opened TranscriptPage
  import opened TranscriptEntries

  // ---- index builders ----

  /** The inner loop over one message's tool calls. */
  method DescribeSavedCalls(message: Message, i: nat, before: seq<Descriptor>, known: map<string, (nat, nat)>)
    returns (descriptors: seq<Descriptor>, callsById: map<string, (nat, nat)>)
    ensures descriptors == before + CallDescriptors(message, i, |before|, |message.calls|)
    ensures callsById == AddCalls(message, i, |message.calls|, known)
  {
    descriptors, callsById := before, known;
    for position := 0 to |message.calls|
      invariant descriptors == before + CallDescriptors(message, i, |before|, position)
      invariant callsById == AddCalls(message, i, position, known)
    {
      var call := message.calls[position];
      if call.NotACall? {
        continue;
      }
      var callId := Present(call.id);
      descriptors := descriptors + [Descriptor(|descriptors|, i, ToolCall, "call:" + Decimal(position), Present(message.messageId), Some(position))];
      if callId.Some? {
        callsById := callsById[callId.value := (i, position)];
      }
    }
  }

  /** The assistant branch of the loop below. */
  method DescribeSavedAssistant(message: Message, i: nat, before: seq<Descriptor>, known: map<string, (nat, nat)>)
    returns (descriptors: seq<Descriptor>, callsById: map<string, (nat, nat)>)
    requires message.role.Assistant?
    ensures descriptors == before + MessageDescriptors(message, i, |before|)
    ensures callsById == MessageCalls(message, i, known)
  {
    descriptors := before;
    if TextOf(message.reasoning).Some? {
      descriptors := descriptors + [Descriptor(|descriptors|, i, Reasoning, "reasoning", ReasoningIdentity(message), None)];
    }
    if TextOf(message.content).Some? {
      descriptors := descriptors + [Descriptor(|descriptors|, i, AssistantText, "text", Present(message.messageId), None)];
    }
    assert descriptors == before + AssistantHead(message, i, |before|);
    descriptors, callsById := DescribeSavedCalls(message, i, descriptors, known);
  }

  method DescribeSavedMessages(messages: seq<Message>) returns (x: Index)
    ensures x == IndexOf(messages)
  {
    var descriptors, callsById, resultsById := [], map[], map[];
    for i := 0 to |messages|
      invariant descriptors == Descriptors(messages, i)
      invariant callsById == CallsById(messages, i)
      invariant resultsById == ResultsById(messages, i)
    {
      var message := messages[i];
      match message.role
      case User =>
        if TextOf(message.content).Some? {
          descriptors := descriptors + [Descriptor(|descriptors|, i, UserText, "text", Present(message.messageId), None)];
        }
      case Assistant =>
        descriptors, callsById := DescribeSavedAssistant(message, i, descriptors, callsById);
      case Tool =>
        var callId := Present(message.toolCallId);
        descriptors := descriptors + [Descriptor(|descriptors|, i, ToolResult, "result", Present(message.messageId), None)];
        if callId.Some? {
          resultsById := resultsById[callId.value := i];
        }
      case _ =>
    }
    x := Index(descriptors, callsById, resultsById);
  }

  /** Python's `a or b` on identifiers; an empty one and an absent one name no
      message alike. */
  function OrElse(a: Option<string>, b: Option<string>): Option<string> {
    if Present(a).Some? then a else b
  }

  /** The live builder's inner loop: every call of a message object is a call. */
  method DescribeLiveCalls(message: LiveMessage, i: nat, before: seq<Descriptor>, known: map<string, (nat, nat)>)
    returns (descriptors: seq<Descriptor>, callsById: map<string, (nat, nat)>)
    ensures descriptors == before + CallDescriptors(Dump(message), i, |before|, |message.calls|)
    ensures callsById == AddCalls(Dump(message), i, |message.calls|, known)
  {
    descriptors, callsById := before, known;
    ghost var dumped := Dump(message);
    for position := 0 to |message.calls|
      invariant descriptors == before + CallDescriptors(dumped, i, |before|, position)
      invariant callsById == AddCalls(dumped, i, position, known)
    {
      var callId := Present(message.calls[position].id);
      assert dumped.calls[position] == Call(message.calls[position].id, message.calls[position].body);
      descriptors := descriptors + [Descriptor(|descriptors|, i, ToolCall, "call:" + Decimal(position), Present(message.messageId), Some(position))];
      if callId.Some? {
        callsById := callsById[callId.value := (i, position)];
      }
    }
  }

  /** The text entries of a live assistant message. */
  method DescribeLiveHead(message: LiveMessage, i: nat, before: seq<Descriptor>) returns (descriptors: seq<Descriptor>)
    ensures descriptors == before + AssistantHead(Dump(message), i, |before|)
  {
    descriptors := before;
    if message.reasoning.Some? {
      descriptors := descriptors
        + [Descriptor(|descriptors|, i, Reasoning, "reasoning", Present(OrElse(message.reasoningId, message.messageId)), None)];
    }
    if message.content.Some? {
      descriptors := descriptors + [Descriptor(|descriptors|, i, AssistantText, "text", Present(message.messageId), None)];
    }
  }

  method DescribeLiveAssistant(message: LiveMessage, i: nat, before: seq<Descriptor>, known: map<string, (nat, nat)>)
    returns (descriptors: seq<Descriptor>, callsById: map<string, (nat, nat)>)
    requires message.role.Assistant?
    ensures descriptors == before + MessageDescriptors(Dump(message), i, |before|)
    ensures callsById == MessageCalls(Dump(message), i, known)
  {
    ghost var head := AssistantHead(Dump(message), i, |before|);
    descriptors := DescribeLiveHead(message, i, before);
    descriptors, callsById := DescribeLiveCalls(message, i, descriptors, known);
    ghost var calls := CallDescriptors(Dump(message), i, |before| + |head|, |message.calls|);
    assert descriptors == before + (head + calls);
  }

  /** One message of the live builder. */
  method DescribeLiveMessage(messages: seq<LiveMessage>, ghost dumped: seq<Message>, i: nat, before: Index) returns (after: Index)
    requires i < |messages| && dumped == DumpAll(messages)
    requires before == IndexUpTo(dumped, i)
    ensures after == IndexUpTo(dumped, i + 1)
  {
    var message := messages[i];
    var descriptors, callsById, resultsById := before.descriptors, before.callsById, before.resultsById;
    assert dumped[i] == Dump(message);
    match message.role {
    case User =>
      if message.content.Some? {
        descriptors := descriptors + [Descriptor(|descriptors|, i, UserText, "text", Present(message.messageId), None)];
      }
    case Assistant =>
      descriptors, callsById := DescribeLiveAssistant(message, i, descriptors, callsById);
    case Tool =>
      var callId := Present(message.toolCallId);
      descriptors := descriptors + [Descriptor(|descriptors|, i, ToolResult, "result", Present(message.messageId), None)];
      if callId.Some? {
        resultsById := resultsById[callId.value := i];
      }
    case _ =>
    }
    after := Index(descriptors, callsById, resultsById);
  }

  method DescribeLiveMessages(messages: seq<LiveMessage>) returns (x: Index)
    ensures x == IndexOf(DumpAll(messages))
  {
    ghost var dumped := DumpAll(messages);
    x := Index([], map[], map[]);
    assert x == IndexUpTo(dumped, 0);
    for i := 0 to |messages|
      invariant x == IndexUpTo(dumped, i)
    {
      x := DescribeLiveMessage(messages, dumped, i, x);
    }
  }

  // ---- materializing ----

  datatype Source = Saved(messages: seq<Message>) | Live(live: seq<LiveMessage>)

  function Messages(s: Source): seq<Message> {
    match s
    case Saved(messages) => messages
    case Live(live) => DumpAll(live)
  }

  /** Materializes selected entries, dumping each live message at most once. */
  class EntryMaterializer {
    const rules: Rules
    const index: Index
    const source: Source
    var dumped: map<nat, Message>

    ghost predicate Valid()
      reads this
    {
      && index == IndexOf(Messages(source))
      && forall i :: i in dumped ==> i < |Messages(source)| && dumped[i] == Messages(source)[i]
    }

    constructor (rules: Rules, index: Index, source: Source)
      requires index == IndexOf(Messages(source))
      ensures Valid() && this.rules == rules && this.index == index && this.source == source && dumped == map[]
    {
      this.rules, this.index, this.source := rules, index, source;
      dumped := map[];
    }

    /** One message's record; a cached dump is never replaced. */
    method MessageAt(i: nat) returns (m: Message)
      requires Valid() && i < |Messages(source)|
      modifies this
      ensures Valid() && m == Messages(source)[i]
      ensures dumped == if source.Saved? || i in old(dumped) then old(dumped) else old(dumped)[i := m]
    {
      if source.Saved? {
        return source.messages[i];
      }
      if i !in dumped {
        dumped := dumped[i := Dump(source.live[i])];
      }
      m := dumped[i];
    }

    method MaterializeCall(d: Descriptor, m: Message) returns (e: Option<Entry>)
      requires Valid() && d.kind.ToolCall? && d.messageIndex < |Messages(source)| && m == Messages(source)[d.messageIndex]
      modifies this
      ensures Valid() && e == Materialize(rules, Messages(source), index, d)
    {
      if d.callPosition.None? || d.callPosition.value >= |m.calls| {
        return None;
      }
      var call := m.calls[d.callPosition.value];
      if call.NotACall? {
        return None;
      }
      ResultsAgree(Messages(source), |Messages(source)|);
      var callId, result := Present(call.id), None;
      if callId.Some? && callId.value in index.resultsById {
        var message := MessageAt(index.resultsById[callId.value]);
        result := Some(message);
      }
      e := Some(CallEntry(rules, m, d.messageIndex, d.order, d.callPosition.value, rules.projectCall(call.body), result));
    }

    method MaterializeResult(d: Descriptor, m: Message) returns (e: Option<Entry>)
      requires Valid() && d.kind.ToolResult? && d.messageIndex < |Messages(source)| && m == Messages(source)[d.messageIndex]
      modifies this
      ensures Valid() && e == Materialize(rules, Messages(source), index, d)
    {
      var callId, projection := ResultCallId(m, d.messageIndex), None;
      CallLocations(Messages(source));
      if callId in index.callsById {
        var location := index.callsById[callId];
        var assistant := MessageAt(location.0);
        if location.1 < |assistant.calls| && assistant.calls[location.1].Call? {
          projection := Some(rules.projectCall(assistant.calls[location.1].body));
        }
      }
      e := Some(ResultEntry(rules, m, d.messageIndex, d.order, projection));
    }

    method MaterializeEntry(d: Descriptor) returns (e: Option<Entry>)
      requires Valid() && d.messageIndex < |Messages(source)|
      modifies this
      ensures Valid() && e == Materialize(rules, Messages(source), index, d)
    {
      var m := MessageAt(d.messageIndex);
      match d.kind
      case UserText => e := UserEntry(rules, m, d.messageIndex, d.order);
      case AssistantText => e := AssistantTextEntry(rules, m, d.messageIndex, d.order);
      case Reasoning => e := ReasoningEntry(rules, m, d.messageIndex, d.order);
      case ToolCall => e := MaterializeCall(d, m);
      case ToolResult => e := MaterializeResult(d, m);
    }
  }

  // ---- selecting a page ----

  /** Everything the page loop needs to know about its descriptors. */
  lemma IndexServes(r: Rules, ms: seq<Message>)
    ensures var ds, es := IndexOf(ms).descriptors, ProjectEntries(r, ms);
            && |ds| == |es|
            && (forall i :: 0 <= i < |es| ==> ds[i].messageIndex < |ms| && DescriptorId(r, ds[i]) == es[i].entryId && ds[i].order == i)
            && Materialized(r, ms, IndexOf(ms), ds) == Somes(es)
  {
    var x, es := IndexOf(ms), ProjectEntries(r, ms);
    IndexFindsProjection(r, ms);
    forall i | 0 <= i < |es| ensures StandsFor(r, ms, x, x.descriptors[i], es[i]) {}
  }

  /** The first descriptor with this entry id, which stands for the first such entry. */
  method FindDescriptor(r: Rules, descriptors: seq<Descriptor>, id: string, ghost es: seq<Entry>) returns (found: Option<Descriptor>)
    requires |descriptors| == |es| && forall i :: 0 <= i < |es| ==> DescriptorId(r, descriptors[i]) == es[i].entryId
    ensures found == if FirstWithId(es, id) < |es| then Some(descriptors[FirstWithId(es, id)]) else None
  {
    for i := 0 to |descriptors|
      invariant FirstWithId(es, id) >= i
    {
      if DescriptorId(r, descriptors[i]) == id {
        assert es[i].entryId == id;
        return Some(descriptors[i]);
      }
    }
    return None;
  }

  function Materialized(r: Rules, ms: seq<Message>, x: Index, ds: seq<Descriptor>): (es: seq<Option<Entry>>)
    ensures |es| == |ds|
  {
    seq(|ds|, i requires 0 <= i < |ds| => if ds[i].messageIndex < |ms| then Materialize(r, ms, x, ds[i]) else None)
  }

  function Somes(c: seq<Entry>): (es: seq<Option<Entry>>)
    ensures |es| == |c|
  {
    seq(|c|, i requires 0 <= i < |c| => Some(c[i]))
  }

  /** Descriptors that materialize to exactly these entries. */
  ghost predicate Serves(m: EntryMaterializer, candidates: seq<Descriptor>, c: seq<Entry>) {
    Materialized(m.rules, Messages(m.source), m.index, candidates) == Somes(c)
  }

  method MaterializeCandidate(m: EntryMaterializer, candidates: seq<Descriptor>, i: nat, ghost c: seq<Entry>) returns (e: Option<Entry>)
    requires m.Valid() && Serves(m, candidates, c) && i < |c| == |candidates|
    modifies m
    ensures m.Valid() && e == Some(c[i])
  {
    assert Materialized(m.rules, Messages(m.source), m.index, candidates)[i] == Somes(c)[i];
    e := m.MaterializeEntry(candidates[i]);
  }

  /** Whether the page would still fit with `e`, the next older candidate, added:
      the page loop's size check, which is what the greedy count decides by. */
  method FitsWith(r: Rules, e: Entry, selectedSizes: seq<nat>, hasMore: bool, ghost c: seq<Entry>, ghost limit: nat) returns (fits: bool)
    requires |selectedSizes| < |c| && |selectedSizes| != limit && e == c[|c| - |selectedSizes| - 1]
    requires Sum(selectedSizes) == TotalSize(r, Newest(c, |selectedSizes|)) && hasMore == (|c| > |selectedSizes| + 1)
    ensures var k := |selectedSizes|;
            Greedy(TriedSizes(r, c), limit, k) == if fits then Greedy(TriedSizes(r, c), limit, k + 1) else k
  {
    assert TriedSizes(r, c)[|selectedSizes|] == TriedSize(r, c, |selectedSizes|);
    fits := ResponseWireSize(r, Sum(selectedSizes), |selectedSizes|, CursorWireSize(r, e), hasMore) + |r.entryJson(e)| <= RESPONSE_BYTE_LIMIT;
  }

  lemma NewestGrows(r: Rules, c: seq<Entry>, k: nat)
    requires k < |c|
    ensures Newest(c, k + 1) == [c[|c| - k - 1]] + Newest(c, k)
    ensures TotalSize(r, Newest(c, k + 1)) == |r.entryJson(c[|c| - k - 1])| + TotalSize(r, Newest(c, k))
  {
    assert Newest(c, k + 1)[1..] == Newest(c, k);
  }

  lemma SumSnoc(sizes: seq<nat>, x: nat)
    ensures Sum(sizes + [x]) == Sum(sizes) + x
  {
    assert (sizes + [x])[..|sizes|] == sizes;
  }

  /** The next older candidate, and whether the page would still fit with it. */
  method TryCandidate(m: EntryMaterializer, candidates: seq<Descriptor>, selectedSizes: seq<nat>, limit: nat, ghost c: seq<Entry>)
    returns (e: Option<Entry>, fits: bool)
    requires m.Valid() && Serves(m, candidates, c) && |candidates| == |c|
    requires |selectedSizes| < |c| && |selectedSizes| != limit
    requires Sum(selectedSizes) == TotalSize(m.rules, Newest(c, |selectedSizes|))
    modifies m
    ensures m.Valid() && e == Some(c[|c| - |selectedSizes| - 1])
    ensures var k := |selectedSizes|;
            Greedy(TriedSizes(m.rules, c), limit, k) == if fits then Greedy(TriedSizes(m.rules, c), limit, k + 1) else k
  {
    e := MaterializeCandidate(m, candidates, |candidates| - |selectedSizes| - 1, c);
    fits := FitsWith(m.rules, e.value, selectedSizes, |candidates| > |selectedSizes| + 1, c, limit);
  }

  /** The page loop: newest candidate first, until the limit or the ceiling. */
  method SelectEntries(m: EntryMaterializer, candidates: seq<Descriptor>, limit: nat, ghost c: seq<Entry>) returns (selected: seq<Entry>)
    requires m.Valid() && Serves(m, candidates, c) && |candidates| == |c|
    modifies m
    ensures m.Valid() && |selected| == PageCount(m.rules, c, limit) && selected == Newest(c, |selected|)
  {
    var r, i := m.rules, |candidates|;
    var selectedSizes: seq<nat> := [];
    selected := [];
    ghost var tried := TriedSizes(r, c);
    while i > 0
      invariant m.Valid() && 0 <= i <= |c|
      invariant |selectedSizes| == |selected| == |c| - i && selected == Newest(c, |c| - i)
      invariant Sum(selectedSizes) == TotalSize(r, selected)
      invariant Greedy(tried, limit, |c| - i) == Greedy(tried, limit, 0)
    {
      if |selected| == limit {
        break;
      }
      var entry, fits := TryCandidate(m, candidates, selectedSizes, limit, c);
      if !fits {
        break;
      }
      NewestGrows(r, c, |selected|);
      SumSnoc(selectedSizes, |r.entryJson(entry.value)|);
      selected, selectedSizes, i := [entry.value] + selected, selectedSizes + [|r.entryJson(entry.value)|], i - 1;
    }
  }

  method SelectPage(m: EntryMaterializer, candidates: seq<Descriptor>, limit: nat, ghost c: seq<Entry>) returns (page: Response)
    requires m.Valid() && Serves(m, candidates, c) && |candidates| == |c|
    modifies m
    ensures m.Valid() && page == Page(m.rules, c, limit)
  {
    var selected := SelectEntries(m, candidates, limit, c);
    page := AvailableResponse(m.rules, selected, |candidates| > |selected|);
  }

  /** Descriptors with the ids and the positions of these entries. */
  ghost predicate Labels(r: Rules, ds: seq<Descriptor>, es: seq<Entry>) {
    |ds| == |es| && forall i :: 0 <= i < |es| ==> DescriptorId(r, ds[i]) == es[i].entryId && ds[i].order == i
  }

  /** The position of the entry a cursor names, found by its descriptor's id and checked by
      its digest. */
  method LocateBoundary(m: EntryMaterializer, descriptors: seq<Descriptor>, boundary: (string, string), ghost es: seq<Entry>)
    returns (at: Option<nat>)
    requires m.Valid() && Serves(m, descriptors, es) && Labels(m.rules, descriptors, es)
    modifies m
    ensures m.Valid() && at == FindBoundary(es, boundary)
  {
    var found := FindDescriptor(m.rules, descriptors, boundary.0, es);
    if found.None? {
      return None;
    }
    var entry := MaterializeCandidate(m, descriptors, found.value.order, es);
    if entry.None? || entry.value.digest != boundary.1 {
      return None;
    }
    return Some(found.value.order);
  }

  lemma ServesPrefix(m: EntryMaterializer, ds: seq<Descriptor>, es: seq<Entry>, n: nat)
    requires Serves(m, ds, es) && n <= |es| == |ds|
    ensures Serves(m, ds[..n], es[..n])
  {
    var ms := Messages(m.source);
    assert Materialized(m.rules, ms, m.index, ds[..n]) == Materialized(m.rules, ms, m.index, ds)[..n];
    assert Somes(es[..n]) == Somes(es)[..n];
  }

  lemma IndexLabels(m: EntryMaterializer, es: seq<Entry>)
    requires m.Valid() && es == ProjectEntries(m.rules, Messages(m.source))
    ensures Labels(m.rules, m.index.descriptors, es) && Serves(m, m.index.descriptors, es)
  {
    IndexServes(m.rules, Messages(m.source));
  }

  /** What is read before a position. */
  function ReadBefore(r: Rules, es: seq<Entry>, at: Option<nat>, limit: nat): Response
    requires at.Some? ==> at.value <= |es|
  {
    match at
    case None => Unavailable(Changed)
    case Some(i) => Page(r, es[..i], limit)
  }

  lemma ReadsBefore(r: Rules, es: seq<Entry>, cursor: string, limit: nat)
    ensures ReadProjected(r, es, Some(cursor), limit)
         == match DecodeCursor(r, cursor) case None => Unavailable(Changed) case Some(b) => ReadBefore(r, es, FindBoundary(es, b), limit)
  {
  }

  /** The reader shared by every transcript: for every message list, cursor and
      limit it gives the response of the full-projection reference, whose entries show
    consecutive parts of the messages. */
  method ReadSelectedEntries(m: EntryMaterializer, before: Option<string>, limit: nat) returns (page: Response)
    requires m.Valid()
    modifies m
    ensures m.Valid()
    ensures page == ReadProjected(m.rules, ProjectEntries(m.rules, Messages(m.source)), before, limit)
    ensures PageShows(m.rules, Messages(m.source), page)
  {
    ReferenceShows(m.rules, Messages(m.source), before, limit);
    page := ReadEntries(m, before, limit);
  }

  method ReadEntries(m: EntryMaterializer, before: Option<string>, limit: nat) returns (page: Response)
    requires m.Valid()
    modifies m
    ensures m.Valid()
    ensures page == ReadProjected(m.rules, ProjectEntries(m.rules, Messages(m.source)), before, limit)
  {
    var descriptors := m.index.descriptors;
    ghost var es := ProjectEntries(m.rules, Messages(m.source));
    IndexLabels(m, es);
    if before.None? {
      page := SelectPage(m, descriptors, limit, es);
      return;
    }
    ReadsBefore(m.rules, es, before.value, limit);
    var boundary := DecodeCursor(m.rules, before.value);
    if boundary.None? {
      return Unavailable(Changed);
    }
    var at := LocateBoundary(m, descriptors, boundary.value, es);
    if at.None? {
      return Unavailable(Changed);
    }
    ServesPrefix(m, descriptors, es, at.value);
    page := SelectPage(m, descriptors[..at.value], limit, es[..at.value]);
  }
}
