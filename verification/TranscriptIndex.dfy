/** The cheap entry index, the entry materializer, and the full projection they
    stand in for; the index finds exactly the projected entries. */
module TranscriptIndex {
  import opened Wrappers
  import opened TranscriptModel

  datatype Index = Index(
    descriptors: seq<Descriptor>,
    callsById: map<string, (nat, nat)>,
    resultsById: map<string, nat>)

  // ---- what the index builders compute, message by message ----

  /** The descriptors of the first `n` tool calls of one message. */
  function CallDescriptors(m: Message, index: nat, base: nat, n: nat): seq<Descriptor>
    requires n <= |m.calls|
  {
    if n == 0 then []
    else
      var before := CallDescriptors(m, index, base, n - 1);
      if m.calls[n - 1].NotACall? then before
      else before + [Descriptor(base + |before|, index, ToolCall, "call:" + Decimal(n - 1), Present(m.messageId), Some(n - 1))]
  }

  function ReasoningDescriptors(m: Message, index: nat, base: nat): seq<Descriptor> {
    if TextOf(m.reasoning).None? then []
    else [Descriptor(base, index, Reasoning, "reasoning", ReasoningIdentity(m), None)]
  }

  function TextDescriptors(m: Message, index: nat, base: nat, kind: Kind): seq<Descriptor> {
    if TextOf(m.content).None? then []
    else [Descriptor(base, index, kind, "text", Present(m.messageId), None)]
  }

  function AssistantHead(m: Message, index: nat, base: nat): seq<Descriptor> {
    var reasoning := ReasoningDescriptors(m, index, base);
    reasoning + TextDescriptors(m, index, base + |reasoning|, AssistantText)
  }

  function MessageDescriptors(m: Message, index: nat, base: nat): seq<Descriptor> {
    match m.role
    case User => TextDescriptors(m, index, base, UserText)
    case Assistant =>
      var head := AssistantHead(m, index, base);
      head + CallDescriptors(m, index, base + |head|, |m.calls|)
    case Tool => [Descriptor(base, index, ToolResult, "result", Present(m.messageId), None)]
    case _ => []
  }

  function Descriptors(ms: seq<Message>, k: nat): seq<Descriptor>
    requires k <= |ms|
  {
    if k == 0 then []
    else
      var before := Descriptors(ms, k - 1);
      before + MessageDescriptors(ms[k - 1], k - 1, |before|)
  }

  /** Later calls overwrite earlier ones with the same id. */
  function AddCalls(m: Message, index: nat, n: nat, known: map<string, (nat, nat)>): map<string, (nat, nat)>
    requires n <= |m.calls|
  {
    if n == 0 then known
    else
      var before := AddCalls(m, index, n - 1, known);
      if m.calls[n - 1].Call? && Present(m.calls[n - 1].id).Some? then before[m.calls[n - 1].id.value := (index, n - 1)]
      else before
  }

  function CallsById(ms: seq<Message>, k: nat): map<string, (nat, nat)>
    requires k <= |ms|
  {
    if k == 0 then map[] else MessageCalls(ms[k - 1], k - 1, CallsById(ms, k - 1))
  }

  function MessageCalls(m: Message, index: nat, known: map<string, (nat, nat)>): map<string, (nat, nat)> {
    if m.role.Assistant? then AddCalls(m, index, |m.calls|, known) else known
  }

  function MessageResult(m: Message, index: nat, known: map<string, nat>): map<string, nat> {
    if m.role.Tool? && Present(m.toolCallId).Some? then known[m.toolCallId.value := index] else known
  }

  function ResultsById(ms: seq<Message>, k: nat): map<string, nat>
    requires k <= |ms|
  {
    if k == 0 then map[] else MessageResult(ms[k - 1], k - 1, ResultsById(ms, k - 1))
  }

  function IndexUpTo(ms: seq<Message>, k: nat): Index
    requires k <= |ms|
  {
    Index(Descriptors(ms, k), CallsById(ms, k), ResultsById(ms, k))
  }

  function IndexOf(ms: seq<Message>): Index {
    IndexUpTo(ms, |ms|)
  }

  // ---- the materializer's choice of entry for one descriptor ----

  function DescriptorId(r: Rules, d: Descriptor): string {
    EntryId(r, d.identity, d.messageIndex, d.component)
  }

  function PairedResult(ms: seq<Message>, results: map<string, nat>, callId: Option<string>): Option<Message> {
    match callId
    case None => None
    case Some(id) => if id in results && results[id] < |ms| then Some(ms[results[id]]) else None
  }

  function CallAt(ms: seq<Message>, location: (nat, nat)): Option<RawCall> {
    if location.0 < |ms| && location.1 < |ms[location.0].calls| then Some(ms[location.0].calls[location.1]) else None
  }

  function PairedProjection(r: Rules, ms: seq<Message>, calls: map<string, (nat, nat)>, callId: string): Option<Json> {
    if callId !in calls then None
    else
      match CallAt(ms, calls[callId])
      case Some(Call(_, body)) => Some(r.projectCall(body))
      case _ => None
  }

  function Materialize(r: Rules, ms: seq<Message>, x: Index, d: Descriptor): Option<Entry>
    requires d.messageIndex < |ms|
  {
    var m := ms[d.messageIndex];
    match d.kind
    case UserText => UserEntry(r, m, d.messageIndex, d.order)
    case AssistantText => AssistantTextEntry(r, m, d.messageIndex, d.order)
    case Reasoning => ReasoningEntry(r, m, d.messageIndex, d.order)
    case ToolCall =>
      if d.callPosition.None? || d.callPosition.value >= |m.calls| || m.calls[d.callPosition.value].NotACall? then None
      else
        var call := m.calls[d.callPosition.value];
        Some(CallEntry(r, m, d.messageIndex, d.order, d.callPosition.value, r.projectCall(call.body),
                       PairedResult(ms, x.resultsById, Present(call.id))))
    case ToolResult =>
      Some(ResultEntry(r, m, d.messageIndex, d.order,
                       PairedProjection(r, ms, x.callsById, ResultCallId(m, d.messageIndex))))
  }

  // ---- the reference: project every message ----

  function ProjectedCalls(r: Rules, m: Message, n: nat, known: map<string, Json>): map<string, Json>
    requires n <= |m.calls|
  {
    if n == 0 then known
    else
      var before := ProjectedCalls(r, m, n - 1, known);
      if m.calls[n - 1].Call? && Present(m.calls[n - 1].id).Some? then
        before[m.calls[n - 1].id.value := r.projectCall(m.calls[n - 1].body)]
      else before
  }

  function ProjectionsById(r: Rules, ms: seq<Message>, k: nat): map<string, Json>
    requires k <= |ms|
  {
    if k == 0 then map[]
    else if ms[k - 1].role.Assistant? then ProjectedCalls(r, ms[k - 1], |ms[k - 1].calls|, ProjectionsById(r, ms, k - 1))
    else ProjectionsById(r, ms, k - 1)
  }

  function ResultMessages(ms: seq<Message>, k: nat): map<string, Message>
    requires k <= |ms|
  {
    if k == 0 then map[]
    else if ms[k - 1].role.Tool? && Present(ms[k - 1].toolCallId).Some? then
      ResultMessages(ms, k - 1)[ms[k - 1].toolCallId.value := ms[k - 1]]
    else ResultMessages(ms, k - 1)
  }

  function Lookup<V>(m: map<string, V>, key: Option<string>): Option<V> {
    match key
    case None => None
    case Some(k) => if k in m then Some(m[k]) else None
  }

  function ToSeq(e: Option<Entry>): seq<Entry> {
    match e
    case None => []
    case Some(x) => [x]
  }

  function CallEntries(r: Rules, m: Message, index: nat, base: nat, n: nat, results: map<string, Message>): seq<Entry>
    requires n <= |m.calls|
  {
    if n == 0 then []
    else
      var before := CallEntries(r, m, index, base, n - 1, results);
      if m.calls[n - 1].NotACall? then before
      else before + [CallEntry(r, m, index, base + |before|, n - 1, r.projectCall(m.calls[n - 1].body),
                               Lookup(results, Present(m.calls[n - 1].id)))]
  }

  function AssistantHeadEntries(r: Rules, m: Message, index: nat, base: nat): seq<Entry> {
    var reasoning := ToSeq(ReasoningEntry(r, m, index, base));
    reasoning + ToSeq(AssistantTextEntry(r, m, index, base + |reasoning|))
  }

  function AssistantEntries(r: Rules, m: Message, index: nat, base: nat, results: map<string, Message>): seq<Entry> {
    var head := AssistantHeadEntries(r, m, index, base);
    head + CallEntries(r, m, index, base + |head|, |m.calls|, results)
  }

  function MessageEntries(r: Rules, m: Message, index: nat, base: nat, calls: map<string, Json>, results: map<string, Message>): seq<Entry> {
    match m.role
    case User => ToSeq(UserEntry(r, m, index, base))
    case Assistant => AssistantEntries(r, m, index, base, results)
    case Tool => [ResultEntry(r, m, index, base, Lookup(calls, Some(ResultCallId(m, index))))]
    case _ => []
  }

  function EntriesUpTo(r: Rules, ms: seq<Message>, k: nat, calls: map<string, Json>, results: map<string, Message>): seq<Entry>
    requires k <= |ms|
  {
    if k == 0 then []
    else
      var before := EntriesUpTo(r, ms, k - 1, calls, results);
      before + MessageEntries(r, ms[k - 1], k - 1, |before|, calls, results)
  }

  /** The full projection of a transcript. */
  function ProjectEntries(r: Rules, ms: seq<Message>): seq<Entry> {
    EntriesUpTo(r, ms, |ms|, ProjectionsById(r, ms, |ms|), ResultMessages(ms, |ms|))
  }

  // ---- pairing: last occurrence wins, in the index and in the reference ----

  ghost predicate CallHasId(ms: seq<Message>, i: nat, j: nat, id: string) {
    i < |ms| && ms[i].role.Assistant? && j < |ms[i].calls| && ms[i].calls[j].Call? && Present(ms[i].calls[j].id) == Some(id)
  }

  ghost predicate After(a: (nat, nat), b: (nat, nat)) {
    a.0 > b.0 || (a.0 == b.0 && a.1 > b.1)
  }

  /** `calls` maps each id used before position (k, n) to its last use there. */
  ghost predicate LastCalls(ms: seq<Message>, k: nat, n: nat, calls: map<string, (nat, nat)>) {
    && (forall id :: id in calls ==> CallHasId(ms, calls[id].0, calls[id].1, id) && After((k, n), calls[id]))
    && (forall id, i: nat, j: nat :: CallHasId(ms, i, j, id) && After((k, n), (i, j)) ==>
          id in calls && (calls[id] == (i, j) || After(calls[id], (i, j))))
  }

  /** One more call: a new last use of its id, or nothing new. */
  lemma NextCallLast(ms: seq<Message>, k: nat, n: nat, calls: map<string, (nat, nat)>)
    requires k < |ms| && n < |ms[k].calls| && ms[k].role.Assistant? && LastCalls(ms, k, n, calls)
    ensures var call := ms[k].calls[n];
            if call.Call? && Present(call.id).Some? then LastCalls(ms, k, n + 1, calls[call.id.value := (k, n)])
            else LastCalls(ms, k, n + 1, calls)
  {
  }

  lemma {:induction false} AddCallsLast(ms: seq<Message>, k: nat, n: nat, known: map<string, (nat, nat)>)
    requires k < |ms| && n <= |ms[k].calls| && ms[k].role.Assistant?
    requires LastCalls(ms, k, 0, known)
    ensures LastCalls(ms, k, n, AddCalls(ms[k], k, n, known))
  {
    if n > 0 {
      var before := AddCalls(ms[k], k, n - 1, known);
      AddCallsLast(ms, k, n - 1, known);
      assert LastCalls(ms, k, n - 1, before);
      NextCallLast(ms, k, n - 1, before);
    }
  }

  /** The index maps a call id to the last call carrying it, and to nothing else. */
  lemma {:induction false} CallsByIdLast(ms: seq<Message>, k: nat)
    requires k <= |ms|
    ensures LastCalls(ms, k, 0, CallsById(ms, k))
  {
    if k > 0 {
      CallsByIdLast(ms, k - 1);
      if ms[k - 1].role.Assistant? {
        AddCallsLast(ms, k - 1, |ms[k - 1].calls|, CallsById(ms, k - 1));
      }
    }
  }

  /** Every indexed location is inside the transcript. */
  lemma CallLocations(ms: seq<Message>)
    ensures forall id :: id in CallsById(ms, |ms|) ==> CallAt(ms, CallsById(ms, |ms|)[id]).Some?
  {
    CallsByIdLast(ms, |ms|);
  }

  ghost predicate ResultHasId(ms: seq<Message>, i: nat, id: string) {
    i < |ms| && ms[i].role.Tool? && Present(ms[i].toolCallId) == Some(id)
  }

  /** The index maps a call id to its last result message, and to nothing else. */
  lemma {:induction false} ResultsByIdLast(ms: seq<Message>, k: nat)
    requires k <= |ms|
    ensures forall id :: id in ResultsById(ms, k) ==> ResultsById(ms, k)[id] < k && ResultHasId(ms, ResultsById(ms, k)[id], id)
    ensures forall id, i: nat :: i < k && ResultHasId(ms, i, id) ==> id in ResultsById(ms, k) && i <= ResultsById(ms, k)[id]
  {
    if k > 0 { ResultsByIdLast(ms, k - 1); }
  }

  // ---- index and reference agree ----

  lemma {:induction false} AddCallsAgree(r: Rules, ms: seq<Message>, k: nat, n: nat, calls: map<string, (nat, nat)>, projections: map<string, Json>)
    requires k < |ms| && n <= |ms[k].calls|
    requires calls.Keys == projections.Keys
    requires forall id :: id in calls ==> PairedProjection(r, ms, calls, id) == Some(projections[id])
    ensures var c, p := AddCalls(ms[k], k, n, calls), ProjectedCalls(r, ms[k], n, projections);
            c.Keys == p.Keys && forall id :: id in c ==> PairedProjection(r, ms, c, id) == Some(p[id])
  {
    if n > 0 {
      AddCallsAgree(r, ms, k, n - 1, calls, projections);
      var before, c := AddCalls(ms[k], k, n - 1, calls), AddCalls(ms[k], k, n, calls);
      forall id | id in c && c != before && id != ms[k].calls[n - 1].id.value
        ensures PairedProjection(r, ms, c, id) == PairedProjection(r, ms, before, id)
      {}
    }
  }

  lemma {:induction false} CallsAgree(r: Rules, ms: seq<Message>, k: nat)
    requires k <= |ms|
    ensures CallsById(ms, k).Keys == ProjectionsById(r, ms, k).Keys
    ensures forall id :: id in CallsById(ms, k) ==> PairedProjection(r, ms, CallsById(ms, k), id) == Some(ProjectionsById(r, ms, k)[id])
  {
    if k > 0 {
      CallsAgree(r, ms, k - 1);
      AddCallsAgree(r, ms, k - 1, |ms[k - 1].calls|, CallsById(ms, k - 1), ProjectionsById(r, ms, k - 1));
    }
  }

  lemma {:induction false} ResultsAgree(ms: seq<Message>, k: nat)
    requires k <= |ms|
    ensures ResultsById(ms, k).Keys == ResultMessages(ms, k).Keys
    ensures forall id :: id in ResultsById(ms, k) ==> ResultsById(ms, k)[id] < |ms| && ms[ResultsById(ms, k)[id]] == ResultMessages(ms, k)[id]
  {
    if k > 0 { ResultsAgree(ms, k - 1); }
  }

  ghost predicate StandsFor(r: Rules, ms: seq<Message>, x: Index, d: Descriptor, e: Entry) {
    && d.messageIndex < |ms|
    && Materialize(r, ms, x, d) == Some(e)
    && DescriptorId(r, d) == e.entryId
    && d.order == e.ordinal
  }

  /** Descriptors `ds` stand for entries `es`, one to one and in order. */
  ghost predicate Stands(r: Rules, ms: seq<Message>, x: Index, ds: seq<Descriptor>, es: seq<Entry>) {
    Pairwise((d, e) => StandsFor(r, ms, x, d, e), ds, es)
  }

  ghost predicate Pairwise<S, T>(p: (S, T) -> bool, a: seq<S>, b: seq<T>) {
    |a| == |b| && forall i :: 0 <= i < |a| ==> p(a[i], b[i])
  }

  lemma PairwiseConcat<S, T>(p: (S, T) -> bool, a1: seq<S>, b1: seq<T>, a2: seq<S>, b2: seq<T>)
    requires Pairwise(p, a1, b1) && Pairwise(p, a2, b2)
    ensures Pairwise(p, a1 + a2, b1 + b2)
  {
  }

  lemma {:induction false} CallsStand(r: Rules, ms: seq<Message>, x: Index, k: nat, base: nat, n: nat, results: map<string, Message>)
    requires k < |ms| && n <= |ms[k].calls|
    requires x.resultsById == ResultsById(ms, |ms|) && results == ResultMessages(ms, |ms|)
    ensures Stands(r, ms, x, CallDescriptors(ms[k], k, base, n), CallEntries(r, ms[k], k, base, n, results))
  {
    if n > 0 {
      CallsStand(r, ms, x, k, base, n - 1, results);
      ResultsAgree(ms, |ms|);
    }
  }

  // Composition of a message's and a transcript's parts, for any relation.

  lemma HeadPairs(p: (Descriptor, Entry) -> bool, r: Rules, m: Message, k: nat, base: nat)
    requires Pairwise(p, ReasoningDescriptors(m, k, base), ToSeq(ReasoningEntry(r, m, k, base)))
    requires forall b: nat :: Pairwise(p, TextDescriptors(m, k, b, AssistantText), ToSeq(AssistantTextEntry(r, m, k, b)))
    ensures Pairwise(p, AssistantHead(m, k, base), AssistantHeadEntries(r, m, k, base))
  {
    var rd, re := ReasoningDescriptors(m, k, base), ToSeq(ReasoningEntry(r, m, k, base));
    var td, te := TextDescriptors(m, k, base + |rd|, AssistantText), ToSeq(AssistantTextEntry(r, m, k, base + |re|));
    PairwiseConcat(p, rd, re, td, te);
  }

  lemma AssistantPairs(p: (Descriptor, Entry) -> bool, r: Rules, m: Message, k: nat, base: nat, results: map<string, Message>)
    requires m.role.Assistant?
    requires Pairwise(p, AssistantHead(m, k, base), AssistantHeadEntries(r, m, k, base))
    requires forall b: nat :: Pairwise(p, CallDescriptors(m, k, b, |m.calls|), CallEntries(r, m, k, b, |m.calls|, results))
    ensures Pairwise(p, MessageDescriptors(m, k, base), AssistantEntries(r, m, k, base, results))
  {
    var hd, he := AssistantHead(m, k, base), AssistantHeadEntries(r, m, k, base);
    PairwiseConcat(p, hd, he, CallDescriptors(m, k, base + |hd|, |m.calls|), CallEntries(r, m, k, base + |he|, |m.calls|, results));
  }

  lemma {:induction false} TranscriptPairs(p: (Descriptor, Entry) -> bool, r: Rules, ms: seq<Message>, k: nat, calls: map<string, Json>, results: map<string, Message>)
    requires k <= |ms|
    requires forall j: nat, b: nat :: j < |ms| ==> Pairwise(p, MessageDescriptors(ms[j], j, b), MessageEntries(r, ms[j], j, b, calls, results))
    ensures Pairwise(p, Descriptors(ms, k), EntriesUpTo(r, ms, k, calls, results))
  {
    if k > 0 {
      TranscriptPairs(p, r, ms, k - 1, calls, results);
      var ds, es := Descriptors(ms, k - 1), EntriesUpTo(r, ms, k - 1, calls, results);
      PairwiseConcat(p, ds, es, MessageDescriptors(ms[k - 1], k - 1, |ds|), MessageEntries(r, ms[k - 1], k - 1, |es|, calls, results));
    }
  }

  lemma TextStands(r: Rules, ms: seq<Message>, x: Index, k: nat, base: nat)
    requires k < |ms| && ms[k].role.Assistant?
    ensures Stands(r, ms, x, TextDescriptors(ms[k], k, base, AssistantText), ToSeq(AssistantTextEntry(r, ms[k], k, base)))
  {
  }

  lemma ReasoningStands(r: Rules, ms: seq<Message>, x: Index, k: nat, base: nat)
    requires k < |ms| && ms[k].role.Assistant?
    ensures Stands(r, ms, x, ReasoningDescriptors(ms[k], k, base), ToSeq(ReasoningEntry(r, ms[k], k, base)))
  {
  }

  lemma AssistantStands(r: Rules, ms: seq<Message>, x: Index, k: nat, base: nat, calls: map<string, Json>, results: map<string, Message>)
    requires k < |ms| && ms[k].role.Assistant?
    requires x.resultsById == ResultsById(ms, |ms|) && results == ResultMessages(ms, |ms|)
    ensures Stands(r, ms, x, MessageDescriptors(ms[k], k, base), MessageEntries(r, ms[k], k, base, calls, results))
  {
    var p, m := (d, e) => StandsFor(r, ms, x, d, e), ms[k];
    ReasoningStands(r, ms, x, k, base);
    forall b: nat ensures Pairwise(p, TextDescriptors(m, k, b, AssistantText), ToSeq(AssistantTextEntry(r, m, k, b))) {
      TextStands(r, ms, x, k, b);
    }
    forall b: nat ensures Pairwise(p, CallDescriptors(m, k, b, |m.calls|), CallEntries(r, m, k, b, |m.calls|, results)) {
      CallsStand(r, ms, x, k, b, |m.calls|, results);
    }
    HeadPairs(p, r, m, k, base);
    AssistantPairs(p, r, m, k, base, results);
  }

  lemma MessageStands(r: Rules, ms: seq<Message>, x: Index, k: nat, base: nat, calls: map<string, Json>, results: map<string, Message>)
    requires k < |ms| && x.callsById == CallsById(ms, |ms|) && x.resultsById == ResultsById(ms, |ms|)
    requires calls == ProjectionsById(r, ms, |ms|) && results == ResultMessages(ms, |ms|)
    ensures Stands(r, ms, x, MessageDescriptors(ms[k], k, base), MessageEntries(r, ms[k], k, base, calls, results))
  {
    match ms[k].role
    case Assistant => AssistantStands(r, ms, x, k, base, calls, results);
    case Tool => CallsAgree(r, ms, |ms|);
    case _ =>
  }

  ghost predicate Numbered<T>(number: T -> int, ds: seq<T>, base: nat) {
    forall i :: 0 <= i < |ds| ==> number(ds[i]) == base + i
  }

  lemma NumberedConcat<T>(number: T -> int, ds: seq<T>, added: seq<T>, base: nat)
    requires Numbered(number, ds, base) && Numbered(number, added, base + |ds|)
    ensures Numbered(number, ds + added, base)
  {
  }

  ghost predicate Ordered(ds: seq<Descriptor>, base: nat) {
    Numbered((d: Descriptor) => d.order, ds, base)
  }

  lemma {:induction false} TranscriptNumbered(number: Descriptor -> int, ms: seq<Message>, k: nat)
    requires k <= |ms|
    requires forall j: nat, b: nat :: j < |ms| ==> Numbered(number, MessageDescriptors(ms[j], j, b), b)
    ensures Numbered(number, Descriptors(ms, k), 0)
  {
    if k > 0 {
      TranscriptNumbered(number, ms, k - 1);
      var before := Descriptors(ms, k - 1);
      NumberedConcat(number, before, MessageDescriptors(ms[k - 1], k - 1, |before|), 0);
    }
  }

  lemma {:induction false} CallOrders(m: Message, index: nat, base: nat, n: nat)
    requires n <= |m.calls|
    ensures Ordered(CallDescriptors(m, index, base, n), base)
  {
    if n > 0 { CallOrders(m, index, base, n - 1); }
  }

  lemma MessageOrders(m: Message, index: nat, base: nat)
    ensures Ordered(MessageDescriptors(m, index, base), base)
  {
    if m.role.Assistant? {
      var head := AssistantHead(m, index, base);
      CallOrders(m, index, base + |head|, |m.calls|);
      NumberedConcat((d: Descriptor) => d.order, head, CallDescriptors(m, index, base + |head|, |m.calls|), base);
    }
  }

  /** Descriptor `i` of a transcript materializes to entry `i` of its full
      projection, under the same id and at the same position. */
  lemma IndexFindsProjection(r: Rules, ms: seq<Message>)
    ensures Stands(r, ms, IndexOf(ms), IndexOf(ms).descriptors, ProjectEntries(r, ms))
    ensures Ordered(IndexOf(ms).descriptors, 0)
  {
    var x, calls, results := IndexOf(ms), ProjectionsById(r, ms, |ms|), ResultMessages(ms, |ms|);
    var p := (d, e) => StandsFor(r, ms, x, d, e);
    forall j: nat, b: nat | j < |ms|
      ensures Pairwise(p, MessageDescriptors(ms[j], j, b), MessageEntries(r, ms[j], j, b, calls, results))
    {
      MessageStands(r, ms, x, j, b, calls, results);
    }
    TranscriptPairs(p, r, ms, |ms|, calls, results);
    forall j: nat, b: nat | j < |ms| ensures Ordered(MessageDescriptors(ms[j], j, b), b) { MessageOrders(ms[j], j, b); }
    TranscriptNumbered((d: Descriptor) => d.order, ms, |ms|);
  }
}
