/** What a transcript's entries show, part by part: which part of which message each of
    them is, in which order, and what it says of that part and of the call or result that
    goes with it. */
module TranscriptEntries {
  import opened Wrappers
  import opened TranscriptModel
  import opened TranscriptIndex
  import opened TranscriptPage
  import opened TranscriptWalk

  /** The parts of messages that have an entry of their own. */
  datatype Part =
    | TextPart(message: nat)
    | ReasoningPart(message: nat)
    | CallPart(message: nat, position: nat)
    | ResultPart(message: nat)

  /** Where a part comes in its message: reasoning, text, then the calls in order. */
  function Rank(p: Part): nat {
    match p
    case ReasoningPart(_) => 0
    case TextPart(_) => 1
    case CallPart(_, position) => 2 + position
    case ResultPart(_) => 0
  }

  predicate Precedes(p: Part, q: Part) {
    p.message < q.message || (p.message == q.message && Rank(p) < Rank(q))
  }

  /** The text a `content` value reads as. */
  predicate ReadsAs(t: RawText, text: string) {
    (t.PlainText? && t.text == text) || (t.TextParts? && JoinLines(t.parts) == text)
  }

  predicate Has(ms: seq<Message>, p: Part) {
    && p.message < |ms|
    && var m := ms[p.message];
       match p
       case TextPart(_) => (m.role.User? || m.role.Assistant?) && !m.content.NoText?
       case ReasoningPart(_) => m.role.Assistant? && !m.reasoning.NoText?
       case CallPart(_, position) => m.role.Assistant? && position < |m.calls| && m.calls[position].Call?
       case ResultPart(_) => m.role.Tool?
  }

  // The call and the result that go together.

  /** A string that counts as an identifier. */
  predicate Names(id: Option<string>) {
    id.Some? && |id.value| > 0
  }

  predicate AnswersCall(ms: seq<Message>, j: nat, id: Option<string>) {
    j < |ms| && ms[j].role.Tool? && Names(id) && ms[j].toolCallId == id
  }

  /** The last tool message with this call id; none where there is no such message. */
  ghost predicate LastAnswer(ms: seq<Message>, id: Option<string>, answer: Option<Message>) {
    match answer
    case None => forall j: nat :: !AnswersCall(ms, j, id)
    case Some(m) => exists j: nat :: AnswersCall(ms, j, id) && ms[j] == m && forall k: nat :: k > j ==> !AnswersCall(ms, k, id)
  }

  predicate Calls(ms: seq<Message>, i: nat, p: nat, id: string) {
    && i < |ms| && ms[i].role.Assistant? && p < |ms[i].calls| && ms[i].calls[p].Call?
    && |id| > 0 && ms[i].calls[p].id == Some(id)
  }

  /** The call at (i, p) carries this id and no later one does. */
  ghost predicate CallsLast(ms: seq<Message>, i: nat, p: nat, id: string) {
    Calls(ms, i, p, id) && forall k: nat, q: nat :: k > i || (k == i && q > p) ==> !Calls(ms, k, q, id)
  }

  /** What the last call with this id projects to; none where no call has it. */
  ghost predicate LastProjection(r: Rules, ms: seq<Message>, id: string, projection: Option<Json>) {
    match projection
    case None => forall i: nat, p: nat :: !Calls(ms, i, p, id)
    case Some(json) => exists i: nat, p: nat :: CallsLast(ms, i, p, id) && json == r.projectCall(ms[i].calls[p].body)
  }

  // What an entry shows.

  /** An identity of a part: the identifier, or one made of the message's position. */
  predicate Identity(r: Rules, id: string, name: Option<string>, message: nat, component: string) {
    id == BoundedIdentity(r, (if Names(name) then name.value else "message:" + Decimal(message)) + ":" + component)
  }

  ghost predicate ShowsText(r: Rules, m: Message, i: nat, e: Entry) {
    && e.kind == (if m.role.User? then UserText else AssistantText)
    && Identity(r, e.entryId, m.messageId, i, "text")
    && exists text :: ReadsAs(m.content, text) && e.body == if m.role.User? then r.userBody(m, text) else r.assistantBody(m, text)
  }

  ghost predicate ShowsReasoning(r: Rules, m: Message, i: nat, e: Entry) {
    && e.kind == Reasoning
    && Identity(r, e.entryId, if Names(m.reasoningId) then m.reasoningId else m.messageId, i, "reasoning")
    && exists text :: ReadsAs(m.reasoning, text) && e.body == r.reasoningBody(text)
  }

  /** A call is shown with its projection and the last result that answers it. */
  ghost predicate ShowsCall(r: Rules, ms: seq<Message>, i: nat, p: nat, e: Entry)
    requires Has(ms, CallPart(i, p))
  {
    var call := ms[i].calls[p];
    && e.kind == ToolCall
    && Identity(r, e.entryId, ms[i].messageId, i, "call:" + Decimal(p))
    && exists answer :: LastAnswer(ms, call.id, answer)
         && e.body == r.callBody(call.body, r.projectCall(call.body), if Names(call.id) then call.id else None, answer)
  }

  /** A result is shown with its call id and the projection of the last call of that id. */
  ghost predicate ShowsResult(r: Rules, ms: seq<Message>, i: nat, e: Entry)
    requires Has(ms, ResultPart(i))
  {
    var id := if Names(ms[i].toolCallId) then ms[i].toolCallId.value else "tool:" + Decimal(i);
    && e.kind == ToolResult
    && Identity(r, e.entryId, ms[i].messageId, i, "result")
    && exists projection :: LastProjection(r, ms, id, projection) && e.body == r.resultBody(ms[i], id, projection)
  }

  /** An entry shows a part of the transcript. */
  ghost predicate Shows(r: Rules, ms: seq<Message>, p: Part, e: Entry) {
    && Has(ms, p) && e.digest == r.digest(e.kind, e.body)
    && match p
       case TextPart(i) => ShowsText(r, ms[i], i, e)
       case ReasoningPart(i) => ShowsReasoning(r, ms[i], i, e)
       case CallPart(i, position) => ShowsCall(r, ms, i, position, e)
       case ResultPart(i) => ShowsResult(r, ms, i, e)
  }

  /** Entries `es` show parts `ps`, one to one and in order. */
  ghost predicate AllShow(r: Rules, ms: seq<Message>, ps: seq<Part>, es: seq<Entry>) {
    Pairwise((p, e) => Shows(r, ms, p, e), ps, es)
  }

  // The parts of a transcript in order.

  function CallParts(m: Message, i: nat, n: nat): seq<Part>
    requires n <= |m.calls|
  {
    if n == 0 then []
    else CallParts(m, i, n - 1) + if m.calls[n - 1].Call? then [CallPart(i, n - 1)] else []
  }

  function ReasoningParts(m: Message, i: nat): seq<Part> {
    if m.reasoning.NoText? then [] else [ReasoningPart(i)]
  }

  function TextParts(m: Message, i: nat): seq<Part> {
    if m.content.NoText? then [] else [TextPart(i)]
  }

  function MessageParts(m: Message, i: nat): seq<Part> {
    match m.role
    case User => TextParts(m, i)
    case Assistant => ReasoningParts(m, i) + TextParts(m, i) + CallParts(m, i, |m.calls|)
    case Tool => [ResultPart(i)]
    case _ => []
  }

  function Parts(ms: seq<Message>, k: nat): seq<Part>
    requires k <= |ms|
  {
    if k == 0 then [] else Parts(ms, k - 1) + MessageParts(ms[k - 1], k - 1)
  }

  predicate InOrder(ps: seq<Part>) {
    forall i, j :: 0 <= i < j < |ps| ==> Precedes(ps[i], ps[j])
  }

  /** A list of the parts there are, of the messages from `i` to `k`. */
  ghost predicate Lists(has: Part -> bool, ps: seq<Part>, i: nat, k: nat) {
    InOrder(ps) && forall p :: p in ps <==> i <= p.message < k && has(p)
  }

  lemma {:induction false} CallPartsExact(ms: seq<Message>, i: nat, n: nat)
    requires i < |ms| && ms[i].role.Assistant? && n <= |ms[i].calls|
    ensures InOrder(CallParts(ms[i], i, n))
    ensures forall p :: p in CallParts(ms[i], i, n) <==> p.CallPart? && p.message == i && p.position < n && Has(ms, p)
  {
    if n > 0 { CallPartsExact(ms, i, n - 1); }
  }

  lemma MessagePartsExact(ms: seq<Message>, i: nat)
    requires i < |ms|
    ensures Lists(p => Has(ms, p), MessageParts(ms[i], i), i, i + 1)
  {
    if ms[i].role.Assistant? {
      var head, calls := ReasoningParts(ms[i], i) + TextParts(ms[i], i), CallParts(ms[i], i, |ms[i].calls|);
      CallPartsExact(ms, i, |ms[i].calls|);
      HeadExact(ms, i);
      InOrderOn(head, calls);
    }
  }

  lemma HeadExact(ms: seq<Message>, i: nat)
    requires i < |ms| && ms[i].role.Assistant?
    ensures var head := ReasoningParts(ms[i], i) + TextParts(ms[i], i);
            InOrder(head) && forall p :: p in head <==> p.message == i && (p.ReasoningPart? || p.TextPart?) && Has(ms, p)
  {
  }

  lemma InOrderOn(a: seq<Part>, b: seq<Part>)
    requires InOrder(a) && InOrder(b) && forall p, q :: p in a && q in b ==> Precedes(p, q)
    ensures InOrder(a + b)
  {
  }

  lemma ListsOn(has: Part -> bool, a: seq<Part>, b: seq<Part>, k: nat)
    requires Lists(has, a, 0, k) && Lists(has, b, k, k + 1)
    ensures Lists(has, a + b, 0, k + 1)
  {
    InOrderOn(a, b);
    forall p ensures p in a + b <==> 0 <= p.message < k + 1 && has(p) {
      assert p in a + b <==> p in a || p in b;
    }
  }

  lemma {:induction false} PartsUpTo(has: Part -> bool, ms: seq<Message>, k: nat)
    requires k <= |ms| && forall i: nat :: i < |ms| ==> Lists(has, MessageParts(ms[i], i), i, i + 1)
    ensures Lists(has, Parts(ms, k), 0, k)
  {
    if k > 0 {
      var before, i := Parts(ms, k - 1), k - 1;
      PartsUpTo(has, ms, i);
      assert Lists(has, MessageParts(ms[i], i), i, i + 1);
      ListsOn(has, before, MessageParts(ms[i], i), i);
    }
  }

  /** The parts are listed once each, message by message and within a message reasoning
      first, then text, then the calls; and every part is there. */
  lemma PartsExact(ms: seq<Message>)
    ensures InOrder(Parts(ms, |ms|))
    ensures forall p :: p in Parts(ms, |ms|) <==> Has(ms, p)
  {
    forall i: nat | i < |ms| ensures Lists(p => Has(ms, p), MessageParts(ms[i], i), i, i + 1) { MessagePartsExact(ms, i); }
    PartsUpTo(p => Has(ms, p), ms, |ms|);
  }

  // The projection shows them.

  lemma AnswerFound(ms: seq<Message>, id: Option<string>)
    ensures LastAnswer(ms, id, Lookup(ResultMessages(ms, |ms|), Present(id)))
  {
    ResultsByIdLast(ms, |ms|);
    ResultsAgree(ms, |ms|);
    assert forall j: nat :: AnswersCall(ms, j, id) <==> Names(id) && ResultHasId(ms, j, id.value);
    if Names(id) && id.value in ResultsById(ms, |ms|) {
      var j := ResultsById(ms, |ms|)[id.value];
      assert AnswersCall(ms, j, id) && ms[j] == ResultMessages(ms, |ms|)[id.value];
      forall k: nat | k > j ensures !AnswersCall(ms, k, id) {}
    }
  }

  lemma ProjectionFound(r: Rules, ms: seq<Message>, id: string)
    requires |id| > 0
    ensures LastProjection(r, ms, id, Lookup(ProjectionsById(r, ms, |ms|), Some(id)))
  {
    CallsByIdLast(ms, |ms|);
    CallsAgree(r, ms, |ms|);
    assert forall i: nat, p: nat :: Calls(ms, i, p, id) <==> CallHasId(ms, i, p, id);
    if id in CallsById(ms, |ms|) {
      var at := CallsById(ms, |ms|)[id];
      assert CallHasId(ms, at.0, at.1, id) && CallAt(ms, at).Some?;
      forall k: nat, q: nat | k > at.0 || (k == at.0 && q > at.1) ensures !Calls(ms, k, q, id) {
        if CallHasId(ms, k, q, id) { assert After((|ms|, 0), (k, q)); }
      }
      assert CallsLast(ms, at.0, at.1, id);
    } else {
      forall i: nat, p: nat ensures !Calls(ms, i, p, id) {
        if CallHasId(ms, i, p, id) { assert After((|ms|, 0), (i, p)); }
      }
    }
  }

  lemma IdentityFound(r: Rules, name: Option<string>, i: nat, component: string)
    ensures Identity(r, EntryId(r, Present(name), i, component), name, i, component)
  {
  }

  lemma UserShown(r: Rules, ms: seq<Message>, i: nat, base: nat)
    requires i < |ms| && ms[i].role.User?
    ensures AllShow(r, ms, TextParts(ms[i], i), ToSeq(UserEntry(r, ms[i], i, base)))
  {
    IdentityFound(r, ms[i].messageId, i, "text");
    if !ms[i].content.NoText? { assert ReadsAs(ms[i].content, TextOf(ms[i].content).value); }
  }

  lemma AssistantTextShown(r: Rules, ms: seq<Message>, i: nat, base: nat)
    requires i < |ms| && ms[i].role.Assistant?
    ensures AllShow(r, ms, TextParts(ms[i], i), ToSeq(AssistantTextEntry(r, ms[i], i, base)))
  {
    IdentityFound(r, ms[i].messageId, i, "text");
    if !ms[i].content.NoText? { assert ReadsAs(ms[i].content, TextOf(ms[i].content).value); }
  }

  lemma ReasoningShown(r: Rules, ms: seq<Message>, i: nat, base: nat)
    requires i < |ms| && ms[i].role.Assistant?
    ensures AllShow(r, ms, ReasoningParts(ms[i], i), ToSeq(ReasoningEntry(r, ms[i], i, base)))
  {
    var m := ms[i];
    IdentityFound(r, if Names(m.reasoningId) then m.reasoningId else m.messageId, i, "reasoning");
    if !m.reasoning.NoText? { assert ReadsAs(m.reasoning, TextOf(m.reasoning).value); }
  }

  lemma CallShown(r: Rules, ms: seq<Message>, i: nat, base: nat, p: nat)
    requires Has(ms, CallPart(i, p))
    ensures var call := ms[i].calls[p];
            Shows(r, ms, CallPart(i, p), CallEntry(r, ms[i], i, base, p, r.projectCall(call.body), Lookup(ResultMessages(ms, |ms|), Present(call.id))))
  {
    IdentityFound(r, ms[i].messageId, i, "call:" + Decimal(p));
    AnswerFound(ms, ms[i].calls[p].id);
  }

  lemma {:induction false} CallsShown(r: Rules, ms: seq<Message>, i: nat, base: nat, n: nat)
    requires i < |ms| && ms[i].role.Assistant? && n <= |ms[i].calls|
    ensures AllShow(r, ms, CallParts(ms[i], i, n), CallEntries(r, ms[i], i, base, n, ResultMessages(ms, |ms|)))
  {
    if n > 0 {
      var before := CallEntries(r, ms[i], i, base, n - 1, ResultMessages(ms, |ms|));
      CallsShown(r, ms, i, base, n - 1);
      if ms[i].calls[n - 1].Call? { CallShown(r, ms, i, base + |before|, n - 1); }
    }
  }

  lemma ResultShown(r: Rules, ms: seq<Message>, i: nat, base: nat)
    requires Has(ms, ResultPart(i))
    ensures Shows(r, ms, ResultPart(i), ResultEntry(r, ms[i], i, base, Lookup(ProjectionsById(r, ms, |ms|), Some(ResultCallId(ms[i], i)))))
  {
    IdentityFound(r, ms[i].messageId, i, "result");
    ProjectionFound(r, ms, ResultCallId(ms[i], i));
  }

  lemma ShowOn(r: Rules, ms: seq<Message>, a: seq<Part>, x: seq<Entry>, b: seq<Part>, y: seq<Entry>)
    requires AllShow(r, ms, a, x) && AllShow(r, ms, b, y)
    ensures AllShow(r, ms, a + b, x + y)
  {
    PairwiseConcat((p, e) => Shows(r, ms, p, e), a, x, b, y);
  }

  lemma HeadShown(r: Rules, ms: seq<Message>, i: nat, base: nat)
    requires i < |ms| && ms[i].role.Assistant?
    ensures AllShow(r, ms, ReasoningParts(ms[i], i) + TextParts(ms[i], i), AssistantHeadEntries(r, ms[i], i, base))
  {
    var re := ToSeq(ReasoningEntry(r, ms[i], i, base));
    ReasoningShown(r, ms, i, base);
    AssistantTextShown(r, ms, i, base + |re|);
    ShowOn(r, ms, ReasoningParts(ms[i], i), re, TextParts(ms[i], i), ToSeq(AssistantTextEntry(r, ms[i], i, base + |re|)));
  }

  lemma AssistantJoined(p: (Part, Entry) -> bool, r: Rules, m: Message, i: nat, base: nat, results: map<string, Message>)
    requires m.role.Assistant?
    requires Pairwise(p, ReasoningParts(m, i) + TextParts(m, i), AssistantHeadEntries(r, m, i, base))
    requires forall b: nat :: Pairwise(p, CallParts(m, i, |m.calls|), CallEntries(r, m, i, b, |m.calls|, results))
    ensures Pairwise(p, MessageParts(m, i), AssistantEntries(r, m, i, base, results))
  {
    var head := AssistantHeadEntries(r, m, i, base);
    PairwiseConcat(p, ReasoningParts(m, i) + TextParts(m, i), head, CallParts(m, i, |m.calls|), CallEntries(r, m, i, base + |head|, |m.calls|, results));
  }

  lemma AssistantShown(r: Rules, ms: seq<Message>, i: nat, base: nat)
    requires i < |ms| && ms[i].role.Assistant?
    ensures AllShow(r, ms, MessageParts(ms[i], i), AssistantEntries(r, ms[i], i, base, ResultMessages(ms, |ms|)))
  {
    var p, m, results := (p, e) => Shows(r, ms, p, e), ms[i], ResultMessages(ms, |ms|);
    HeadShown(r, ms, i, base);
    forall b: nat ensures Pairwise(p, CallParts(m, i, |m.calls|), CallEntries(r, m, i, b, |m.calls|, results)) {
      CallsShown(r, ms, i, b, |m.calls|);
    }
    AssistantJoined(p, r, m, i, base, results);
  }

  lemma MessageShown(r: Rules, ms: seq<Message>, i: nat, base: nat)
    requires i < |ms|
    ensures AllShow(r, ms, MessageParts(ms[i], i), MessageEntries(r, ms[i], i, base, ProjectionsById(r, ms, |ms|), ResultMessages(ms, |ms|)))
  {
    match ms[i].role
    case Assistant => AssistantShown(r, ms, i, base);
    case User => UserShown(r, ms, i, base);
    case Tool => ResultShown(r, ms, i, base);
    case _ =>
  }

  lemma {:induction false} PartsPairs(p: (Part, Entry) -> bool, r: Rules, ms: seq<Message>, k: nat, calls: map<string, Json>, results: map<string, Message>)
    requires k <= |ms|
    requires forall j: nat, b: nat :: j < |ms| ==> Pairwise(p, MessageParts(ms[j], j), MessageEntries(r, ms[j], j, b, calls, results))
    ensures Pairwise(p, Parts(ms, k), EntriesUpTo(r, ms, k, calls, results))
  {
    if k > 0 {
      var before := EntriesUpTo(r, ms, k - 1, calls, results);
      PartsPairs(p, r, ms, k - 1, calls, results);
      PairwiseConcat(p, Parts(ms, k - 1), before, MessageParts(ms[k - 1], k - 1), MessageEntries(r, ms[k - 1], k - 1, |before|, calls, results));
    }
  }

  lemma ProjectionShown(r: Rules, ms: seq<Message>)
    ensures AllShow(r, ms, Parts(ms, |ms|), ProjectEntries(r, ms))
  {
    var p, calls, results := (p, e) => Shows(r, ms, p, e), ProjectionsById(r, ms, |ms|), ResultMessages(ms, |ms|);
    forall j: nat, b: nat | j < |ms| ensures Pairwise(p, MessageParts(ms[j], j), MessageEntries(r, ms[j], j, b, calls, results)) {
      MessageShown(r, ms, j, b);
    }
    PartsPairs(p, r, ms, |ms|, calls, results);
  }

  predicate NumberedFrom(es: seq<Entry>, from: nat) {
    forall n :: 0 <= n < |es| ==> es[n].ordinal == from + n
  }

  lemma ProjectionNumbered(r: Rules, ms: seq<Message>)
    ensures NumberedFrom(ProjectEntries(r, ms), 0)
  {
    var es, ds, p := ProjectEntries(r, ms), IndexOf(ms).descriptors, (d, e) => StandsFor(r, ms, IndexOf(ms), d, e);
    IndexFindsProjection(r, ms);
    forall n | 0 <= n < |es| ensures es[n].ordinal == n { assert p(ds[n], es[n]); }
  }

  /** The full projection has one entry for each part, in the order of the parts, numbered
      from zero, and each shows its part. */
  lemma EntriesShow(r: Rules, ms: seq<Message>)
    ensures AllShow(r, ms, Parts(ms, |ms|), ProjectEntries(r, ms)) && NumberedFrom(ProjectEntries(r, ms), 0)
  {
    ProjectionShown(r, ms);
    ProjectionNumbered(r, ms);
  }

  /** The entries of a page show consecutive parts, numbered as these are. */
  ghost predicate PageShows(r: Rules, ms: seq<Message>, page: Response) {
    page.Available? ==>
      exists from: nat :: from + |page.entries| <= |Parts(ms, |ms|)| && NumberedFrom(page.entries, from)
                          && AllShow(r, ms, Parts(ms, |ms|)[from..from + |page.entries|], page.entries)
  }

  lemma PairwiseSlice<S, T>(p: (S, T) -> bool, a: seq<S>, b: seq<T>, from: nat, to: nat)
    requires Pairwise(p, a, b) && from <= to <= |a|
    ensures Pairwise(p, a[from..to], b[from..to])
  {
  }

  lemma SliceNumbered(es: seq<Entry>, from: nat, to: nat)
    requires NumberedFrom(es, 0) && from <= to <= |es|
    ensures NumberedFrom(es[from..to], from)
  {
  }

  lemma SliceShows(r: Rules, ms: seq<Message>, es: seq<Entry>, from: nat, to: nat)
    requires AllShow(r, ms, Parts(ms, |ms|), es) && from <= to <= |es|
    ensures AllShow(r, ms, Parts(ms, |ms|)[from..to], es[from..to])
  {
    PairwiseSlice((p, e) => Shows(r, ms, p, e), Parts(ms, |ms|), es, from, to);
  }

  /** Whatever the cursor, what is answered shows consecutive parts of the transcript. */
  lemma ReferenceShows(r: Rules, ms: seq<Message>, before: Option<string>, limit: nat)
    ensures PageShows(r, ms, ReadProjected(r, ProjectEntries(r, ms), before, limit))
  {
    var es := ProjectEntries(r, ms);
    EntriesShow(r, ms);
    if ReadProjected(r, es, before, limit).Available? { ReadShows(r, ms, es, before, limit); }
  }

  lemma ReadShows(r: Rules, ms: seq<Message>, es: seq<Entry>, before: Option<string>, limit: nat)
    requires AllShow(r, ms, Parts(ms, |ms|), es) && NumberedFrom(es, 0) && ReadProjected(r, es, before, limit).Available?
    ensures PageShows(r, ms, ReadProjected(r, es, before, limit))
  {
    var page, to := ReadProjected(r, es, before, limit), CandidateCount(r, es, before);
    HasMoreIsExact(r, es, before, limit);
    var from := to - |page.entries|;
    SliceNumbered(es, from, to);
    SliceShows(r, ms, es, from, to);
    assert from + |page.entries| == to && |es| == |Parts(ms, |ms|)|;
  }

  // Texts, identities and records.

  /** The parts of a text that count are joined by line breaks, the others leave no trace. */
  lemma {:induction false} JoinLinesNext(parts: seq<Option<string>>, part: Option<string>)
    ensures JoinLines(parts + [part]) ==
      if part.None? then JoinLines(parts)
      else if NoneIn(parts) then part.value
      else JoinLines(parts) + "\n" + part.value
  {
    if |parts| == 0 {
      assert [part][1..] == [] && parts + [part] == [part];
    } else {
      var first, rest := parts[0], parts[1..];
      assert parts == [first] + rest && parts + [part] == [first] + (rest + [part]);
      JoinLinesFirst(first, rest);
      JoinLinesFirst(first, rest + [part]);
      JoinLinesNext(rest, part);
      NoneLeft(rest, part);
      NoneAfter(first, rest);
      Rejoined(first.GetOr(""), JoinLines(rest), part.GetOr(""));
    }
  }

  lemma JoinLinesFirst(first: Option<string>, rest: seq<Option<string>>)
    ensures JoinLines([first] + rest) ==
      if first.None? then JoinLines(rest) else if NoneIn(rest) then first.value else first.value + "\n" + JoinLines(rest)
  {
    assert ([first] + rest)[0] == first && ([first] + rest)[1..] == rest;
  }

  lemma Rejoined(a: string, b: string, c: string)
    ensures (a + "\n" + b) + "\n" + c == a + "\n" + (b + "\n" + c)
  {
  }

  predicate NoneIn(parts: seq<Option<string>>) {
    forall p :: p in parts ==> p.None?
  }

  lemma NoneLeft(rest: seq<Option<string>>, part: Option<string>)
    ensures NoneIn(rest + [part]) <==> NoneIn(rest) && part.None?
  {
    assert part in rest + [part] && forall p :: p in rest ==> p in rest + [part];
  }

  lemma NoneAfter(first: Option<string>, rest: seq<Option<string>>)
    ensures NoneIn([first] + rest) <==> first.None? && NoneIn(rest)
  {
    assert first in [first] + rest && forall p :: p in rest ==> p in [first] + rest;
  }

  /** A short identity is kept; a long one still tells apart whatever the digest does. */
  lemma BoundedDistinct(r: Rules, a: string, b: string)
    ensures |a| <= MAX_ID_LENGTH ==> BoundedIdentity(r, a) == a
    ensures |a| > MAX_ID_LENGTH && |b| > MAX_ID_LENGTH && BoundedIdentity(r, a) == BoundedIdentity(r, b) ==> r.sha(a) == r.sha(b)
  {
    if |a| > MAX_ID_LENGTH && |b| > MAX_ID_LENGTH && BoundedIdentity(r, a) == BoundedIdentity(r, b) {
      assert BoundedIdentity(r, a)[MAX_ID_LENGTH - 64..] == r.sha(a);
      assert BoundedIdentity(r, b)[MAX_ID_LENGTH - 64..] == r.sha(b);
    }
  }

  /** The record of a live message reads as the message does, and no two different
      messages have the same record. */
  lemma DumpKeeps(m: LiveMessage, n: LiveMessage)
    ensures TextOf(Dump(m).content) == m.content && TextOf(Dump(m).reasoning) == m.reasoning
    ensures Dump(m).messageId == m.messageId && Dump(m).reasoningId == m.reasoningId && Dump(m).toolCallId == m.toolCallId
    ensures Dump(m) == Dump(n) ==> m == n
  {
    if Dump(m) == Dump(n) {
      assert |m.calls| == |n.calls|;
      assert forall i :: 0 <= i < |m.calls| ==> Dump(m).calls[i] == Call(m.calls[i].id, m.calls[i].body);
      assert m.calls == n.calls;
    }
  }
}
