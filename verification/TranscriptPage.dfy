/** One page of a transcript: the cursor codec, the response's serialized size,
    and the greedy selection under the byte ceiling. */
module TranscriptPage {
  import opened Wrappers
  import opened TranscriptModel
  import B = Base64

  const RESPONSE_BYTE_LIMIT := 512 * 1024

  datatype State = NoSavedTranscript | Changed | ExceedsViewerLimit

  datatype Response =
    | Unavailable(state: State)
    | Available(entries: seq<Entry>, oldestCursor: Option<string>, hasMore: bool)

  function EncodeCursor(r: Rules, id: string, digest: string): string {
    B.EncodeCursorBytes(r.cursorText(id, digest))
  }

  function DecodeCursor(r: Rules, cursor: string): Option<(string, string)> {
    match B.DecodeCursorBytes(cursor)
    case None => None
    case Some(bytes) => r.parseCursor(bytes)
  }

  function CursorOf(r: Rules, e: Entry): string {
    EncodeCursor(r, e.entryId, e.digest)
  }

  /** A cursor names exactly the id and digest it was made from. */
  lemma CursorRoundTrip(r: Rules, id: string, digest: string)
    requires r.CursorLaw()
    ensures DecodeCursor(r, EncodeCursor(r, id, digest)) == Some((id, digest))
  {
    B.RoundTrip(r.cursorText(id, digest));
  }

  const CURSOR_LIMIT := 4096

  /** A cursor is as short as a response may carry exactly when the JSON text it encodes
      takes at most 3072 bytes. */
  lemma CursorFits(r: Rules, id: string, digest: string)
    ensures |EncodeCursor(r, id, digest)| <= CURSOR_LIMIT <==> |r.cursorText(id, digest)| <= 3072
  {
    B.StripEncode(r.cursorText(id, digest));
    B.EncodedSize(r.cursorText(id, digest));
  }

  function AvailableResponse(r: Rules, selected: seq<Entry>, hasMore: bool): Response {
    Available(selected, if |selected| == 0 then None else Some(CursorOf(r, selected[0])), hasMore)
  }

  // ---- the serialized response and its size ----

  function EntriesText(r: Rules, es: seq<Entry>): string {
    if |es| == 0 then ""
    else if |es| == 1 then r.entryJson(es[0])
    else r.entryJson(es[0]) + "," + EntriesText(r, es[1..])
  }

  const OPENING := "{\"state\":\"available\",\"entries\":["
  const BEFORE_CURSOR := "],\"oldestCursor\":"
  const BEFORE_FLAG := ",\"hasMore\":"

  /** The compact JSON of an available response, keys in declaration order. */
  function WireText(r: Rules, page: Response): string
    requires page.Available?
  {
    var cursor := if page.oldestCursor.Some? then r.quote(page.oldestCursor.value) else "null";
    Concat([OPENING, EntriesText(r, page.entries), BEFORE_CURSOR, cursor, BEFORE_FLAG, if page.hasMore then "true" else "false", "}"])
  }

  lemma ConcatHead(a: string, rest: seq<string>)
    ensures |Concat([a] + rest)| == |a| + |Concat(rest)|
  {
    assert ([a] + rest)[1..] == rest;
  }

  lemma ConcatPair(a: string, b: string, rest: seq<string>)
    ensures |Concat([a, b] + rest)| == |a| + |b| + |Concat(rest)|
  {
    assert [a, b] + rest == [a] + ([b] + rest);
    ConcatHead(a, [b] + rest);
    ConcatHead(b, rest);
  }

  lemma ConcatSize(a: string, b: string, c: string, d: string, e: string, f: string, g: string)
    ensures |Concat([a, b, c, d, e, f, g])| == |a| + |b| + |c| + |d| + |e| + |f| + |g|
  {
    ConcatHead(g, []);
    assert [g] + [] == [g];
    ConcatPair(e, f, [g]);
    ConcatPair(c, d, [e, f] + [g]);
    ConcatPair(a, b, [c, d] + ([e, f] + [g]));
    assert [a, b, c, d, e, f, g] == [a, b] + ([c, d] + ([e, f] + [g]));
  }

  /** The serialized size in terms of its parts. */
  lemma WireTextSize(r: Rules, page: Response)
    requires page.Available?
    ensures |WireText(r, page)| == |OPENING| + |EntriesText(r, page.entries)| + |BEFORE_CURSOR|
              + (if page.oldestCursor.Some? then |r.quote(page.oldestCursor.value)| else 4)
              + |BEFORE_FLAG| + (if page.hasMore then 4 else 5) + 1
  {
    ConcatSize(OPENING, EntriesText(r, page.entries), BEFORE_CURSOR,
               if page.oldestCursor.Some? then r.quote(page.oldestCursor.value) else "null",
               BEFORE_FLAG, if page.hasMore then "true" else "false", "}");
  }

  function Sum(sizes: seq<nat>): nat {
    if |sizes| == 0 then 0 else Sum(sizes[..|sizes| - 1]) + sizes[|sizes| - 1]
  }

  function TotalSize(r: Rules, es: seq<Entry>): nat {
    if |es| == 0 then 0 else |r.entryJson(es[0])| + TotalSize(r, es[1..])
  }

  function CursorWireSize(r: Rules, e: Entry): nat {
    |r.quote(CursorOf(r, e))|
  }

  /** The incremental formula: the empty page's size with the null cursor taken
      out, the cursor's size, the entries already chosen, and one comma for each. */
  function ResponseWireSize(r: Rules, total: nat, count: nat, cursorSize: nat, hasMore: bool): int {
    |WireText(r, AvailableResponse(r, [], hasMore))| - 4 + cursorSize + total + count
  }

  lemma {:induction false} EntriesTextSize(r: Rules, es: seq<Entry>)
    ensures |EntriesText(r, es)| == TotalSize(r, es) + if |es| == 0 then 0 else |es| - 1
  {
    if |es| > 1 {
      EntriesTextSize(r, es[1..]);
    } else if |es| == 1 {
      assert es[1..] == [];
    }
  }

  /** Adding `e` in front of the selected entries: the formula is the exact length
      of the serialized page, so nothing needs to be serialized to know it. */
  lemma SizeFormulaExact(r: Rules, e: Entry, selected: seq<Entry>, hasMore: bool)
    ensures ResponseWireSize(r, TotalSize(r, selected), |selected|, CursorWireSize(r, e), hasMore) + |r.entryJson(e)|
            == |WireText(r, AvailableResponse(r, [e] + selected, hasMore))|
  {
    WireTextSize(r, AvailableResponse(r, [e] + selected, hasMore));
    WireTextSize(r, AvailableResponse(r, [], hasMore));
    EntriesTextSize(r, [e] + selected);
    assert ([e] + selected)[1..] == selected;
  }

  // ---- the greedy selection ----

  function Newest(c: seq<Entry>, k: nat): seq<Entry>
    requires k <= |c|
  {
    c[|c| - k..]
  }

  /** The page holding the newest `k` candidates. */
  function PageOf(r: Rules, c: seq<Entry>, k: nat): Response
    requires k <= |c|
  {
    AvailableResponse(r, Newest(c, k), |c| > k)
  }

  /** The formula's value when candidate `k`, counted from the newest, is tried. */
  function TriedSize(r: Rules, c: seq<Entry>, k: nat): int
    requires k < |c|
  {
    var e := c[|c| - k - 1];
    ResponseWireSize(r, TotalSize(r, Newest(c, k)), k, CursorWireSize(r, e), |c| > k + 1) + |r.entryJson(e)|
  }

  /** What the formula yields for each candidate, counted from the newest. */
  function TriedSizes(r: Rules, c: seq<Entry>): (sizes: seq<int>)
    ensures |sizes| == |c|
  {
    seq(|c|, k requires 0 <= k < |c| => TriedSize(r, c, k))
  }

  /** How many candidates the loop takes, `k` of them already taken. */
  function Greedy(sizes: seq<int>, limit: nat, k: nat): (n: nat)
    requires k <= |sizes|
    ensures k <= n <= |sizes|
    decreases |sizes| - k
  {
    if k == limit || k == |sizes| || sizes[k] > RESPONSE_BYTE_LIMIT then k else Greedy(sizes, limit, k + 1)
  }

  function PageCount(r: Rules, c: seq<Entry>, limit: nat): (n: nat)
    ensures n <= |c|
  {
    Greedy(TriedSizes(r, c), limit, 0)
  }

  /** The reference page over already projected candidates. */
  function Page(r: Rules, c: seq<Entry>, limit: nat): Response {
    PageOf(r, c, PageCount(r, c, limit))
  }

  lemma {:induction false} GreedyStops(sizes: seq<int>, limit: nat, k: nat)
    requires k <= |sizes| && k <= limit
    ensures var n := Greedy(sizes, limit, k);
            && n <= limit
            && (forall j :: k <= j < n ==> sizes[j] <= RESPONSE_BYTE_LIMIT)
            && (n == limit || n == |sizes| || sizes[n] > RESPONSE_BYTE_LIMIT)
    decreases |sizes| - k
  {
    if k < |sizes| && k != limit && sizes[k] <= RESPONSE_BYTE_LIMIT { GreedyStops(sizes, limit, k + 1); }
  }

  lemma TriedSizeIsPageSize(r: Rules, c: seq<Entry>, k: nat)
    requires k < |c|
    ensures TriedSizes(r, c)[k] == |WireText(r, PageOf(r, c, k + 1))|
  {
    var e := c[|c| - k - 1];
    SizeFormulaExact(r, e, Newest(c, k), |c| > k + 1);
    assert Newest(c, k + 1) == [e] + Newest(c, k);
  }

  ghost predicate Fits(r: Rules, c: seq<Entry>, k: nat)
    requires k <= |c|
  {
    |WireText(r, PageOf(r, c, k))| <= RESPONSE_BYTE_LIMIT
  }

  /** The page keeps adding older entries for as long as the serialized response
      fits, and stops only at the limit, at the oldest entry, or at the first
      entry that would push the response over the ceiling. */
  lemma PageIsGreedy(r: Rules, c: seq<Entry>, limit: nat)
    ensures var n := PageCount(r, c, limit);
            && n <= limit
            && (forall j :: 0 < j <= n ==> Fits(r, c, j))
            && (n == limit || n == |c| || !Fits(r, c, n + 1))
  {
    var n := PageCount(r, c, limit);
    GreedyStops(TriedSizes(r, c), limit, 0);
    forall j | 0 < j <= n ensures Fits(r, c, j) { TriedSizeIsPageSize(r, c, j - 1); }
    if n < |c| { TriedSizeIsPageSize(r, c, n); }
  }

  lemma EmptyPageSize(r: Rules, hasMore: bool)
    ensures |WireText(r, AvailableResponse(r, [], hasMore))| < 100
  {
    WireTextSize(r, AvailableResponse(r, [], hasMore));
  }

  /** Every page, serialized, is within the response ceiling. */
  lemma PageWithinCeiling(r: Rules, c: seq<Entry>, limit: nat)
    ensures |WireText(r, Page(r, c, limit))| <= RESPONSE_BYTE_LIMIT
  {
    var n := PageCount(r, c, limit);
    PageIsGreedy(r, c, limit);
    if n == 0 {
      assert Newest(c, 0) == [];
      EmptyPageSize(r, |c| > 0);
    } else {
      assert Fits(r, c, n);
    }
  }

  // ---- reading before a cursor ----

  /** The position of the first entry with this id, or the number of entries. */
  function FirstWithId(es: seq<Entry>, id: string): (i: nat)
    ensures i <= |es| && (i < |es| ==> es[i].entryId == id)
    ensures forall j :: 0 <= j < i ==> es[j].entryId != id
  {
    if |es| == 0 || es[0].entryId == id then 0 else 1 + FirstWithId(es[1..], id)
  }

  function FindBoundary(es: seq<Entry>, boundary: (string, string)): Option<nat> {
    var i := FirstWithId(es, boundary.0);
    if i < |es| && es[i].digest == boundary.1 then Some(i) else None
  }

  /** The reference reader over the full projection. */
  function ReadProjected(r: Rules, es: seq<Entry>, before: Option<string>, limit: nat): Response {
    match before
    case None => Page(r, es, limit)
    case Some(cursor) =>
      match DecodeCursor(r, cursor)
      case None => Unavailable(Changed)
      case Some(boundary) =>
        match FindBoundary(es, boundary)
        case None => Unavailable(Changed)
        case Some(i) => Page(r, es[..i], limit)
  }

  /** The cursor of entry `i` leads back to entry `i` exactly when no earlier
      entry has the same id; otherwise it leads to an earlier one or nowhere. */
  lemma CursorFindsItsEntry(r: Rules, es: seq<Entry>, i: nat)
    requires r.CursorLaw() && i < |es|
    ensures DecodeCursor(r, CursorOf(r, es[i])) == Some((es[i].entryId, es[i].digest))
    ensures var found := FindBoundary(es, (es[i].entryId, es[i].digest));
            && (found == Some(i) <==> forall j :: 0 <= j < i ==> es[j].entryId != es[i].entryId)
            && (found.Some? ==> found.value <= i)
  {
    CursorRoundTrip(r, es[i].entryId, es[i].digest);
  }

  /** Every available answer of the reader fits, whatever cursor it was given. */
  lemma ReadWithinCeiling(r: Rules, es: seq<Entry>, before: Option<string>, limit: nat)
    ensures var page := ReadProjected(r, es, before, limit);
            page.Available? ==> |WireText(r, page)| <= RESPONSE_BYTE_LIMIT
  {
    forall c: seq<Entry> ensures |WireText(r, Page(r, c, limit))| <= RESPONSE_BYTE_LIMIT {
      PageWithinCeiling(r, c, limit);
    }
  }
}
