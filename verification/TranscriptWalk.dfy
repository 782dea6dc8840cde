/** Following a transcript's cursors from the newest page to the oldest. */
module TranscriptWalk {
  import opened Wrappers
  import opened TranscriptModel
  import opened TranscriptPage

  /** How many entries lie before a cursor. */
  ghost function CandidateCount(r: Rules, es: seq<Entry>, before: Option<string>): (n: nat)
    ensures n <= |es|
  {
    match before
    case None => |es|
    case Some(cursor) =>
      match DecodeCursor(r, cursor)
      case None => 0
      case Some(boundary) => FindBoundary(es, boundary).GetOr(0)
  }

  /** The first entry with this id is the `i`-th. */
  predicate FirstNamed(es: seq<Entry>, id: string, i: nat) {
    i < |es| && es[i].entryId == id && forall j :: 0 <= j < i ==> es[j].entryId != id
  }

  /** A read is refused as changed exactly when its cursor does not decode, or names no
      entry, or the first entry of that name has another digest. Otherwise the candidates
      are the entries before the one named; all of them where there is no cursor. */
  lemma ChangedExactly(r: Rules, es: seq<Entry>, before: Option<string>, limit: nat)
    ensures var page := ReadProjected(r, es, before, limit);
            if before.None? then page.Available? && CandidateCount(r, es, before) == |es|
            else if DecodeCursor(r, before.value).None? then page == Unavailable(Changed)
            else
              var (id, digest) := DecodeCursor(r, before.value).value;
              && (forall i: nat :: FirstNamed(es, id, i) ==>
                    if es[i].digest == digest then page.Available? && CandidateCount(r, es, before) == i else page == Unavailable(Changed))
              && ((forall i :: 0 <= i < |es| ==> es[i].entryId != id) ==> page == Unavailable(Changed))
  {
  }

  /** The pages a client receives: it asks again with the oldest cursor for as long
      as the answer says there is more. The recursion ends for every transcript,
      even one with repeated ids. */
  ghost function Walk(r: Rules, es: seq<Entry>, before: Option<string>, limit: nat): (pages: seq<Response>)
    requires r.CursorLaw() && limit >= 1
    ensures 1 <= |pages| <= CandidateCount(r, es, before) + 1
    decreases CandidateCount(r, es, before)
  {
    var page := ReadProjected(r, es, before, limit);
    if page.Available? && page.hasMore && page.oldestCursor.Some? then
      CursorMovesBack(r, es, before, limit);
      [page] + Walk(r, es, page.oldestCursor, limit)
    else [page]
  }

  lemma PageShape(r: Rules, es: seq<Entry>, b: nat, limit: nat, n: nat)
    requires b <= |es| && n == PageCount(r, es[..b], limit)
    ensures var page := Page(r, es[..b], limit);
            && n <= b
            && page.Available?
            && page.entries == es[b - n..b]
            && page.hasMore == (b > n)
            && page.oldestCursor == if n > 0 then Some(CursorOf(r, es[b - n])) else None
  {
  }

  lemma ReadIsPage(r: Rules, es: seq<Entry>, before: Option<string>, limit: nat)
    requires ReadProjected(r, es, before, limit).Available?
    ensures ReadProjected(r, es, before, limit) == Page(r, es[..CandidateCount(r, es, before)], limit)
  {
    assert es[..|es|] == es;
  }

  lemma CursorMovesBack(r: Rules, es: seq<Entry>, before: Option<string>, limit: nat)
    requires r.CursorLaw()
    requires var page := ReadProjected(r, es, before, limit); page.Available? && page.oldestCursor.Some?
    ensures CandidateCount(r, es, ReadProjected(r, es, before, limit).oldestCursor) < CandidateCount(r, es, before)
  {
    var b := CandidateCount(r, es, before);
    var n := PageCount(r, es[..b], limit);
    ReadIsPage(r, es, before, limit);
    PageShape(r, es, b, limit, n);
    CursorFindsItsEntry(r, es, b - n);
  }

  /** What the client has seen, oldest first. */
  ghost function Visited(pages: seq<Response>): seq<Entry> {
    if |pages| == 0 then []
    else Visited(pages[1..]) + if pages[0].Available? then pages[0].entries else []
  }

  ghost predicate DistinctIds(es: seq<Entry>) {
    forall i, j :: 0 <= i < j < |es| ==> es[i].entryId != es[j].entryId
  }

  /** For each entry, whether a page holding it alone is within the ceiling. */
  ghost function Sendable(r: Rules, es: seq<Entry>): (s: seq<bool>)
    ensures |s| == |es|
  {
    seq(|es|, i requires 0 <= i < |es| => |WireText(r, AvailableResponse(r, [es[i]], i > 0))| <= RESPONSE_BYTE_LIMIT)
  }

  /** The oldest position a walk from `b` reaches: just after the newest entry
      before `b` that cannot be sent even on its own. */
  ghost function Reach(sendable: seq<bool>, b: nat): (n: nat)
    requires b <= |sendable|
    ensures n <= b
  {
    if b > 0 && sendable[b - 1] then Reach(sendable, b - 1) else b
  }

  lemma {:induction false} ReachIsNewestUnsendable(sendable: seq<bool>, b: nat)
    requires b <= |sendable|
    ensures forall i :: Reach(sendable, b) <= i < b ==> sendable[i]
    ensures Reach(sendable, b) > 0 ==> !sendable[Reach(sendable, b) - 1]
  {
    if b > 0 && sendable[b - 1] { ReachIsNewestUnsendable(sendable, b - 1); }
  }

  lemma {:induction false} ReachPasses(sendable: seq<bool>, b: nat, n: nat)
    requires n <= b <= |sendable| && forall i :: b - n <= i < b ==> sendable[i]
    ensures Reach(sendable, b - n) == Reach(sendable, b)
  {
    if n > 0 { ReachPasses(sendable, b - 1, n - 1); }
  }

  lemma AloneIsSmaller(r: Rules, e: Entry, rest: seq<Entry>, hasMore: bool)
    ensures |WireText(r, AvailableResponse(r, [e], hasMore))| <= |WireText(r, AvailableResponse(r, [e] + rest, hasMore))|
  {
    SizeFormulaExact(r, e, rest, hasMore);
    SizeFormulaExact(r, e, [], hasMore);
    assert [e] + [] == [e];
  }

  /** An entry that fits as the oldest of a page also fits alone. */
  lemma OldestFitsAlone(r: Rules, c: seq<Entry>, k: nat)
    requires 1 <= k <= |c| && Fits(r, c, k)
    ensures |WireText(r, AvailableResponse(r, [c[|c| - k]], |c| > k))| <= RESPONSE_BYTE_LIMIT
  {
    var e, rest := c[|c| - k], Newest(c, k - 1);
    AloneIsSmaller(r, e, rest, |c| > k);
    assert Newest(c, k) == [e] + rest;
  }

  lemma FitsInPageFitsAlone(r: Rules, es: seq<Entry>, b: nat, k: nat)
    requires b <= |es| && 1 <= k <= b && Fits(r, es[..b], k)
    ensures Sendable(r, es)[b - k]
  {
    var c := es[..b];
    assert |c| == b && c[b - k] == es[b - k];
    OldestFitsAlone(r, c, k);
  }

  /** A page is empty, with entries left to show, only when the newest of them
      does not fit alone. */
  lemma FirstPageEntry(r: Rules, es: seq<Entry>, b: nat, limit: nat)
    requires 0 < b <= |es| && limit >= 1 && PageCount(r, es[..b], limit) == 0
    ensures !Sendable(r, es)[b - 1]
  {
    PageIsGreedy(r, es[..b], limit);
    assert !Fits(r, es[..b], 1);
    assert Newest(es[..b], 1) == [es[b - 1]];
  }

  lemma PageReach(r: Rules, es: seq<Entry>, b: nat, limit: nat, n: nat)
    requires limit >= 1 && b <= |es| && n == PageCount(r, es[..b], limit)
    ensures n <= b && Reach(Sendable(r, es), b - n) == Reach(Sendable(r, es), b) && (n == 0 ==> Reach(Sendable(r, es), b) == b)
  {
    PageIsGreedy(r, es[..b], limit);
    forall i | b - n <= i < b ensures Sendable(r, es)[i] { FitsInPageFitsAlone(r, es, b, b - i); }
    ReachPasses(Sendable(r, es), b, n);
    if n == 0 && b > 0 { FirstPageEntry(r, es, b, limit); }
  }

  /** The cursor of entry `i` asks for the entries before it. */
  lemma CursorContinues(r: Rules, es: seq<Entry>, i: nat, limit: nat)
    requires r.CursorLaw() && DistinctIds(es) && i < |es|
    ensures ReadProjected(r, es, Some(CursorOf(r, es[i])), limit) == Page(r, es[..i], limit)
    ensures CandidateCount(r, es, Some(CursorOf(r, es[i]))) == i
  {
    CursorFindsItsEntry(r, es, i);
  }

  lemma WalkStep(r: Rules, es: seq<Entry>, before: Option<string>, limit: nat, b: nat, n: nat)
    requires r.CursorLaw() && limit >= 1
    requires b <= |es| && ReadProjected(r, es, before, limit) == Page(r, es[..b], limit) && n == PageCount(r, es[..b], limit)
    ensures n <= b
    ensures Visited(Walk(r, es, before, limit)) ==
            (if b > n > 0 then Visited(Walk(r, es, Some(CursorOf(r, es[b - n])), limit)) else []) + es[b - n..b]
  {
    var page, pages := ReadProjected(r, es, before, limit), Walk(r, es, before, limit);
    PageShape(r, es, b, limit, n);
    if b > n > 0 {
      assert pages[1..] == Walk(r, es, page.oldestCursor, limit);
    } else {
      assert pages[1..] == [];
    }
  }

  /** The walk is the last page shown plus the walk from its oldest entry. */
  lemma ExtendVisited(es: seq<Entry>, low: nat, mid: nat, b: nat, older: seq<Entry>)
    requires low <= mid <= b <= |es|
    requires older == es[low..mid]
    ensures older + es[mid..b] == es[low..b]
  {
  }

  /** From the cursor of entry `i`, the walk shows exactly the entries from Reach
      to `i`, each once and in order. */
  lemma {:induction false} WalkFromEntry(r: Rules, es: seq<Entry>, i: nat, limit: nat, low: nat)
    requires r.CursorLaw() && limit >= 1 && DistinctIds(es) && i < |es| && low == Reach(Sendable(r, es), i)
    ensures Visited(Walk(r, es, Some(CursorOf(r, es[i])), limit)) == es[low..i]
    decreases i, 1
  {
    CursorContinues(r, es, i, limit);
    WalkFrom(r, es, Some(CursorOf(r, es[i])), limit, i, low);
  }

  lemma {:induction false} WalkFrom(r: Rules, es: seq<Entry>, before: Option<string>, limit: nat, b: nat, low: nat)
    requires r.CursorLaw() && limit >= 1 && DistinctIds(es) && b <= |es| && low == Reach(Sendable(r, es), b)
    requires ReadProjected(r, es, before, limit) == Page(r, es[..b], limit)
    ensures Visited(Walk(r, es, before, limit)) == es[low..b]
    decreases b, 0
  {
    var n := PageCount(r, es[..b], limit);
    WalkStep(r, es, before, limit, b, n);
    PageReach(r, es, b, limit, n);
    if b > n > 0 {
      WalkFromEntry(r, es, b - n, limit, low);
      ExtendVisited(es, low, b - n, b, Visited(Walk(r, es, Some(CursorOf(r, es[b - n])), limit)));
    } else {
      assert low == b - n;
    }
  }

  /** Walking from the newest page shows every entry exactly once and in order if
      and only if every entry can be sent on its own. */
  lemma WalkIsComplete(r: Rules, es: seq<Entry>, limit: nat)
    requires r.CursorLaw() && limit >= 1 && DistinctIds(es)
    ensures Visited(Walk(r, es, None, limit)) == es[Reach(Sendable(r, es), |es|)..]
    ensures Visited(Walk(r, es, None, limit)) == es <==> forall i :: 0 <= i < |es| ==> Sendable(r, es)[i]
  {
    assert es[..|es|] == es;
    WalkFrom(r, es, None, limit, |es|, Reach(Sendable(r, es), |es|));
    ReachIsNewestUnsendable(Sendable(r, es), |es|);
    assert es[Reach(Sendable(r, es), |es|)..|es|] == es[Reach(Sendable(r, es), |es|)..];
  }

  /** A page is the newest part of the entries before its cursor, and says that
      there is more exactly when some of them are older than the page. */
  lemma HasMoreIsExact(r: Rules, es: seq<Entry>, before: Option<string>, limit: nat)
    requires ReadProjected(r, es, before, limit).Available?
    ensures var page, b := ReadProjected(r, es, before, limit), CandidateCount(r, es, before);
            && |page.entries| <= b
            && page.entries == es[b - |page.entries|..b]
            && (page.hasMore <==> b - |page.entries| > 0)
  {
    var b := CandidateCount(r, es, before);
    ReadIsPage(r, es, before, limit);
    PageShape(r, es, b, limit, PageCount(r, es[..b], limit));
  }
}
