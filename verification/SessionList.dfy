/** The session list: newest first, in pages, with a cursor that names the last session
    shown. Texts are their UTF-8 bytes, whose order is the order of the texts. */
module SessionList {
  import opened Wrappers
  import opened Base64

  type Text = seq<Byte>

  datatype Session = Session(id: Text, updatedAt: Text, parent: Option<Text>)

  /** What the model does not look into: which bytes are UTF-8, which texts are ISO dates. */
  datatype Formats = Formats(utf8: Text -> bool, isoDate: Text -> bool)

  // The order.

  predicate TextLess(a: Text, b: Text) {
    |b| > 0 && (|a| == 0 || a[0] < b[0] || (a[0] == b[0] && TextLess(a[1..], b[1..])))
  }

  type Key = (Text, Text)

  function KeyOf(s: Session): Key {
    (s.updatedAt, s.id)
  }

  predicate Less(a: Key, b: Key) {
    TextLess(a.0, b.0) || (a.0 == b.0 && TextLess(a.1, b.1))
  }

  lemma {:induction false} TextLessIrreflexive(a: Text)
    ensures !TextLess(a, a)
  {
    if |a| > 0 { TextLessIrreflexive(a[1..]); }
  }

  lemma {:induction false} TextLessTransitive(a: Text, b: Text, c: Text)
    requires TextLess(a, b) && TextLess(b, c)
    ensures TextLess(a, c)
  {
    if |a| > 0 && a[0] == b[0] && b[0] == c[0] { TextLessTransitive(a[1..], b[1..], c[1..]); }
  }

  lemma {:induction false} TextLessTotal(a: Text, b: Text)
    ensures TextLess(a, b) || a == b || TextLess(b, a)
  {
    if |a| > 0 && |b| > 0 && a[0] == b[0] {
      TextLessTotal(a[1..], b[1..]);
      assert a == [a[0]] + a[1..] && b == [b[0]] + b[1..];
    }
  }

  lemma LessIrreflexive(a: Key)
    ensures !Less(a, a)
  {
    TextLessIrreflexive(a.0);
    TextLessIrreflexive(a.1);
  }

  lemma LessTransitive(a: Key, b: Key, c: Key)
    requires Less(a, b) && Less(b, c)
    ensures Less(a, c)
  {
    if TextLess(a.0, b.0) && TextLess(b.0, c.0) {
      TextLessTransitive(a.0, b.0, c.0);
    } else if a.0 == b.0 && b.0 == c.0 {
      TextLessTransitive(a.1, b.1, c.1);
    }
  }

  lemma LessTotal(a: Key, b: Key)
    ensures Less(a, b) || a == b || Less(b, a)
  {
    TextLessTotal(a.0, b.0);
    TextLessTotal(a.1, b.1);
  }

  // The order in terms of the texts.

  /** Where two texts first differ the lesser has the smaller byte, or ends. */
  ghost predicate Lesser(a: Text, b: Text) {
    exists k: nat :: FirstLess(a, b, k)
  }

  predicate FirstLess(a: Text, b: Text, k: nat) {
    k <= |a| && k < |b| && a[..k] == b[..k] && (k == |a| || a[k] < b[k])
  }

  lemma FirstLessNext(a: Text, b: Text, k: nat)
    requires |a| > 0 && |b| > 0 && a[0] == b[0]
    ensures FirstLess(a[1..], b[1..], k) <==> FirstLess(a, b, k + 1)
  {
    if k < |a| && k < |b| {
      assert a[..k + 1] == [a[0]] + a[1..][..k] && b[..k + 1] == [b[0]] + b[1..][..k];
      assert a[1..][..k] == a[..k + 1][1..] && b[1..][..k] == b[..k + 1][1..];
    }
  }

  lemma FirstLessHead(a: Text, b: Text, k: nat)
    requires FirstLess(a, b, k) && k > 0
    ensures |a| > 0 && |b| > 0 && a[0] == b[0]
  {
    assert a[..k][0] == a[0] && b[..k][0] == b[0];
  }

  /** The order of texts is that of their first difference. */
  lemma {:induction false} TextLessExactly(a: Text, b: Text)
    ensures TextLess(a, b) <==> Lesser(a, b)
  {
    if |a| > 0 && |b| > 0 && a[0] == b[0] {
      TextLessExactly(a[1..], b[1..]);
      if k: nat :| FirstLess(a[1..], b[1..], k) { FirstLessNext(a, b, k); }
      if k: nat :| FirstLess(a, b, k) && k > 0 { FirstLessNext(a, b, k - 1); }
    } else {
      if k: nat :| FirstLess(a, b, k) && k > 0 { FirstLessHead(a, b, k); }
      assert TextLess(a, b) ==> FirstLess(a, b, 0);
    }
  }

  /** `a` was updated after `b`; or at the same time, and has the greater id. */
  ghost predicate Newer(a: Session, b: Session) {
    Lesser(b.updatedAt, a.updatedAt) || (a.updatedAt == b.updatedAt && Lesser(b.id, a.id))
  }

  ghost predicate NewestFirst(ss: seq<Session>) {
    forall i, j :: 0 <= i < j < |ss| ==> Newer(ss[i], ss[j])
  }

  /** Newest first, no key twice. */
  predicate Descending(ss: seq<Session>) {
    forall i, j :: 0 <= i < j < |ss| ==> Less(KeyOf(ss[j]), KeyOf(ss[i]))
  }

  lemma DescendingExactly(ss: seq<Session>)
    ensures Descending(ss) <==> NewestFirst(ss)
  {
    forall i, j | 0 <= i < j < |ss| ensures Less(KeyOf(ss[j]), KeyOf(ss[i])) <==> Newer(ss[i], ss[j]) {
      TextLessExactly(ss[j].updatedAt, ss[i].updatedAt);
      TextLessExactly(ss[j].id, ss[i].id);
    }
  }

  // Sorting, newest first; sessions with equal keys keep their order.

  function Insert(ss: seq<Session>, s: Session): seq<Session> {
    if |ss| == 0 then [s]
    else if Less(KeyOf(ss[|ss| - 1]), KeyOf(s)) then Insert(ss[..|ss| - 1], s) + [ss[|ss| - 1]]
    else ss + [s]
  }

  function Sort(ss: seq<Session>): seq<Session> {
    if |ss| == 0 then [] else Insert(Sort(ss[..|ss| - 1]), ss[|ss| - 1])
  }

  predicate DistinctKeys(ss: seq<Session>) {
    forall i, j :: 0 <= i < j < |ss| ==> KeyOf(ss[i]) != KeyOf(ss[j])
  }

  lemma {:induction false} InsertHas(ss: seq<Session>, s: Session)
    ensures multiset(Insert(ss, s)) == multiset(ss) + multiset{s}
  {
    if |ss| > 0 {
      assert ss == ss[..|ss| - 1] + [ss[|ss| - 1]];
      InsertHas(ss[..|ss| - 1], s);
    }
  }

  lemma Inserted(ss: seq<Session>, s: Session, i: nat)
    requires i < |Insert(ss, s)|
    ensures Insert(ss, s)[i] == s || Insert(ss, s)[i] in ss
  {
    InsertHas(ss, s);
    assert Insert(ss, s)[i] in multiset(Insert(ss, s));
  }

  lemma {:induction false} InsertSorts(ss: seq<Session>, s: Session)
    requires Descending(ss) && forall i :: 0 <= i < |ss| ==> KeyOf(ss[i]) != KeyOf(s)
    ensures Descending(Insert(ss, s))
  {
    if |ss| > 0 {
      var front, last := ss[..|ss| - 1], ss[|ss| - 1];
      if Less(KeyOf(last), KeyOf(s)) {
        InsertSorts(front, s);
        var t := Insert(front, s);
        forall i | 0 <= i < |t| ensures Less(KeyOf(last), KeyOf(t[i])) {
          Inserted(front, s, i);
          if t[i] != s {
            var j :| 0 <= j < |front| && front[j] == t[i];
            assert Less(KeyOf(ss[|front|]), KeyOf(ss[j]));
          }
        }
      } else {
        forall i | 0 <= i < |ss| ensures Less(KeyOf(s), KeyOf(ss[i])) {
          LessTotal(KeyOf(last), KeyOf(s));
          if i < |front| { LessTransitive(KeyOf(s), KeyOf(last), KeyOf(ss[i])); }
        }
      }
    }
  }

  /** Sorting sessions with distinct keys puts the same sessions in descending order. */
  lemma {:induction false} SortSorts(ss: seq<Session>)
    requires DistinctKeys(ss)
    ensures Descending(Sort(ss)) && NewestFirst(Sort(ss)) && multiset(Sort(ss)) == multiset(ss) && |Sort(ss)| == |ss|
  {
    DescendingExactly(Sort(ss));
    if |ss| > 0 {
      var front, last := ss[..|ss| - 1], ss[|ss| - 1];
      assert ss == front + [last];
      SortSorts(front);
      var t := Sort(front);
      forall i | 0 <= i < |t| ensures KeyOf(t[i]) != KeyOf(last) {
        assert t[i] in multiset(t);
        assert t[i] in multiset(front);
        var j :| 0 <= j < |front| && front[j] == t[i];
        assert ss[j] == t[i];
      }
      InsertHas(t, last);
      InsertSorts(t, last);
      assert |multiset(Sort(ss))| == |multiset(ss)|;
    }
  }

  // The cursor.

  const NUL: Byte := 0

  /** Python's `split` on the NUL character. */
  function Split(t: Text): (parts: seq<Text>)
    ensures |parts| > 0
  {
    if |t| == 0 then [[]]
    else
      var rest := Split(t[1..]);
      if t[0] == NUL then [[]] + rest else [[t[0]] + rest[0]] + rest[1..]
  }

  function EncodeCursor(s: Session): string {
    EncodeCursorBytes(s.updatedAt + [NUL] + s.id)
  }

  predicate Ascii(s: string) {
    forall i :: 0 <= i < |s| ==> s[i] < 128 as char
  }

  /** The key a cursor names. A text with other characters than ASCII is refused before it
      is decoded. */
  function DecodeCursor(f: Formats, cursor: string): Option<Key> {
    if !Ascii(cursor) then None
    else
      match DecodeCursorBytes(cursor)
      case None => None
      case Some(t) => ParseKey(f, t)
  }

  function ParseKey(f: Formats, t: Text): Option<Key> {
    if !f.utf8(t) then None
    else
      var parts := Split(t);
      if |parts| != 2 || !f.isoDate(parts[0]) || parts[1] == [] then None else Some((parts[0], parts[1]))
  }

  lemma {:induction false} SplitWhole(t: Text)
    requires NUL !in t
    ensures Split(t) == [t]
  {
    if |t| > 0 {
      SplitWhole(t[1..]);
      assert [t[0]] + t[1..] == t;
    }
  }

  lemma {:induction false} SplitAt(a: Text, b: Text)
    requires NUL !in a
    ensures Split(a + [NUL] + b) == [a] + Split(b)
  {
    var t := a + [NUL] + b;
    if |a| == 0 {
      assert t[1..] == b;
    } else {
      assert t[1..] == a[1..] + [NUL] + b;
      SplitAt(a[1..], b);
      assert [a[0]] + a[1..] == a;
    }
  }

  lemma {:induction false} SplitCount(t: Text)
    ensures |Split(t)| == 1 + multiset(t)[NUL]
  {
    if |t| > 0 {
      SplitCount(t[1..]);
      assert t == [t[0]] + t[1..];
    }
  }

  /** The payload splits back into its two parts exactly when neither contains NUL. */
  lemma SplitRoundTrip(a: Text, b: Text)
    ensures Split(a + [NUL] + b) == [a, b] <==> NUL !in a && NUL !in b
  {
    if NUL !in a {
      SplitAt(a, b);
      SplitCount(b);
      if NUL !in b { SplitWhole(b); }
    } else {
      SplitCount(a + [NUL] + b);
      assert multiset(a + [NUL] + b) == multiset(a) + multiset([NUL]) + multiset(b);
    }
  }

  /** What the formats must accept for a session's cursor to lead back to it. */
  predicate Clean(f: Formats, s: Session) {
    && NUL !in s.updatedAt && NUL !in s.id
    && f.utf8(s.updatedAt + [NUL] + s.id) && f.isoDate(s.updatedAt) && s.id != []
  }

  lemma ParsePayload(f: Formats, s: Session)
    ensures ParseKey(f, s.updatedAt + [NUL] + s.id) == if Clean(f, s) then Some(KeyOf(s)) else None
  {
    var parts := Split(s.updatedAt + [NUL] + s.id);
    SplitRoundTrip(s.updatedAt, s.id);
    SplitCount(s.updatedAt + [NUL] + s.id);
    assert multiset(s.updatedAt + [NUL] + s.id) == multiset(s.updatedAt) + multiset([NUL]) + multiset(s.id);
  }

  /** A session's cursor decodes to its sort key where its parts are free of NUL, its text is
      valid, its time is a date and its id is not empty; any other cursor is refused. */
  lemma CursorRoundTrip(f: Formats, s: Session)
    ensures DecodeCursor(f, EncodeCursor(s)) == if Clean(f, s) then Some(KeyOf(s)) else None
  {
    var t := s.updatedAt + [NUL] + s.id;
    StripEncode(t);
    EncodedShape(t);
    var cursor := EncodeCursor(s);
    assert forall i :: 0 <= i < |cursor| ==> cursor[i] in EncodeUnpadded(t);
    RoundTrip(t);
    ParsePayload(f, s);
  }

  // One page.

  /** The first session older than the key, or the end. */
  function IndexBelow(ss: seq<Session>, key: Key): (i: nat)
    ensures i <= |ss| && (i < |ss| ==> Less(KeyOf(ss[i]), key))
    ensures forall j :: 0 <= j < i ==> !Less(KeyOf(ss[j]), key)
  {
    if |ss| == 0 || Less(KeyOf(ss[0]), key) then 0
    else
      var i := IndexBelow(ss[1..], key);
      assert forall j :: 0 < j < i + 1 ==> ss[j] == ss[1..][j - 1];
      i + 1
  }

  function StartOf(f: Formats, ss: seq<Session>, cursor: Option<string>): (i: nat)
    ensures i <= |ss|
  {
    match cursor
    case None => 0
    case Some(c) =>
      match DecodeCursor(f, c)
      case None => |ss|
      case Some(key) => IndexBelow(ss, key)
  }

  datatype Page = Page(items: seq<Session>, next: Option<string>)

  function EndOf(ss: seq<Session>, start: nat, limit: nat): (end: nat)
    requires start <= |ss|
    ensures start <= end <= |ss| && (limit > 0 && start < |ss| ==> start < end)
  {
    if start + limit < |ss| then start + limit else |ss|
  }

  /** The page of a sorted list from a position on. */
  function PageAt(ss: seq<Session>, start: nat, limit: nat): Page
    requires start <= |ss|
  {
    var end := EndOf(ss, start, limit);
    Page(ss[start..end], if end < |ss| && start < end then Some(EncodeCursor(ss[end - 1])) else None)
  }

  /** One answer, over the sessions that pass the request's filters. */
  function ListPage(f: Formats, sessions: seq<Session>, cursor: Option<string>, limit: nat): Page {
    PageAt(Sort(sessions), StartOf(f, Sort(sessions), cursor), limit)
  }

  function Last(ss: seq<Session>): Session
    requires |ss| > 0
  {
    ss[|ss| - 1]
  }

  // Where a page stands in the order.

  /** Every session comes after the bound, if there is one. */
  predicate Below(ss: seq<Session>, bound: Option<Key>) {
    bound.Some? ==> forall i :: 0 <= i < |ss| ==> Less(KeyOf(ss[i]), bound.value)
  }

  /** A session with this key is on the list. */
  predicate Lists(ss: seq<Session>, key: Key) {
    exists i :: 0 <= i < |ss| && KeyOf(ss[i]) == key
  }

  predicate Under(key: Key, bound: Option<Key>) {
    bound.Some? ==> Less(key, bound.value)
  }

  /** The cursor of a bound: none, or one that decodes to it. */
  predicate Names(f: Formats, cursor: Option<string>, bound: Option<Key>) {
    match cursor
    case None => bound.None?
    case Some(c) => bound.Some? && DecodeCursor(f, c) == bound
  }

  /** The bound of a cursor that follows a session. */
  lemma NextNames(f: Formats, s: Session)
    ensures Clean(f, s) ==> Names(f, Some(EncodeCursor(s)), Some(KeyOf(s)))
    ensures !Clean(f, s) ==> DecodeCursor(f, EncodeCursor(s)) == None
  {
    CursorRoundTrip(f, s);
  }

  lemma SortMember(ss: seq<Session>, s: Session)
    requires DistinctKeys(ss)
    ensures s in Sort(ss) <==> s in ss
  {
    SortSorts(ss);
    assert s in multiset(Sort(ss)) <==> s in multiset(ss);
  }

  lemma SortLists(ss: seq<Session>, key: Key)
    requires DistinctKeys(ss)
    ensures Lists(Sort(ss), key) <==> Lists(ss, key)
  {
    if i :| 0 <= i < |ss| && KeyOf(ss[i]) == key { SortMember(ss, ss[i]); }
    if i :| 0 <= i < |Sort(ss)| && KeyOf(Sort(ss)[i]) == key { SortMember(ss, Sort(ss)[i]); }
  }

  lemma StartBelow(f: Formats, ss: seq<Session>, cursor: Option<string>, bound: Option<Key>)
    requires Descending(ss) && Names(f, cursor, bound)
    ensures var start := StartOf(f, ss, cursor);
            Below(ss[start..], bound) && StartsAt(ss, start, bound)
  {
    if bound.Some? {
      var start := IndexBelow(ss, bound.value);
      forall i | 0 <= i < |ss| - start ensures Less(KeyOf(ss[start..][i]), bound.value) {
        if i > 0 { LessTransitive(KeyOf(ss[start + i]), KeyOf(ss[start]), bound.value); }
      }
    }
  }

  lemma SliceInOrder(ss: seq<Session>, start: nat, end: nat, bound: Option<Key>)
    requires Descending(ss) && start <= end <= |ss| && Below(ss[start..], bound)
    ensures Descending(ss[start..end]) && Below(ss[start..end], bound)
  {
    assert forall i :: 0 <= i < end - start ==> ss[start..end][i] == ss[start..][i] == ss[start + i];
  }

  /** A page is in order and below its bound, and its next cursor follows its last session. */
  predicate InOrder(page: Page, bound: Option<Key>) {
    && Descending(page.items) && Below(page.items, bound)
    && (page.next.Some? ==> |page.items| > 0 && page.next == Some(EncodeCursor(Last(page.items))))
  }

  lemma PageInOrder(ss: seq<Session>, start: nat, bound: Option<Key>, limit: nat)
    requires Descending(ss) && start <= |ss| && Below(ss[start..], bound)
    ensures InOrder(PageAt(ss, start, limit), bound)
  {
    var end := EndOf(ss, start, limit);
    SliceInOrder(ss, start, end, bound);
    var items := ss[start..end];
    assert PageAt(ss, start, limit).items == items;
    assert start < end ==> Last(items) == ss[end - 1];
  }

  /** A page leaves a session out only where it goes on to say so: there is a next page, and
      the session comes after the last one shown. */
  predicate Leaves(page: Page, key: Key) {
    !Lists(page.items, key) ==> page.next.Some? && |page.items| > 0 && Less(key, KeyOf(Last(page.items)))
  }

  /** A page may start anywhere that leaves nothing below its bound behind. */
  predicate StartsAt(ss: seq<Session>, start: nat, bound: Option<Key>) {
    && start <= |ss|
    && (bound.Some? ==> forall j :: 0 <= j < start ==> !Less(KeyOf(ss[j]), bound.value))
    && (bound.None? ==> start == 0)
  }

  lemma PageShows(ss: seq<Session>, start: nat, bound: Option<Key>, limit: nat, key: Key)
    requires Descending(ss) && StartsAt(ss, start, bound) && limit > 0 && Lists(ss, key) && Under(key, bound)
    ensures Leaves(PageAt(ss, start, limit), key)
  {
    var end := EndOf(ss, start, limit);
    var items := ss[start..end];
    assert PageAt(ss, start, limit).items == items;
    var k :| 0 <= k < |ss| && KeyOf(ss[k]) == key;
    assert k >= start;
    if k < end {
      assert items[k - start] == ss[k];
    } else {
      assert start < end < |ss| && Last(items) == ss[end - 1];
    }
  }

  /** One page: newest first, as many sessions as asked for and a cursor where some are left,
      and no cursor where none is. */
  lemma PageNewestFirst(f: Formats, sessions: seq<Session>, cursor: Option<string>, limit: nat)
    requires DistinctKeys(sessions)
    ensures var page := ListPage(f, sessions, cursor, limit);
            && NewestFirst(page.items) && |page.items| <= limit
            && (page.next.Some? ==> |page.items| == limit)
            && (cursor.None? && limit > 0 ==> (page.next.Some? <==> |sessions| > limit))
  {
    var ss := Sort(sessions);
    var start := StartOf(f, ss, cursor);
    SortSorts(sessions);
    SliceInOrder(ss, start, EndOf(ss, start, limit), None);
    DescendingExactly(ListPage(f, sessions, cursor, limit).items);
  }

  // Following cursors, while the sessions change.

  /** What answers a request over a snapshot; `Lister` is the session list. */
  type Pager = (seq<Session>, Option<string>) -> Page

  function Lister(f: Formats, limit: nat): Pager {
    (sessions, cursor) => ListPage(f, sessions, cursor, limit)
  }

  /** The sessions shown by following cursors, one request per snapshot, and whether the
      last answer said that there was no more. */
  function FollowBy(pager: Pager, snapshots: seq<seq<Session>>, cursor: Option<string>): (seq<Session>, bool) {
    if |snapshots| == 0 then ([], false)
    else
      var page := pager(snapshots[0], cursor);
      if page.next.None? then (page.items, true)
      else
        var (rest, done) := FollowBy(pager, snapshots[1..], page.next);
        (page.items + rest, done)
  }

  function Follow(f: Formats, snapshots: seq<seq<Session>>, limit: nat): (seq<Session>, bool) {
    FollowBy(Lister(f, limit), snapshots, None)
  }

  /** What an answer promises of its snapshot: sessions of it, in order, and none left out that
      it does not know of. */
  ghost predicate PageLaw(f: Formats, sessions: seq<Session>, cursor: Option<string>, bound: Option<Key>, page: Page) {
    && InOrder(page, bound)
    && (forall s :: s in page.items ==> s in sessions)
    && forall key :: Lists(sessions, key) && Under(key, bound) ==> Leaves(page, key)
  }

  ghost predicate Answers(f: Formats, pager: Pager) {
    && (forall ss, cursor, bound :: DistinctKeys(ss) && Names(f, cursor, bound) ==> PageLaw(f, ss, cursor, bound, pager(ss, cursor)))
    && (forall ss, c :: DecodeCursor(f, c) == None ==> pager(ss, Some(c)) == Page([], None))
  }

  lemma ListerAnswers(f: Formats, limit: nat)
    requires limit > 0
    ensures Answers(f, Lister(f, limit))
  {
    var pager := Lister(f, limit);
    forall ss, cursor, bound | DistinctKeys(ss) && Names(f, cursor, bound)
      ensures PageLaw(f, ss, cursor, bound, pager(ss, cursor))
    {
      SortSorts(ss);
      StartBelow(f, Sort(ss), cursor, bound);
      var start := StartOf(f, Sort(ss), cursor);
      PageInOrder(Sort(ss), start, bound, limit);
      forall s | s in pager(ss, cursor).items ensures s in ss { SortMember(ss, s); }
      forall key | Lists(ss, key) && Under(key, bound) ensures Leaves(pager(ss, cursor), key) {
        SortLists(ss, key);
        PageShows(Sort(ss), start, bound, limit, key);
      }
    }
  }

  predicate AllDistinct(snapshots: seq<seq<Session>>) {
    forall i :: 0 <= i < |snapshots| ==> DistinctKeys(snapshots[i])
  }

  /** A session stays on the list under its key. */
  predicate Stays(snapshots: seq<seq<Session>>, key: Key) {
    forall i :: 0 <= i < |snapshots| ==> Lists(snapshots[i], key)
  }

  lemma Later(snapshots: seq<seq<Session>>, key: Key)
    requires |snapshots| > 0
    ensures AllDistinct(snapshots) ==> AllDistinct(snapshots[1..])
    ensures Stays(snapshots, key) ==> Stays(snapshots[1..], key) && Lists(snapshots[0], key)
  {
    assert forall i :: 0 <= i < |snapshots| - 1 ==> snapshots[1..][i] == snapshots[i + 1];
  }

  lemma Joined(a: seq<Session>, b: seq<Session>)
    requires |a| > 0 && Descending(a) && Descending(b) && Below(b, Some(KeyOf(Last(a))))
    ensures Descending(a + b)
  {
    forall i, j | 0 <= i < j < |a + b| ensures Less(KeyOf((a + b)[j]), KeyOf((a + b)[i])) {
      if i < |a| <= j && i < |a| - 1 { LessTransitive(KeyOf(b[j - |a|]), KeyOf(Last(a)), KeyOf(a[i])); }
    }
  }

  lemma BelowOn(ss: seq<Session>, a: Key, bound: Option<Key>)
    requires Below(ss, Some(a)) && (bound.Some? ==> Less(a, bound.value))
    ensures Below(ss, bound)
  {
    if bound.Some? {
      forall i | 0 <= i < |ss| ensures Less(KeyOf(ss[i]), bound.value) { LessTransitive(KeyOf(ss[i]), a, bound.value); }
    }
  }

  /** A page and what is shown after it make one list in order. */
  lemma JoinedBelow(page: Page, bound: Option<Key>, shown: seq<Session>)
    requires InOrder(page, bound) && page.next.Some? && Descending(shown) && Below(shown, Some(KeyOf(Last(page.items))))
    ensures Descending(page.items + shown) && Below(page.items + shown, bound)
  {
    Joined(page.items, shown);
    BelowOn(shown, KeyOf(Last(page.items)), bound);
  }

  /** Whatever the sessions do between the requests, what is shown is strictly descending, so
      that no session comes twice under one key. */
  lemma {:induction false} FollowInOrder(f: Formats, pager: Pager, snapshots: seq<seq<Session>>, cursor: Option<string>, bound: Option<Key>)
    requires Answers(f, pager) && AllDistinct(snapshots) && Names(f, cursor, bound)
    ensures var shown := FollowBy(pager, snapshots, cursor).0;
            Descending(shown) && Below(shown, bound)
    decreases |snapshots|
  {
    if |snapshots| > 0 {
      var page, later := pager(snapshots[0], cursor), snapshots[1..];
      assert PageLaw(f, snapshots[0], cursor, bound, page);
      if page.next.Some? {
        var last := Last(page.items);
        NextNames(f, last);
        if Clean(f, last) {
          assert forall i :: 0 <= i < |later| ==> later[i] == snapshots[i + 1];
          FollowInOrder(f, pager, later, page.next, Some(KeyOf(last)));
        } else {
          FollowRefused(f, pager, later, page.next.value);
        }
        JoinedBelow(page, bound, FollowBy(pager, later, page.next).0);
      }
    }
  }

  /** A cursor that does not decode is answered with an empty last page. */
  lemma FollowRefused(f: Formats, pager: Pager, snapshots: seq<seq<Session>>, cursor: string)
    requires Answers(f, pager) && DecodeCursor(f, cursor) == None
    ensures FollowBy(pager, snapshots, Some(cursor)) == ([], |snapshots| > 0)
  {
  }

  /** On some page before the one that would show the key, the last session has a cursor that
      does not decode. */
  predicate CutOff(f: Formats, pager: Pager, snapshots: seq<seq<Session>>, cursor: Option<string>, key: Key) {
    |snapshots| > 0 &&
    var page := pager(snapshots[0], cursor);
    !Lists(page.items, key) && page.next.Some? && |page.items| > 0 &&
    (!Clean(f, Last(page.items)) || CutOff(f, pager, snapshots[1..], page.next, key))
  }

  lemma ListsEither(a: seq<Session>, b: seq<Session>, key: Key)
    ensures Lists(a + b, key) <==> Lists(a, key) || Lists(b, key)
  {
    if i :| 0 <= i < |a| && KeyOf(a[i]) == key { assert (a + b)[i] == a[i]; }
    if i :| 0 <= i < |b| && KeyOf(b[i]) == key { assert (a + b)[|a| + i] == b[i]; }
  }

  /** Once the end is reached, a key that was there at each request has been shown if and only
      if it was not cut off. */
  lemma {:induction false} FollowMissesIff(f: Formats, pager: Pager, snapshots: seq<seq<Session>>, cursor: Option<string>, bound: Option<Key>, key: Key)
    requires Answers(f, pager) && AllDistinct(snapshots) && Names(f, cursor, bound)
    requires Stays(snapshots, key) && Under(key, bound) && FollowBy(pager, snapshots, cursor).1
    ensures Lists(FollowBy(pager, snapshots, cursor).0, key) <==> !CutOff(f, pager, snapshots, cursor, key)
    decreases |snapshots|
  {
    var page, later := pager(snapshots[0], cursor), snapshots[1..];
    assert PageLaw(f, snapshots[0], cursor, bound, page);
    Later(snapshots, key);
    assert Leaves(page, key);
    if page.next.Some? {
      var last, rest := Last(page.items), FollowBy(pager, later, page.next).0;
      ListsEither(page.items, rest, key);
      NextNames(f, last);
      if !Lists(page.items, key) {
        if Clean(f, last) {
          FollowMissesIff(f, pager, later, page.next, Some(KeyOf(last)), key);
        } else {
          FollowRefused(f, pager, later, page.next.value);
        }
      }
    }
  }

  predicate ShownOnce(shown: seq<Session>, key: Key) {
    exists i :: 0 <= i < |shown| && KeyOf(shown[i]) == key && forall j :: 0 <= j < |shown| && KeyOf(shown[j]) == key ==> j == i
  }

  lemma OnceInOrder(shown: seq<Session>, key: Key)
    requires Descending(shown)
    ensures ShownOnce(shown, key) <==> Lists(shown, key)
  {
    if i :| 0 <= i < |shown| && KeyOf(shown[i]) == key {
      forall j | 0 <= j < |shown| && KeyOf(shown[j]) == key ensures j == i { LessIrreflexive(key); }
    }
  }

  /** Paging to the end of a list that changes: what is shown is in descending order, and a
      session that stays there under its key is shown exactly once, whatever happens to the
      others, if and only if it is not cut off. */
  lemma FollowIsComplete(f: Formats, pager: Pager, snapshots: seq<seq<Session>>, key: Key)
    requires Answers(f, pager) && AllDistinct(snapshots) && Stays(snapshots, key) && FollowBy(pager, snapshots, None).1
    ensures Descending(FollowBy(pager, snapshots, None).0)
    ensures ShownOnce(FollowBy(pager, snapshots, None).0, key) <==> !CutOff(f, pager, snapshots, None, key)
  {
    FollowInOrder(f, pager, snapshots, None, None);
    FollowMissesIff(f, pager, snapshots, None, None, key);
    OnceInOrder(FollowBy(pager, snapshots, None).0, key);
  }

  /** Whatever the sessions do between the requests, those shown come newest first. */
  lemma FollowNewestFirst(f: Formats, snapshots: seq<seq<Session>>, limit: nat)
    requires AllDistinct(snapshots) && limit > 0
    ensures NewestFirst(Follow(f, snapshots, limit).0)
  {
    ListerAnswers(f, limit);
    FollowInOrder(f, Lister(f, limit), snapshots, None, None);
    DescendingExactly(Follow(f, snapshots, limit).0);
  }

  /** Of the session list itself. */
  lemma PagingIsComplete(f: Formats, snapshots: seq<seq<Session>>, limit: nat, key: Key)
    requires AllDistinct(snapshots) && limit > 0 && Stays(snapshots, key) && Follow(f, snapshots, limit).1
    ensures Descending(Follow(f, snapshots, limit).0)
    ensures ShownOnce(Follow(f, snapshots, limit).0, key) <==> !CutOff(f, Lister(f, limit), snapshots, None, key)
  {
    ListerAnswers(f, limit);
    FollowIsComplete(f, Lister(f, limit), snapshots, key);
  }

  predicate AllClean(f: Formats, snapshots: seq<seq<Session>>) {
    forall i, s :: 0 <= i < |snapshots| && s in snapshots[i] ==> Clean(f, s)
  }

  /** Where every session is clean, nothing is cut off. */
  lemma {:induction false} CleanNeverCuts(f: Formats, pager: Pager, snapshots: seq<seq<Session>>, cursor: Option<string>, bound: Option<Key>, key: Key)
    requires Answers(f, pager) && AllDistinct(snapshots) && Names(f, cursor, bound) && AllClean(f, snapshots)
    ensures !CutOff(f, pager, snapshots, cursor, key)
    decreases |snapshots|
  {
    if |snapshots| > 0 {
      var page, later := pager(snapshots[0], cursor), snapshots[1..];
      assert PageLaw(f, snapshots[0], cursor, bound, page);
      if page.next.Some? {
        var last := Last(page.items);
        assert last in page.items;
        NextNames(f, last);
        Later(snapshots, key);
        assert forall i :: 0 <= i < |later| ==> later[i] == snapshots[i + 1];
        CleanNeverCuts(f, pager, later, page.next, Some(KeyOf(last)), key);
      }
    }
  }

  /** With valid times, identifiers that are not empty and no NUL in either, every session that
      stays is shown exactly once. */
  lemma CleanIsComplete(f: Formats, pager: Pager, snapshots: seq<seq<Session>>, key: Key)
    requires Answers(f, pager) && AllDistinct(snapshots) && AllClean(f, snapshots)
    requires Stays(snapshots, key) && FollowBy(pager, snapshots, None).1
    ensures ShownOnce(FollowBy(pager, snapshots, None).0, key)
  {
    CleanNeverCuts(f, pager, snapshots, None, None, key);
    FollowIsComplete(f, pager, snapshots, key);
  }

  // Following cursors over sessions that do not change.

  /** The last session of every page but the last one has a cursor that decodes. */
  predicate CleanBoundaries(f: Formats, ss: seq<Session>, start: nat, limit: nat)
    requires limit > 0
    decreases |ss| - start
  {
    start + limit < |ss| ==> Clean(f, ss[start + limit - 1]) && CleanBoundaries(f, ss, start + limit, limit)
  }

  /** Where the page after a boundary starts: at the end, if the boundary is not clean. */
  function NextOf(f: Formats, ss: seq<Session>, end: nat): (next: nat)
    requires 0 < end <= |ss|
    ensures end <= next <= |ss|
  {
    if Clean(f, ss[end - 1]) then end else |ss|
  }

  /** How far a walk from a position gets: whole pages, up to a boundary that is not clean. */
  function Reach(f: Formats, ss: seq<Session>, start: nat, limit: nat): (n: nat)
    requires limit > 0 && start <= |ss|
    ensures start <= n <= |ss|
    decreases |ss| - start
  {
    if start + limit >= |ss| then |ss|
    else if Clean(f, ss[start + limit - 1]) then Reach(f, ss, start + limit, limit)
    else start + limit
  }

  /** A page and what is reached from the next one make up what is reached from here. */
  lemma ReachStep(f: Formats, ss: seq<Session>, start: nat, limit: nat)
    requires limit > 0 && start + limit < |ss|
    ensures var end := start + limit;
            var next := NextOf(f, ss, end);
            ss[start..end] + ss[next..Reach(f, ss, next, limit)] == ss[start..Reach(f, ss, start, limit)]
  {
    var end := start + limit;
    if Clean(f, ss[end - 1]) {
      SlicesJoin(ss, start, end, Reach(f, ss, end, limit));
    } else {
      assert ss[|ss|..|ss|] == [];
    }
  }

  lemma {:induction false} ReachesAllIff(f: Formats, ss: seq<Session>, start: nat, limit: nat)
    requires limit > 0 && start <= |ss|
    ensures Reach(f, ss, start, limit) == |ss| <==> CleanBoundaries(f, ss, start, limit)
    decreases |ss| - start
  {
    if start + limit < |ss| { ReachesAllIff(f, ss, start + limit, limit); }
  }

  lemma SlicesJoin(ss: seq<Session>, a: nat, b: nat, c: nat)
    requires a <= b <= c <= |ss|
    ensures ss[a..b] + ss[b..c] == ss[a..c]
  {
  }

  lemma StartAfter(f: Formats, ss: seq<Session>, cursor: Option<string>, end: nat)
    requires Descending(ss) && 0 < end <= |ss| && Names(f, cursor, Some(KeyOf(ss[end - 1])))
    ensures StartOf(f, ss, cursor) == end
  {
    var key := KeyOf(ss[end - 1]);
    var i := StartOf(f, ss, cursor);
    assert i == IndexBelow(ss, key);
    LessIrreflexive(key);
    assert end < |ss| ==> Less(KeyOf(ss[end]), key);
    if i < end - 1 {
      LessTransitive(KeyOf(ss[i]), key, KeyOf(ss[i]));
      LessIrreflexive(KeyOf(ss[i]));
    }
  }

  function Repeat(sessions: seq<Session>, n: nat): (r: seq<seq<Session>>)
    ensures |r| == n
  {
    if n == 0 then [] else [sessions] + Repeat(sessions, n - 1)
  }

  /** The page from a position on, and the position its cursor leads to. */
  predicate Served(f: Formats, ss: seq<Session>, start: nat, limit: nat, page: Page, startOf: Option<string> -> nat) {
    && start <= |ss|
    && var end := EndOf(ss, start, limit);
       && page.items == ss[start..end]
       && (page.next.Some? <==> end < |ss| && start < end)
       && (page.next.Some? ==> startOf(page.next) == NextOf(f, ss, end))
  }

  /** A pager that answers from a sorted list that stays the same. */
  ghost predicate Serves(f: Formats, pager: Pager, startOf: Option<string> -> nat, sessions: seq<Session>, ss: seq<Session>, limit: nat) {
    forall cursor :: Served(f, ss, startOf(cursor), limit, pager(sessions, cursor), startOf)
  }

  /** Where the cursor after a session leads. */
  lemma NextStart(f: Formats, ss: seq<Session>, end: nat)
    requires Descending(ss) && 0 < end <= |ss|
    ensures StartOf(f, ss, Some(EncodeCursor(ss[end - 1]))) == NextOf(f, ss, end)
  {
    NextNames(f, ss[end - 1]);
    if Clean(f, ss[end - 1]) { StartAfter(f, ss, Some(EncodeCursor(ss[end - 1])), end); }
  }

  lemma ServedWith(f: Formats, ss: seq<Session>, start: nat, limit: nat, next: Option<string>, startOf: Option<string> -> nat)
    requires start <= |ss|
    requires var end := EndOf(ss, start, limit);
             (next.Some? <==> end < |ss| && start < end) && (next.Some? ==> startOf(next) == NextOf(f, ss, end))
    ensures Served(f, ss, start, limit, Page(ss[start..EndOf(ss, start, limit)], next), startOf)
  {
  }

  lemma PageServed(f: Formats, ss: seq<Session>, start: nat, limit: nat)
    requires Descending(ss) && start <= |ss|
    ensures Served(f, ss, start, limit, PageAt(ss, start, limit), cursor => StartOf(f, ss, cursor))
  {
    var end := EndOf(ss, start, limit);
    if start < end { NextStart(f, ss, end); }
    ServedWith(f, ss, start, limit, PageAt(ss, start, limit).next, cursor => StartOf(f, ss, cursor));
  }

  lemma ListerServes(f: Formats, sessions: seq<Session>, limit: nat)
    requires DistinctKeys(sessions) && limit > 0
    ensures Serves(f, Lister(f, limit), cursor => StartOf(f, Sort(sessions), cursor), sessions, Sort(sessions), limit)
  {
    SortSorts(sessions);
    forall cursor: Option<string> { PageServed(f, Sort(sessions), StartOf(f, Sort(sessions), cursor), limit); }
  }

  lemma FollowHead(pager: Pager, sessions: seq<Session>, n: nat, cursor: Option<string>)
    requires n > 0
    ensures var page := pager(sessions, cursor);
            FollowBy(pager, Repeat(sessions, n), cursor) ==
              if page.next.None? then (page.items, true)
              else var (rest, done) := FollowBy(pager, Repeat(sessions, n - 1), page.next); (page.items + rest, done)
  {
    var r := Repeat(sessions, n);
    assert r[0] == sessions && r[1..] == Repeat(sessions, n - 1);
  }

  lemma {:induction false} FollowUnchanged(f: Formats, pager: Pager, startOf: Option<string> -> nat, sessions: seq<Session>, ss: seq<Session>, limit: nat, cursor: Option<string>, n: nat)
    requires Serves(f, pager, startOf, sessions, ss, limit) && limit > 0 && |ss| - startOf(cursor) < n && startOf(cursor) <= |ss|
    ensures FollowBy(pager, Repeat(sessions, n), cursor) == (ss[startOf(cursor)..Reach(f, ss, startOf(cursor), limit)], true)
    decreases n
  {
    var page, start := pager(sessions, cursor), startOf(cursor);
    var end := EndOf(ss, start, limit);
    assert Served(f, ss, start, limit, page, startOf);
    FollowHead(pager, sessions, n, cursor);
    if page.next.Some? {
      FollowUnchanged(f, pager, startOf, sessions, ss, limit, page.next, n - 1);
      ReachStep(f, ss, start, limit);
    }
  }

  /** What following the list shows of sessions that do not change. */
  lemma UnchangedShown(f: Formats, sessions: seq<Session>, limit: nat)
    requires DistinctKeys(sessions) && limit > 0
    ensures Follow(f, Repeat(sessions, |sessions| + 1), limit) == (Sort(sessions)[..Reach(f, Sort(sessions), 0, limit)], true)
  {
    var ss := Sort(sessions);
    SortSorts(sessions);
    ListerServes(f, sessions, limit);
    var startOf: Option<string> -> nat := cursor => StartOf(f, ss, cursor);
    FollowUnchanged(f, Lister(f, limit), startOf, sessions, ss, limit, None, |sessions| + 1);
  }

  /** Over sessions that do not change paging ends, within one request more than there are
      sessions, and shows them newest first up to the first boundary that is not clean: all
      of them if and only if the last session of every page with a successor is clean. */
  lemma PagingEnds(f: Formats, sessions: seq<Session>, limit: nat)
    requires DistinctKeys(sessions) && limit > 0
    ensures var (shown, done) := Follow(f, Repeat(sessions, |sessions| + 1), limit);
            && done && shown <= Sort(sessions)
            && (shown == Sort(sessions) <==> CleanBoundaries(f, Sort(sessions), 0, limit))
  {
    var ss := Sort(sessions);
    UnchangedShown(f, sessions, limit);
    ReachesAllIff(f, ss, 0, limit);
    assert ss[..|ss|] == ss;
  }

  /** Two sessions, one to a page, the newer one without a clean cursor (a bad date, an empty
      id, a NUL or bytes that are no text): the older one is never shown. */
  lemma UncleanBoundaryMisses(f: Formats, newer: Session, older: Session)
    requires Less(KeyOf(older), KeyOf(newer)) && !Clean(f, newer)
    ensures Follow(f, Repeat([older, newer], 3), 1) == ([newer], true)
    ensures older !in Follow(f, Repeat([older, newer], 3), 1).0
  {
    LessIrreflexive(KeyOf(newer));
    SortTwo(older, newer);
    UnchangedShown(f, [older, newer], 1);
    assert [newer, older][..1] == [newer];
  }

  lemma SortTwo(older: Session, newer: Session)
    requires Less(KeyOf(older), KeyOf(newer))
    ensures Sort([older, newer]) == [newer, older]
  {
    var one, two := [older], [older, newer];
    assert one[..0] == [] && two[..1] == one;
    assert Sort(one) == Insert([], older) == one;
    assert Sort(two) == Insert(one, newer) == Insert([], newer) + one;
    assert [newer] + one == [newer, older];
  }
}
