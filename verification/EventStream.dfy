/** The backend's event stream: what a subscriber is shown of the queue, given where it
    stands. Numbered events of one session come without repetition and without a gap. */
module EventStream {
  import opened Wrappers

  datatype Event = Event(sessionId: Option<string>, id: Option<int>, payload: string)

  datatype Item = Closed | Queued(event: Event)

  /** How a stream stops: at the close, for want of items, or with an error. */
  datatype End =
    | AtClose
    | Waiting
    | StaleCursor(expected: int, received: int)
    | NoSession

  /** Where a subscriber stands: the session, and the last event of it. */
  datatype Mark = Mark(sessionId: string, last: int)

  predicate Numbered(q: Item) {
    q.Queued? && q.event.id.Some?
  }

  /** The position an event is judged from: a new session starts over. */
  function Base(m: Mark, e: Event): Mark {
    if e.sessionId.Some? && e.sessionId.value != m.sessionId then Mark(e.sessionId.value, 0) else m
  }

  /** An item that does not stop the stream: unnumbered, already seen, or next in line. */
  predicate Passes(m: Mark, q: Item) {
    q.Queued? && (q.event.id.Some? ==> q.event.sessionId.Some? && q.event.id.value <= Base(m, q.event).last + 1)
  }

  /** An item that is shown: unnumbered, or next in line. */
  predicate Shown(m: Mark, q: Item) {
    q.Queued? && (q.event.id.Some? ==> q.event.sessionId.Some? && q.event.id.value == Base(m, q.event).last + 1)
  }

  /** The highest event seen of the session an item belongs to. */
  function Passed(m: Mark, q: Item): Mark {
    if !Numbered(q) then m
    else
      var base := Base(m, q.event);
      if q.event.id.value > base.last then base.(last := q.event.id.value) else base
  }

  /** Where a subscriber stands after a list of items. */
  function After(m: Mark, queue: seq<Item>): Mark {
    if |queue| == 0 then m else Passed(After(m, queue[..|queue| - 1]), queue[|queue| - 1])
  }

  predicate AllPass(m: Mark, queue: seq<Item>) {
    |queue| == 0 || (AllPass(m, queue[..|queue| - 1]) && Passes(After(m, queue[..|queue| - 1]), queue[|queue| - 1]))
  }

  /** The events shown of a list of items, each judged by what came before it. */
  function Visible(m: Mark, queue: seq<Item>): seq<Event> {
    if |queue| == 0 then []
    else
      var front, q := queue[..|queue| - 1], queue[|queue| - 1];
      Visible(m, front) + if Shown(After(m, front), q) then [q.event] else []
  }

  /** Why the stream stops at an item. */
  function Stop(m: Mark, q: Item): End {
    match q
    case Closed => AtClose
    case Queued(e) =>
      if e.sessionId.None? then NoSession
      else StaleCursor(Base(m, e).last + 1, if e.id.Some? then e.id.value else 0)
  }

  /** The last event seen of the session a numbered event belongs to, from the mark. */
  function Position(m: Mark, sessionId: string): int {
    if sessionId == m.sessionId then m.last else 0
  }

  /** Why an item ends a stream that stands at the mark: the queue was closed, a number comes
      without a session, or numbers are missing before it. */
  predicate Ends(m: Mark, q: Item, end: End) {
    match end
    case AtClose => q.Closed?
    case NoSession => q.Queued? && q.event.id.Some? && q.event.sessionId.None?
    case StaleCursor(expected, received) =>
      q.Queued? && q.event.id == Some(received) && q.event.sessionId.Some?
      && expected == Position(m, q.event.sessionId.value) + 1 && received > expected
    case Waiting => false
  }

  ghost predicate EndsNothing(m: Mark, q: Item) {
    forall end :: !Ends(m, q, end)
  }

  lemma StopsExactly(m: Mark, q: Item)
    ensures Passes(m, q) <==> EndsNothing(m, q)
    ensures !Passes(m, q) ==> Ends(m, q, Stop(m, q)) && forall end :: Ends(m, q, end) ==> end == Stop(m, q)
  {
    if !Passes(m, q) { assert Ends(m, q, Stop(m, q)); }
  }

  /** Items are read on exactly as long as none of them ends the stream. */
  lemma {:induction false} ReadsOn(m: Mark, queue: seq<Item>)
    ensures AllPass(m, queue) <==> forall i :: 0 <= i < |queue| ==> EndsNothing(After(m, queue[..i]), queue[i])
  {
    if |queue| > 0 {
      var front, last := queue[..|queue| - 1], |queue| - 1;
      ReadsOn(m, front);
      StopsExactly(After(m, front), queue[last]);
      forall i | 0 <= i < last ensures front[..i] == queue[..i] && front[i] == queue[i] {}
    }
  }

  /** The stream replays, then shows what the items up to the first one that does not pass
      have to show, and ends for the reason that item gives. */
  method Stream(sessionId: string, afterEventId: int, replay: seq<Event>, queue: seq<Item>)
    returns (shown: seq<Event>, end: End, read: nat)
    ensures read <= |queue| && AllPass(Mark(sessionId, afterEventId), queue[..read])
    ensures shown == replay + Visible(Mark(sessionId, afterEventId), queue[..read])
    ensures end == Waiting <==> read == |queue|
    ensures read < |queue| ==>
              var m := After(Mark(sessionId, afterEventId), queue[..read]);
              !Passes(m, queue[read]) && Ends(m, queue[read], end)
  {
    shown := replay;
    var session, last := sessionId, afterEventId;
    ghost var start := Mark(sessionId, afterEventId);
    read := 0;
    while read < |queue|
      invariant read <= |queue| && AllPass(start, queue[..read])
      invariant Mark(session, last) == After(start, queue[..read])
      invariant shown == replay + Visible(start, queue[..read])
    {
      var q := queue[read];
      StopsExactly(After(start, queue[..read]), q);
      assert queue[..read + 1][..read] == queue[..read];
      if q.Closed? { return shown, AtClose, read; }
      var e := q.event;
      if e.id.Some? {
        if e.sessionId.None? { return shown, NoSession, read; }
        var base := if e.sessionId.value != session then 0 else last;
        if e.id.value > base && e.id.value != base + 1 { return shown, StaleCursor(base + 1, e.id.value), read; }
        session := e.sessionId.value;
        last := base;
        if e.id.value > base {
          last := e.id.value;
          shown := shown + [e];
        }
      } else {
        shown := shown + [e];
      }
      read := read + 1;
    }
    return shown, Waiting, read;
  }

  // What is shown.

  /** A list of items taken in two parts. */
  lemma {:induction false} InTwo(m: Mark, a: seq<Item>, b: seq<Item>)
    ensures After(m, a + b) == After(After(m, a), b)
    ensures Visible(m, a + b) == Visible(m, a) + Visible(After(m, a), b)
    ensures AllPass(m, a + b) <==> AllPass(m, a) && AllPass(After(m, a), b)
    decreases |b|
  {
    if |b| == 0 {
      assert a + b == a;
    } else {
      assert (a + b)[..|a + b| - 1] == a + b[..|b| - 1];
      InTwo(m, a, b[..|b| - 1]);
    }
  }

  function Unnumbered(es: seq<Event>): seq<Event> {
    if |es| == 0 then [] else Unnumbered(es[..|es| - 1]) + if es[|es| - 1].id.None? then [es[|es| - 1]] else []
  }

  /** The ids of the numbered events, in order. */
  function Ids(es: seq<Event>): seq<int> {
    if |es| == 0 then [] else Ids(es[..|es| - 1]) + if es[|es| - 1].id.Some? then [es[|es| - 1].id.value] else []
  }

  function EventsOf(queue: seq<Item>): seq<Event> {
    if |queue| == 0 then []
    else EventsOf(queue[..|queue| - 1]) + if queue[|queue| - 1].Queued? then [queue[|queue| - 1].event] else []
  }

  lemma Plus(es: seq<Event>, e: Event)
    ensures Unnumbered(es + [e]) == if e.id.None? then Unnumbered(es) + [e] else Unnumbered(es)
    ensures Ids(es + [e]) == if e.id.Some? then Ids(es) + [e.id.value] else Ids(es)
    ensures es + [] == es
  {
    assert (es + [e])[..|es|] == es;
    assert Unnumbered(es) + [] == Unnumbered(es) && Ids(es) + [] == Ids(es);
  }

  /** Every unnumbered event that is read is shown, in order. */
  lemma {:induction false} UnnumberedKept(m: Mark, queue: seq<Item>)
    requires AllPass(m, queue)
    ensures Unnumbered(Visible(m, queue)) == Unnumbered(EventsOf(queue))
  {
    if |queue| > 0 {
      var front, q := queue[..|queue| - 1], queue[|queue| - 1];
      UnnumberedKept(m, front);
      Plus(Visible(m, front), q.event);
      Plus(EventsOf(front), q.event);
    }
  }

  /** An unnumbered event is shown between what was shown before it and what is shown after
      it, and which events those are does not depend on it. */
  lemma UnnumberedInPlace(m: Mark, before: seq<Item>, q: Item, after: seq<Item>)
    requires AllPass(m, before + [q] + after) && q.Queued? && q.event.id.None?
    ensures Visible(m, before + [q] + after) == Visible(m, before) + [q.event] + Visible(After(m, before), after)
  {
    InTwo(m, before + [q], after);
    InTwo(m, before, [q]);
    assert [q][..0] == [] && After(After(m, before), []) == After(m, before);
    assert Visible(After(m, before), [q]) == [] + [q.event] == [q.event];
  }

  /** The numbers after `from` up to `to`. */
  function Range(from: int, to: int): (r: seq<int>)
    ensures forall n :: n in r <==> from < n <= to
    decreases if from < to then to - from else 0
  {
    if from >= to then [] else Range(from, to - 1) + [to]
  }

  lemma RangeNext(from: int, to: int)
    requires from <= to
    ensures Range(from, to + 1) == Range(from, to) + [to + 1]
  {
  }

  /** All numbered items are of one session. */
  predicate OneSession(queue: seq<Item>, sessionId: string) {
    forall i :: 0 <= i < |queue| && Numbered(queue[i]) ==> queue[i].event.sessionId == Some(sessionId)
  }

  /** Within one session the numbered events shown are exactly those after the watermark, up
      to the last one seen, each once and in order. */
  lemma {:induction false} SegmentExact(m: Mark, queue: seq<Item>)
    requires AllPass(m, queue) && OneSession(queue, m.sessionId)
    ensures After(m, queue).sessionId == m.sessionId && After(m, queue).last >= m.last
    ensures Ids(Visible(m, queue)) == Range(m.last, After(m, queue).last)
  {
    if |queue| > 0 {
      var front, q := queue[..|queue| - 1], queue[|queue| - 1];
      assert forall i :: 0 <= i < |front| ==> front[i] == queue[i];
      SegmentExact(m, front);
      var at := After(m, front);
      assert Base(at, q.event) == at || !Numbered(q);
      if Numbered(q) && Shown(at, q) { RangeNext(m.last, at.last); }
      Plus(Visible(m, front), q.event);
    }
  }

  /** Numbered events that are read but not shown were shown before, or lie at or below the
      watermark. */
  lemma DroppedWasSeen(m: Mark, queue: seq<Item>, q: Item)
    requires AllPass(m, queue + [q]) && OneSession(queue + [q], m.sessionId) && Numbered(q) && !Shown(After(m, queue), q)
    ensures q.event.id.value <= m.last || q.event.id.value in Ids(Visible(m, queue))
  {
    assert (queue + [q])[..|queue|] == queue;
    assert (queue + [q])[|queue|] == q;
    assert forall i :: 0 <= i < |queue| ==> queue[i] == (queue + [q])[i];
    SegmentExact(m, queue);
  }

  /** The first numbered item of another session makes the stream start over: it goes on as
      if it stood at the beginning of that session. */
  lemma {:induction false} NewSessionStartsOver(m: Mark, queue: seq<Item>, sessionId: string)
    requires |queue| > 0 && Numbered(queue[0]) && queue[0].event.sessionId == Some(sessionId) && sessionId != m.sessionId
    ensures After(m, queue) == After(Mark(sessionId, 0), queue)
    ensures Visible(m, queue) == Visible(Mark(sessionId, 0), queue)
    ensures AllPass(m, queue) <==> AllPass(Mark(sessionId, 0), queue)
  {
    if |queue| > 1 {
      NewSessionStartsOver(m, queue[..|queue| - 1], sessionId);
    } else {
      assert queue[..0] == [];
      assert Base(m, queue[0].event) == Base(Mark(sessionId, 0), queue[0].event);
    }
  }

  /** A stretch of the queue within one session: the numbers after `from` up to `to`. */
  datatype Stretch = Stretch(sessionId: string, from: int, to: int)

  /** A stretch with one more numbered item of its session. */
  function Extend(t: Stretch, id: int): Stretch {
    t.(to := if id > t.to then id else t.to)
  }

  /** The stretches of a queue: the first goes on from where the subscriber stands, and each
      change of session starts another at zero. */
  function Stretches(m: Mark, queue: seq<Item>): (ts: seq<Stretch>)
    ensures |ts| > 0
  {
    if |queue| == 0 then [Stretch(m.sessionId, m.last, m.last)]
    else
      var ts, q := Stretches(m, queue[..|queue| - 1]), queue[|queue| - 1];
      if !Numbered(q) || q.event.sessionId.None? then ts
      else if q.event.sessionId.value == ts[|ts| - 1].sessionId then ts[|ts| - 1 := Extend(ts[|ts| - 1], q.event.id.value)]
      else ts + [Extend(Stretch(q.event.sessionId.value, 0, 0), q.event.id.value)]
  }

  function Numbers(ts: seq<Stretch>): seq<int> {
    if |ts| == 0 then [] else Numbers(ts[..|ts| - 1]) + Range(ts[|ts| - 1].from, ts[|ts| - 1].to)
  }

  lemma NumbersLast(front: seq<Stretch>, t: Stretch)
    ensures Numbers(front + [t]) == Numbers(front) + Range(t.from, t.to)
  {
    assert (front + [t])[..|front|] == front;
  }

  /** The last stretch is where the subscriber stands. */
  predicate EndsAt(ts: seq<Stretch>, m: Mark) {
    |ts| > 0 && ts[|ts| - 1].sessionId == m.sessionId && ts[|ts| - 1].to == m.last && ts[|ts| - 1].from <= m.last
  }

  /** One more number of the same session. */
  lemma Continues(front: seq<Stretch>, last: Stretch, id: int)
    requires last.from <= last.to && id <= last.to + 1
    ensures Numbers(front + [Extend(last, id)]) == Numbers(front + [last]) + if id == last.to + 1 then [id] else []
  {
    NumbersLast(front, last);
    NumbersLast(front, Extend(last, id));
    var a, b := Numbers(front), Range(last.from, last.to);
    if id == last.to + 1 {
      RangeNext(last.from, last.to);
      assert a + (b + [id]) == (a + b) + [id];
    } else {
      assert (a + b) + [] == a + b;
    }
  }

  /** The first number of another session. */
  lemma Begins(ts: seq<Stretch>, sessionId: string, id: int)
    requires id <= 1
    ensures Numbers(ts + [Extend(Stretch(sessionId, 0, 0), id)]) == Numbers(ts) + if id == 1 then [id] else []
  {
    NumbersLast(ts, Extend(Stretch(sessionId, 0, 0), id));
    RangeNext(0, 0);
    assert Range(0, 0) == [] && [] + [1] == [1];
  }

  /** One more numbered item that passes: the stretches show it if the stream does. */
  lemma OneMore(ts: seq<Stretch>, m: Mark, q: Item, more: seq<Stretch>)
    requires EndsAt(ts, m) && Numbered(q) && Passes(m, q)
    requires var s, last := q.event.sessionId.value, ts[|ts| - 1];
             more == if s == last.sessionId then ts[|ts| - 1 := Extend(last, q.event.id.value)]
                     else ts + [Extend(Stretch(s, 0, 0), q.event.id.value)]
    ensures EndsAt(more, Passed(m, q))
    ensures Numbers(more) == Numbers(ts) + if Shown(m, q) then [q.event.id.value] else []
  {
    var front, last, id := ts[..|ts| - 1], ts[|ts| - 1], q.event.id.value;
    if q.event.sessionId.value == last.sessionId {
      assert ts == front + [last] && more == front + [Extend(last, id)];
      Continues(front, last, id);
    } else {
      Begins(ts, q.event.sessionId.value, id);
    }
  }

  /** For every queue content that is read, over any number of sessions: the numbered events
      shown are, stretch by stretch, exactly the numbers after its watermark, and nothing
      else. */
  lemma {:induction false} StretchesShown(m: Mark, queue: seq<Item>)
    requires AllPass(m, queue)
    ensures Ids(Visible(m, queue)) == Numbers(Stretches(m, queue)) && EndsAt(Stretches(m, queue), After(m, queue))
  {
    if |queue| == 0 {
      NumbersLast([], Stretch(m.sessionId, m.last, m.last));
      assert [] + [Stretch(m.sessionId, m.last, m.last)] == Stretches(m, queue);
    } else {
      var front, q := queue[..|queue| - 1], queue[|queue| - 1];
      var at, ts := After(m, front), Stretches(m, front);
      StretchesShown(m, front);
      assert Passes(at, q) && EndsAt(ts, at);
      Plus(Visible(m, front), q.event);
      if Numbered(q) { OneMore(ts, at, q, Stretches(m, queue)); }
    }
  }
}
