/** The end of a turn: what `finalize` leaves behind, when it raises, and why a run
    without colliding ids never gets there. */
module ProjectorFinish {
  import opened Wrappers
  import opened History
  import opened Projector
  import opened ProjectorHistory

  predicate AllTidy(g: Ledger) {
    forall id :: id in g.entries ==> Tidy(g.entries[id])
  }

  predicate AllCompleted(g: Ledger) {
    forall id :: id in g.entries ==> g.entries[id].generation.Completed?
  }

  /** Every entry completed, no callback open, no effect running or blocked. */
  predicate AllSettled(g: Ledger) {
    forall id :: id in g.entries ==> g.entries[id].generation.Completed? && Closed(g.entries[id].body)
  }

  // One patch.

  /** What a patch does, step by step. */
  lemma PatchSteps(s: State, id: string, ops: seq<Op>)
    requires !s.failed && id in s.ledger.entries
    ensures var e := s.ledger.entries[id];
            var stamped := Stamped(e, ops, s.clock(s.ticks));
            var next := Revise(e, stamped);
            var ticks := if e.generation.Completed? && !TimingOnly(e, ops) then s.ticks else s.ticks + 1;
            Patch(s, id, ops) ==
              if next.None? then s.(ticks := ticks, failed := true)
              else s.(ticks := ticks, ledger := Rewrite(s.ledger, id, next.value), trace := s.trace + [Patched(id, stamped)])
  {
    var e := s.ledger.entries[id];
    StampedAlike(e, ops, s.clock(s.ticks));
    IdentityAlwaysKept(e, Stamped(e, ops, s.clock(s.ticks)));
  }

  /** A patch raises exactly when the rules refuse it; otherwise it puts the patched
      entry in place and nothing else. */
  lemma PatchOutcome(s: State, id: string, ops: seq<Op>)
    requires !s.failed && id in s.ledger.entries
    ensures var e := s.ledger.entries[id];
            var next := Revise(e, Stamped(e, ops, s.clock(s.ticks)));
            var t := Patch(s, id, ops);
            && (t.failed <==> next.None?)
            && t.ledger == (if next.None? then s.ledger else Rewrite(s.ledger, id, next.value))
  {
    PatchSteps(s, id, ops);
  }

  // Finalize, entry by entry.

  function EndBody(b: Body, cancelled: bool): Body {
    match b
    case Effect(_, _, state) => b.(state := TurnEnd(cancelled, OutputText(state)))
    case Callback(_, _, _, _) => b.(answer := Withdrawn(Reason(cancelled)))
    case _ => b
  }

  /** The entry after the turn: as it was if it had completed, otherwise completed
      and closed. */
  function EndOf(e: Entry, cancelled: bool, now: int): Entry {
    if e.generation.Completed? then e else e.(generation := Completed, body := EndBody(e.body, cancelled), updatedAt := now)
  }

  lemma ApplyOne(a: Op, e: Entry)
    ensures ApplyAll([a], e) == Apply(a, e)
  {
    assert [a][1..] == [];
  }

  lemma ApplyTwo(a: Op, b: Op, e: Entry)
    ensures ApplyAll([a, b], e) == match Apply(a, e) case None => None case Some(f) => Apply(b, f)
  {
    assert [a, b][1..] == [b];
    if Apply(a, e).Some? { ApplyOne(b, Apply(a, e).value); }
  }

  lemma ApplyThree(a: Op, b: Op, c: Op, e: Entry)
    ensures ApplyAll([a, b, c], e) == match Apply(a, e) case None => None case Some(f) => ApplyAll([b, c], f)
  {
    assert [a, b, c][1..] == [b, c];
  }

  /** The patch `finalize` makes on one entry is always accepted. */
  lemma SettlementApplies(e: Entry, cancelled: bool, replay: bool, now: int)
    requires Settlement(e, cancelled, replay).Some?
    ensures Revise(e, Stamped(e, Settlement(e, cancelled, replay).value, now)) == Some(EndOf(e, cancelled, now))
  {
    var ops := Settlement(e, cancelled, replay).value;
    if e.generation.Completed? {
      assert TimingOnly(e, ops);
      assert Apply(ops[0], e) == Some(e);
      if |ops| == 2 {
        assert ops == [ops[0], ops[1]];
        ApplyTwo(ops[0], ops[1], e);
      } else {
        assert ops == [ops[0]];
        ApplyOne(ops[0], e);
      }
    } else {
      assert !Replays(e, ops[|ops| - 1]);
      var last := ReplaceUpdatedAt(now);
      if |ops| == 1 {
        assert ops + [last] == [ops[0], last];
        ApplyTwo(ops[0], last, e);
      } else {
        assert ops + [last] == [ops[0], ops[1], last];
        ApplyThree(ops[0], ops[1], last, e);
        ApplyTwo(ops[1], last, Apply(ops[0], e).value);
      }
    }
  }

  predicate Present(g: Ledger, es: seq<Entry>) {
    forall j :: 0 <= j < |es| ==> es[j].id in g.entries && g.entries[es[j].id] == es[j]
  }

  /** The entries with these ids have ended, the others are as they were. */
  predicate Ended(g: Ledger, h: Ledger, ids: seq<string>, cancelled: bool) {
    && g.entries.Keys == h.entries.Keys
    && forall id :: id in g.entries ==>
         h.entries[id] == if id in ids then EndOf(g.entries[id], cancelled, h.entries[id].updatedAt) else g.entries[id]
  }

  lemma SettleOne(s: State, e: Entry, cancelled: bool, replay: bool)
    requires !s.failed && Sound(s.ledger) && e.id in s.ledger.entries && s.ledger.entries[e.id] == e
    ensures var t := SettleEntry(s, e, cancelled, replay);
            !t.failed && Sound(t.ledger) && Ended(s.ledger, t.ledger, [e.id], cancelled)
  {
    if Settlement(e, cancelled, replay).Some? {
      var now := s.clock(s.ticks);
      SettlementApplies(e, cancelled, replay, now);
      PatchOutcome(s, e.id, Settlement(e, cancelled, replay).value);
      RewriteSound(s.ledger, e.id, EndOf(e, cancelled, now));
    }
  }

  lemma EndedOn(g: Ledger, h: Ledger, k: Ledger, id: string, ids: seq<string>, cancelled: bool)
    requires Ended(g, h, [id], cancelled) && Ended(h, k, ids, cancelled)
    requires id !in ids
    ensures Ended(g, k, [id] + ids, cancelled)
  {
  }

  lemma TailOf(g: Ledger, es: seq<Entry>)
    requires |es| > 0 && Distinct(Ids(es)) && Present(g, es)
    ensures Ids(es) == [es[0].id] + Ids(es[1..]) && Distinct(Ids(es[1..])) && es[0].id !in Ids(es[1..])
    ensures Present(g, es[1..])
  {
    var ids := Ids(es);
    assert ids == [es[0].id] + Ids(es[1..]);
    assert Ids(es[1..]) == ids[1..];
    assert forall j :: 0 <= j < |ids| - 1 ==> ids[1..][j] == ids[j + 1] != ids[0];
  }

  lemma PresentStill(g: Ledger, h: Ledger, id: string, es: seq<Entry>, cancelled: bool)
    requires Ended(g, h, [id], cancelled) && Present(g, es) && id !in Ids(es)
    ensures Present(h, es)
  {
    forall j | 0 <= j < |es| ensures es[j].id in h.entries && h.entries[es[j].id] == es[j] {
      assert Ids(es)[j] == es[j].id;
    }
  }

  lemma {:induction false} SettleAll(s: State, es: seq<Entry>, cancelled: bool, replay: bool)
    requires !s.failed && Sound(s.ledger) && Present(s.ledger, es) && Distinct(Ids(es))
    ensures var t := SettleEntries(s, es, cancelled, replay);
            !t.failed && Sound(t.ledger) && Ended(s.ledger, t.ledger, Ids(es), cancelled)
    decreases |es|
  {
    if |es| > 0 {
      var u := SettleEntry(s, es[0], cancelled, replay);
      SettleOne(s, es[0], cancelled, replay);
      TailOf(s.ledger, es);
      PresentStill(s.ledger, u.ledger, es[0].id, es[1..], cancelled);
      SettleAll(u, es[1..], cancelled, replay);
      EndedOn(s.ledger, u.ledger, SettleEntries(u, es[1..], cancelled, replay).ledger, es[0].id, Ids(es[1..]), cancelled);
    }
  }

  /** After its loop over the entries, `finalize` has ended every one of them. */
  lemma LoopEndsAll(s: State, cancelled: bool, replay: bool)
    requires !s.failed && Sound(s.ledger)
    ensures var t := SettleEntries(s, Listed(s.ledger), cancelled, replay);
            !t.failed && Sound(t.ledger) && Ended(s.ledger, t.ledger, s.ledger.keys, cancelled)
  {
    assert Listed(s.ledger) == s.ledger.history;
    SettleAll(s, s.ledger.history, cancelled, replay);
  }

  // The durations.

  /** The message a turn's duration goes to is not the assistant's. */
  predicate Misplaced(s: State, timing: Option<Timing>, replay: bool) {
    && timing.Some?
    && var entry := Lookup(s, s.assistant, timing.value.messageId);
       && entry.Some? && entry.value.body.Message? && !entry.value.body.role.Assistant?
       && (replay || entry.value.body.turnDuration != Some(timing.value.duration * 1000.0))
  }

  /** A completed entry after durations have been set in it. */
  predicate Refined(g: Ledger, h: Ledger) {
    && g.entries.Keys == h.entries.Keys
    && forall id :: id in g.entries ==> Frozen(g.entries[id], h.entries[id])
  }

  lemma PatchRefines(s: State, id: string, ops: seq<Op>)
    requires !s.failed && Sound(s.ledger) && AllCompleted(s.ledger) && id in s.ledger.entries
    ensures var t := Patch(s, id, ops);
            && (t.failed <==> !TimingOnly(s.ledger.entries[id], ops))
            && Sound(t.ledger) && Refined(s.ledger, t.ledger)
  {
    var e := s.ledger.entries[id];
    PatchOutcome(s, id, ops);
    StampedAlike(e, ops, s.clock(s.ticks));
    if TimingOnly(e, ops) {
      TimingOnlyFreezes(e, ops);
      var k := Located(s.ledger, id);
      RewriteSound(s.ledger, id, ApplyAll(ops, e).value);
    }
  }

  lemma RefinedOn(g: Ledger, h: Ledger, k: Ledger)
    requires Refined(g, h) && Refined(h, k)
    ensures Refined(g, k) && (AllCompleted(g) ==> AllCompleted(h))
  {
    forall id | id in g.entries ensures Frozen(g.entries[id], k.entries[id]) {
      assert Frozen(g.entries[id], h.entries[id]) && Frozen(h.entries[id], k.entries[id]);
    }
  }

  /** One duration patch: refused exactly where it is no replay. */
  lemma DurationPatch(s: State, id: string, op: Op)
    requires !s.failed && Sound(s.ledger) && AllCompleted(s.ledger) && id in s.ledger.entries
    ensures var t := Patch(s, id, [op]);
            && (t.failed <==> !Replays(s.ledger.entries[id], op))
            && Sound(t.ledger) && Refined(s.ledger, t.ledger) && AllCompleted(t.ledger)
  {
    assert TimingOnly(s.ledger.entries[id], [op]) <==> Replays(s.ledger.entries[id], [op][0]);
    PatchRefines(s, id, [op]);
    RefinedOn(s.ledger, Patch(s, id, [op]).ledger, Patch(s, id, [op]).ledger);
  }

  /** The entry a duration is due in is there, and takes it unless it is somebody
      else's message. */
  predicate Takes(s: State, d: Due) {
    d.id in s.ledger.entries && Replays(s.ledger.entries[d.id], d.op)
  }

  lemma TurnDueTaken(s: State, timing: Option<Timing>, replay: bool)
    requires Sound(s.ledger) && TurnDue(s, timing, replay).Some?
    ensures var d := TurnDue(s, timing, replay).value;
            d.id in s.ledger.entries && (Takes(s, d) <==> !Misplaced(s, timing, replay))
  {
    var k := Located(s.ledger, s.assistant[timing.value.messageId]);
  }

  lemma ToolDueTaken(s: State, m: ToolTiming, replay: bool)
    requires Sound(s.ledger) && ToolDue(s, m, replay).Some?
    ensures Takes(s, ToolDue(s, m, replay).value)
  {
    var k := Located(s.ledger, s.effects[Or(m.callId, "")]);
  }

  lemma DueOutcome(s: State, due: Option<Due>)
    requires !s.failed && Sound(s.ledger) && AllCompleted(s.ledger)
    requires due.Some? ==> due.value.id in s.ledger.entries && !due.value.op.ReplaceGeneration? && Wordless(due.value.op)
    ensures var t := SetDue(s, due);
            && (t.failed <==> due.Some? && !Takes(s, due.value))
            && Sound(t.ledger) && Refined(s.ledger, t.ledger) && AllCompleted(t.ledger)
  {
    match due
    case None => RefinedOn(s.ledger, s.ledger, s.ledger);
    case Some(d) => DurationPatch(s, d.id, d.op);
  }

  lemma TurnDurationOutcome(s: State, timing: Option<Timing>, replay: bool)
    requires !s.failed && Sound(s.ledger) && AllCompleted(s.ledger)
    ensures var t := SettleTurnDuration(s, timing, replay);
            && (t.failed <==> Misplaced(s, timing, replay))
            && Sound(t.ledger) && Refined(s.ledger, t.ledger) && AllCompleted(t.ledger)
  {
    var due := TurnDue(s, timing, replay);
    if due.Some? { TurnDueTaken(s, timing, replay); }
    DueOutcome(s, due);
  }

  lemma {:induction false} ToolDurationsOutcome(s: State, ms: seq<ToolTiming>, replay: bool)
    requires !s.failed && Sound(s.ledger) && AllCompleted(s.ledger)
    ensures var t := SettleToolDurations(s, ms, replay);
            !t.failed && Refined(s.ledger, t.ledger)
    decreases |ms|
  {
    if |ms| == 0 {
      RefinedOn(s.ledger, s.ledger, s.ledger);
    } else {
      var due := ToolDue(s, ms[0], replay);
      var u := SetDue(s, due);
      if due.Some? { ToolDueTaken(s, ms[0], replay); }
      DueOutcome(s, due);
      ToolDurationsOutcome(u, ms[1..], replay);
      RefinedOn(s.ledger, u.ledger, SettleToolDurations(u, ms[1..], replay).ledger);
    }
  }

  lemma {:induction false} FailedStays(s: State, ms: seq<ToolTiming>, replay: bool)
    requires s.failed
    ensures SettleToolDurations(s, ms, replay) == s
    decreases |ms|
  {
    if |ms| > 0 { FailedStays(s, ms[1..], replay); }
  }

  /** Each entry of `h` is the end of the entry of `g` it came from, durations aside. */
  predicate TurnEnded(g: Ledger, h: Ledger, cancelled: bool) {
    && g.entries.Keys == h.entries.Keys
    && forall id :: id in g.entries ==> Frozen(EndOf(g.entries[id], cancelled, h.entries[id].updatedAt), h.entries[id])
  }

  lemma MisplacedAlike(s: State, t: State, cancelled: bool, timing: Option<Timing>, replay: bool)
    requires Sound(s.ledger) && Ended(s.ledger, t.ledger, s.ledger.keys, cancelled) && s.assistant == t.assistant
    ensures Misplaced(s, timing, replay) <==> Misplaced(t, timing, replay)
  {
  }

  /** `finalize` raises exactly when the turn's duration is headed for a message that is
      not the assistant's. Either way every entry has ended: what had completed is as it
      was, and the rest is completed and closed; durations may have been set besides. */
  lemma FinalizeOutcome(s: State, cancelled: bool, timing: Option<Timing>, ms: seq<ToolTiming>, replay: bool)
    requires !s.failed && Sound(s.ledger)
    ensures var t := Finalize(s, cancelled, timing, ms, replay);
            && (t.failed <==> Misplaced(s, timing, replay))
            && TurnEnded(s.ledger, t.ledger, cancelled)
  {
    var a := SettleEntries(s, Listed(s.ledger), cancelled, replay);
    LoopEndsAll(s, cancelled, replay);
    EndedCompletes(s.ledger, a.ledger, cancelled);
    MisplacedAlike(s, a, cancelled, timing, replay);
    var b := SettleTurnDuration(a, timing, replay);
    TurnDurationOutcome(a, timing, replay);
    if b.failed {
      FailedStays(b, ms, replay);
      EndedRefined(s.ledger, a.ledger, b.ledger, cancelled);
    } else {
      ToolDurationsOutcome(b, ms, replay);
      RefinedOn(a.ledger, b.ledger, SettleToolDurations(b, ms, replay).ledger);
      EndedRefined(s.ledger, a.ledger, SettleToolDurations(b, ms, replay).ledger, cancelled);
    }
  }

  lemma EndedCompletes(g: Ledger, h: Ledger, cancelled: bool)
    requires Sound(g) && Ended(g, h, g.keys, cancelled)
    ensures AllCompleted(h)
  {
  }

  lemma EndedRefined(g: Ledger, h: Ledger, k: Ledger, cancelled: bool)
    requires Sound(g) && Ended(g, h, g.keys, cancelled) && Refined(h, k)
    ensures TurnEnded(g, k, cancelled)
  {
    forall id | id in g.entries ensures Frozen(EndOf(g.entries[id], cancelled, k.entries[id].updatedAt), k.entries[id]) {
      assert id in g.keys;
      assert Frozen(h.entries[id], k.entries[id]);
    }
  }

  /** A turn's end settles everything if and only if nothing had been completed while
      still open. */
  lemma FinalizeSettles(g: Ledger, h: Ledger, cancelled: bool)
    requires TurnEnded(g, h, cancelled)
    ensures AllCompleted(h)
    ensures AllSettled(h) <==> AllTidy(g)
  {
    forall id | id in g.entries
      ensures h.entries[id].generation.Completed? && (Closed(h.entries[id].body) <==> Tidy(g.entries[id]))
    {
      assert Frozen(EndOf(g.entries[id], cancelled, h.entries[id].updatedAt), h.entries[id]);
    }
  }
}
