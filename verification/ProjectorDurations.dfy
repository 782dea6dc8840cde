/** The end of the turn, entry by entry: how each one ends, and which durations it leaves. */
module ProjectorDurations {
  import opened Wrappers
  import opened History
  import opened Projector
  import opened ProjectorHistory
  import opened ProjectorFinish
  import opened ProjectorCalls

  // How entries end.

  /** How an effect that is cut short ends: cancelled or failed as the turn was, with what it
      had streamed so far. */
  predicate CutShort(state: EffectState, end: EffectState, cancelled: bool) {
    if cancelled then
      end.Cancelled? && end.reason == "Turn interrupted" && end.display == "Turn interrupted" && end.duration.None? && Streamed(state, end.outputText)
    else
      end.Failed? && end.error == "Turn ended" && end.display == "Turn ended" && end.output == "null" && end.duration.None? && Streamed(state, end.outputText)
  }

  /** A completed entry stays as it is; any other is completed, an effect cut short and a
      callback withdrawn. */
  predicate EndsLike(e: Entry, f: Entry, cancelled: bool) {
    if e.generation.Completed? then f == e
    else
      && f == e.(generation := Completed, body := f.body, updatedAt := f.updatedAt)
      && match e.body
         case Effect(title, detail, state) => f.body.Effect? && f.body.title == title && f.body.detail == detail && CutShort(state, f.body.state, cancelled)
         case Callback(_, _, _, _) => f.body == e.body.(answer := Withdrawn(if cancelled then "Turn interrupted" else "Turn ended"))
         case _ => f.body == e.body
  }

  lemma EndExactly(e: Entry, cancelled: bool, now: int)
    ensures EndsLike(e, EndOf(e, cancelled, now), cancelled)
  {
  }

  // The turn's duration.

  /** The message the turn's duration belongs to. */
  predicate TimesTurn(s: State, timing: Option<Timing>, id: string) {
    && timing.Some? && timing.value.messageId in s.assistant && s.assistant[timing.value.messageId] == id
    && id in s.ledger.entries && s.ledger.entries[id].body.Message?
  }

  /** That message has the duration, in milliseconds; every other entry is as it was. */
  ghost predicate TurnTimed(s: State, t: State, timing: Option<Timing>) {
    && t.ledger.entries.Keys == s.ledger.entries.Keys
    && forall id :: id in s.ledger.entries ==>
         t.ledger.entries[id] == if TimesTurn(s, timing, id)
                                 then s.ledger.entries[id].(body := s.ledger.entries[id].body.(turnDuration := Some(1000.0 * timing.value.duration)))
                                 else s.ledger.entries[id]
  }

  /** A duration set in a completed entry that takes it. */
  lemma SetDoes(s: State, id: string, op: Op)
    requires !s.failed && Sound(s.ledger) && id in s.ledger.entries && s.ledger.entries[id].generation.Completed?
    requires Replays(s.ledger.entries[id], op)
    ensures var t := Patch(s, id, [op]);
            !t.failed && OnlyHistory(s, t) && Apply(op, s.ledger.entries[id]).Some?
            && t.ledger.entries == s.ledger.entries[id := Apply(op, s.ledger.entries[id]).value]
  {
    var e := s.ledger.entries[id];
    assert TimingOnly(e, [op]) by { assert [op][0] == op; }
    PatchSteps(s, id, [op]);
    ApplyOne(op, e);
    TimingOnlyFreezes(e, [op]);
  }

  lemma TurnDueExactly(s: State, timing: Option<Timing>, replay: bool)
    requires Sound(s.ledger) && TurnDue(s, timing, replay).Some? && !Misplaced(s, timing, replay)
    ensures var d := TurnDue(s, timing, replay).value;
            && TimesTurn(s, timing, d.id) && Replays(s.ledger.entries[d.id], d.op)
            && Apply(d.op, s.ledger.entries[d.id])
               == Some(s.ledger.entries[d.id].(body := s.ledger.entries[d.id].body.(turnDuration := Some(1000.0 * timing.value.duration))))
  {
    var k := Located(s.ledger, s.assistant[timing.value.messageId]);
  }

  lemma TurnNotDue(s: State, timing: Option<Timing>, replay: bool)
    requires Sound(s.ledger) && TurnDue(s, timing, replay).None?
    ensures TurnTimed(s, s, timing)
  {
  }

  lemma TurnTimedExactly(s: State, timing: Option<Timing>, replay: bool)
    requires !s.failed && Sound(s.ledger) && AllCompleted(s.ledger) && !Misplaced(s, timing, replay)
    ensures TurnTimed(s, SettleTurnDuration(s, timing, replay), timing) && OnlyHistory(s, SettleTurnDuration(s, timing, replay))
  {
    var due := TurnDue(s, timing, replay);
    if due.None? {
      TurnNotDue(s, timing, replay);
    } else {
      TurnDueExactly(s, timing, replay);
      SetDoes(s, due.value.id, due.value.op);
    }
  }

  // The durations of tool calls.

  /** The durations that the results have for one effect, in order, in milliseconds. */
  function Durations(files: map<string, string>, ms: seq<ToolTiming>, id: string): seq<real> {
    if |ms| == 0 then []
    else Own(files, ms[0], id) + Durations(files, ms[1..], id)
  }

  function Own(files: map<string, string>, m: ToolTiming, id: string): seq<real> {
    if Concerns(files, m, id) then [1000.0 * m.duration.value] else []
  }

  predicate Concerns(files: map<string, string>, m: ToolTiming, id: string) {
    var callId := if m.callId.Some? then m.callId.value else "";
    m.duration.Some? && callId in files && files[callId] == id
  }

  /** An effect keeps the duration it has, or takes the first there is; where the turn's timing
      is replayed it takes the last. */
  function Settled(duration: Option<real>, all: seq<real>, replay: bool): Option<real> {
    if |all| == 0 then duration
    else if replay then Some(all[|all| - 1])
    else if duration.Some? then duration
    else Some(all[0])
  }

  function TimedEntry(e: Entry, all: seq<real>, replay: bool): Entry {
    if e.body.Effect? && Timed(e.body.state)
    then e.(body := e.body.(state := e.body.state.(duration := Settled(e.body.state.duration, all, replay))))
    else e
  }

  /** Every effect that has ended and takes a duration has the one its results give it; every
      other entry is as it was. */
  ghost predicate ToolsTimed(g: Ledger, h: Ledger, files: map<string, string>, ms: seq<ToolTiming>, replay: bool) {
    && h.entries.Keys == g.entries.Keys
    && forall id :: id in g.entries ==> h.entries[id] == TimedEntry(g.entries[id], Durations(files, ms, id), replay)
  }

  /** One result's duration, in each entry. */
  ghost predicate OneTimed(g: Ledger, h: Ledger, files: map<string, string>, m: ToolTiming, replay: bool) {
    && h.entries.Keys == g.entries.Keys
    && forall id :: id in g.entries ==> h.entries[id] == TimedEntry(g.entries[id], Own(files, m, id), replay)
  }

  lemma UntimedExactly(s: State, m: ToolTiming, replay: bool, id: string)
    requires Sound(s.ledger) && id in s.ledger.entries && !(ToolDue(s, m, replay).Some? && ToolDue(s, m, replay).value.id == id)
    ensures TimedEntry(s.ledger.entries[id], Own(s.effects, m, id), replay) == s.ledger.entries[id]
  {
    if Concerns(s.effects, m, id) { var k := Located(s.ledger, id); }
  }

  lemma TimedExactly(s: State, m: ToolTiming, replay: bool)
    requires Sound(s.ledger) && ToolDue(s, m, replay).Some?
    ensures var d := ToolDue(s, m, replay).value;
            && d.id in s.ledger.entries && Replays(s.ledger.entries[d.id], d.op)
            && Apply(d.op, s.ledger.entries[d.id]) == Some(TimedEntry(s.ledger.entries[d.id], Own(s.effects, m, d.id), replay))
  {
    var k := Located(s.ledger, s.effects[Or(m.callId, "")]);
  }

  lemma OneToolTimed(s: State, m: ToolTiming, replay: bool)
    requires !s.failed && Sound(s.ledger) && AllCompleted(s.ledger)
    ensures var t := SetDue(s, ToolDue(s, m, replay));
            !t.failed && OnlyHistory(s, t) && OneTimed(s.ledger, t.ledger, s.effects, m, replay)
  {
    var due := ToolDue(s, m, replay);
    forall id | id in s.ledger.entries && !(due.Some? && due.value.id == id)
      ensures TimedEntry(s.ledger.entries[id], Own(s.effects, m, id), replay) == s.ledger.entries[id]
    {
      UntimedExactly(s, m, replay, id);
    }
    if due.Some? {
      TimedExactly(s, m, replay);
      SetDoes(s, due.value.id, due.value.op);
    }
  }

  lemma TimedOn(e: Entry, own: seq<real>, rest: seq<real>, replay: bool)
    requires |own| <= 1
    ensures TimedEntry(TimedEntry(e, own, replay), rest, replay) == TimedEntry(e, own + rest, replay)
  {
  }

  lemma {:induction false} ToolsTimedExactly(s: State, ms: seq<ToolTiming>, replay: bool)
    requires !s.failed && Sound(s.ledger) && AllCompleted(s.ledger)
    ensures var t := SettleToolDurations(s, ms, replay);
            !t.failed && OnlyHistory(s, t) && ToolsTimed(s.ledger, t.ledger, s.effects, ms, replay)
    decreases |ms|
  {
    if |ms| > 0 {
      var due := ToolDue(s, ms[0], replay);
      var u := SetDue(s, due);
      OneToolTimed(s, ms[0], replay);
      if due.Some? { ToolDueTaken(s, ms[0], replay); }
      DueOutcome(s, due);
      ToolsTimedExactly(u, ms[1..], replay);
      ToolsTimedOn(s.ledger, u.ledger, SettleToolDurations(u, ms[1..], replay).ledger, s.effects, ms, replay);
    }
  }

  lemma ToolsTimedOn(g: Ledger, h: Ledger, k: Ledger, files: map<string, string>, ms: seq<ToolTiming>, replay: bool)
    requires |ms| > 0 && OneTimed(g, h, files, ms[0], replay) && ToolsTimed(h, k, files, ms[1..], replay)
    ensures ToolsTimed(g, k, files, ms, replay)
  {
    forall id | id in g.entries ensures k.entries[id] == TimedEntry(g.entries[id], Durations(files, ms, id), replay) {
      TimedOn(g.entries[id], Own(files, ms[0], id), Durations(files, ms[1..], id), replay);
    }
  }

  // The whole of it.

  /** Each entry of `h` is how its entry of `g` ends, but for durations: the message of the turn
      has the turn's, and an effect that takes one has its own. */
  ghost predicate TurnEndsWith(s: State, h: Ledger, cancelled: bool, timing: Option<Timing>, ms: seq<ToolTiming>, replay: bool) {
    exists a: State, b: State :: EndsAll(s.ledger, a.ledger, cancelled) && OnlyHistory(s, a) && TurnTimed(a, b, timing)
                   && ToolsTimed(b.ledger, h, s.effects, ms, replay)
  }

  predicate EndsAll(g: Ledger, h: Ledger, cancelled: bool) {
    g.entries.Keys == h.entries.Keys && forall id :: id in g.entries ==> EndsLike(g.entries[id], h.entries[id], cancelled)
  }

  lemma {:induction false} SettleOnlyHistory(s: State, es: seq<Entry>, cancelled: bool, replay: bool)
    ensures OnlyHistory(s, SettleEntries(s, es, cancelled, replay))
    decreases |es|
  {
    if |es| > 0 {
      var u := SettleEntry(s, es[0], cancelled, replay);
      SettleOneOnly(s, es[0], cancelled, replay);
      SettleOnlyHistory(u, es[1..], cancelled, replay);
    }
  }

  lemma PatchOnly(s: State, id: string, ops: seq<Op>)
    ensures OnlyHistory(s, Patch(s, id, ops))
  {
    if s.failed {
      assert Patch(s, id, ops) == s;
    } else if id in s.ledger.entries {
      PatchSteps(s, id, ops);
    } else {
      PatchMissing(s, id, ops);
    }
  }

  lemma SettleOneOnly(s: State, e: Entry, cancelled: bool, replay: bool)
    ensures OnlyHistory(s, SettleEntry(s, e, cancelled, replay))
  {
    var ops := Settlement(e, cancelled, replay);
    if ops.Some? { PatchOnly(s, e.id, ops.value); }
  }

  lemma LoopEndsLike(s: State, cancelled: bool, replay: bool)
    requires !s.failed && Sound(s.ledger)
    ensures var a := SettleEntries(s, Listed(s.ledger), cancelled, replay);
            EndsAll(s.ledger, a.ledger, cancelled) && OnlyHistory(s, a)
  {
    var a := SettleEntries(s, Listed(s.ledger), cancelled, replay);
    LoopEndsAll(s, cancelled, replay);
    SettleOnlyHistory(s, Listed(s.ledger), cancelled, replay);
    forall id | id in s.ledger.entries ensures EndsLike(s.ledger.entries[id], a.ledger.entries[id], cancelled) {
      assert id in s.ledger.keys;
      EndExactly(s.ledger.entries[id], cancelled, a.ledger.entries[id].updatedAt);
    }
  }

  /** What `finalize` leaves where it returns: each entry ended as it should, and each duration
      that the turn and its results give. */
  lemma FinalizeExactly(s: State, cancelled: bool, timing: Option<Timing>, ms: seq<ToolTiming>, replay: bool)
    requires !s.failed && Sound(s.ledger) && !Misplaced(s, timing, replay)
    ensures var t := Finalize(s, cancelled, timing, ms, replay);
            !t.failed && OnlyHistory(s, t) && TurnEndsWith(s, t.ledger, cancelled, timing, ms, replay)
  {
    var a := SettleEntries(s, Listed(s.ledger), cancelled, replay);
    var b := SettleTurnDuration(a, timing, replay);
    LoopEndsAll(s, cancelled, replay);
    LoopEndsLike(s, cancelled, replay);
    EndedCompletes(s.ledger, a.ledger, cancelled);
    MisplacedAlike(s, a, cancelled, timing, replay);
    TurnTimedExactly(a, timing, replay);
    TurnDurationOutcome(a, timing, replay);
    ToolsTimedExactly(b, ms, replay);
  }
}
