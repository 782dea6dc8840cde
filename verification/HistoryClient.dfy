/** The client's reducer of history updates, and what it rebuilds from the updates
    of a projector. */
module HistoryClient {
  import opened Wrappers
  import opened History
  import opened Projector
  import opened ProjectorHistory

  datatype ClientEvent =
    | EntryAdded(entry: Entry)
    | EntryUpdated(previous: Entry, entry: Entry)

  datatype Client = Client(history: seq<Entry>, entries: map<string, Entry>, events: seq<ClientEvent>)

  const NEW_CLIENT: Client := Client([], map[], [])

  /** One operation of a completion the entry already holds; the stamp is ignored. */
  predicate Reflected(e: Entry, op: Op) {
    match op
    case ReplaceEffectState(state) => e.body.Effect? && e.body.state == state
    case ReplaceGeneration(generation) => e.generation == generation
    case ReplaceUpdatedAt(_) => true
    case _ => false
  }

  /** A completion of an effect that is already in. */
  predicate CompletedReplay(e: Entry, ops: seq<Op>) {
    && e.body.Effect? && e.body.state.Succeeded? && e.generation.Completed?
    && (exists i :: 0 <= i < |ops| && ops[i].ReplaceEffectState?)
    && (forall i :: 0 <= i < |ops| ==> Reflected(e, ops[i]))
  }

  /** Reduce one update; none when the client refuses it. */
  function Receive(c: Client, u: Update): Option<Client> {
    match u
    case SessionPatched(_, _) => Some(c)
    case Silent(_) => Some(c)
    case Added(e) =>
      if e.id in c.entries then Some(c)
      else Some(Client(c.history + [e], c.entries[e.id := e], c.events + [EntryAdded(e)]))
    case Patched(id, ops) =>
      if id !in c.entries || CompletedReplay(c.entries[id], ops) then Some(c)
      else
        match Revise(c.entries[id], ops)
        case None => None
        case Some(e) =>
          Some(Client(Overwrite(c.history, id, e), c.entries[id := e], c.events + [EntryUpdated(c.entries[id], e)]))
  }

  /** The client after the updates the projector returned, from an empty history. */
  function ReceiveAll(t: seq<Update>): Option<Client> {
    if |t| == 0 then Some(NEW_CLIENT)
    else
      match ReceiveAll(t[..|t| - 1])
      case None => None
      case Some(c) => Receive(c, t[|t| - 1])
  }

  /** The updates the callers of the projector were given. */
  function Returned(t: seq<Update>): seq<Update> {
    if |t| == 0 then []
    else Returned(t[..|t| - 1]) + (if t[|t| - 1].Silent? then [] else [t[|t| - 1]])
  }

  function Silenced(t: seq<Update>): set<string> {
    set u <- t | u.Silent? :: u.entry.id
  }

  /** The history without the entries of some ids. */
  function Without(h: seq<Entry>, ids: set<string>): (r: seq<Entry>)
    ensures |r| <= |h|
  {
    if |h| == 0 then [] else (if h[0].id in ids then [] else [h[0]]) + Without(h[1..], ids)
  }

  lemma {:induction false} WithoutAppend(h: seq<Entry>, e: Entry, ids: set<string>)
    ensures Without(h + [e], ids) == Without(h, ids) + (if e.id in ids then [] else [e])
  {
    if |h| == 0 {
      assert h + [e] == [e];
    } else {
      assert (h + [e])[0] == h[0] && (h + [e])[1..] == h[1..] + [e];
      WithoutAppend(h[1..], e, ids);
    }
  }

  lemma {:induction false} WithoutMore(h: seq<Entry>, ids: set<string>, id: string)
    requires forall i :: 0 <= i < |h| ==> h[i].id != id
    ensures Without(h, ids + {id}) == Without(h, ids)
  {
    if |h| > 0 { WithoutMore(h[1..], ids, id); }
  }

  lemma {:induction false} WithoutOverwrite(h: seq<Entry>, ids: set<string>, e: Entry)
    ensures Without(Overwrite(h, e.id, e), ids)
      == if e.id in ids then Without(h, ids) else Overwrite(Without(h, ids), e.id, e)
  {
    if |h| > 0 {
      var o, rest := Overwrite(h, e.id, e), Without(h[1..], ids);
      assert ([h[0]] + rest)[1..] == rest && [] + rest == rest;
      if h[0].id == e.id {
        assert o[0] == e && o[1..] == h[1..];
      } else {
        assert o[0] == h[0] && o[1..] == Overwrite(h[1..], e.id, e);
        WithoutOverwrite(h[1..], ids, e);
      }
    }
  }

  lemma {:induction false} WithoutNothing(h: seq<Entry>, ids: set<string>)
    ensures Without(h, ids) == h <==> forall i :: 0 <= i < |h| ==> h[i].id !in ids
  {
    if |h| > 0 {
      WithoutNothing(h[1..], ids);
      if h[0].id in ids {
        assert |Without(h, ids)| < |h|;
      } else {
        assert Without(h, ids) == [h[0]] + Without(h[1..], ids);
        assert forall i :: 0 < i < |h| ==> h[i] == h[1..][i - 1];
        assert Without(h, ids) == h ==> Without(h[1..], ids) == Without(h, ids)[1..];
      }
    }
  }

  /** The client holds the ledger without the entries of `ids`. */
  predicate Mirrors(c: Client, g: Ledger, ids: set<string>) {
    && c.history == Without(g.history, ids)
    && ids <= g.entries.Keys
    && c.entries.Keys == g.entries.Keys - ids
    && forall id :: id in c.entries ==> c.entries[id] == g.entries[id]
  }

  lemma {:induction false} ReflectedAll(e: Entry, ops: seq<Op>)
    requires e.body.Effect? && forall i :: 0 <= i < |ops| ==> Reflected(e, ops[i]) && !ops[i].ReplaceUpdatedAt?
    ensures ApplyAll(ops, e) == Some(e)
    decreases |ops|
  {
    if |ops| > 0 {
      assert Apply(ops[0], e) == Some(e);
      ReflectedAll(e, ops[1..]);
    }
  }

  /** Skipping a completion that is already in loses nothing. */
  lemma SkippedIsNoChange(e: Entry, ops: seq<Op>)
    requires CompletedReplay(e, ops) && Revise(e, ops).Some?
    ensures Revise(e, ops) == Some(e)
  {
    assert TimingOnly(e, ops);
    assert forall i :: 0 <= i < |ops| ==> Replays(e, ops[i]);
    ReflectedAll(e, ops);
  }

  /** An addition delivered again is drained, however far the entry has come since. */
  lemma RedeliveredAddition(c: Client, e: Entry)
    requires e.id in c.entries
    ensures Receive(c, Added(e)) == Some(c)
  {
  }

  function Completion(state: EffectState, stamp: int): seq<Op> {
    [ReplaceEffectState(state), ReplaceGeneration(Completed), ReplaceUpdatedAt(stamp)]
  }

  lemma CompletionApplies(e: Entry, state: EffectState, stamp: int)
    requires e.body.Effect?
    ensures ApplyAll(Completion(state, stamp), e) == Some(e.(body := e.body.(state := state), generation := Completed, updatedAt := stamp))
  {
    var first, second, third := ReplaceEffectState(state), ReplaceGeneration(Completed), ReplaceUpdatedAt(stamp);
    var ended := e.(body := e.body.(state := state));
    var completed := ended.(generation := Completed);
    ApplyFirst(first, [second, third], e, ended);
    ApplyFirst(second, [third], ended, completed);
    ApplyFirst(third, [], completed, completed.(updatedAt := stamp));
    assert Completion(state, stamp) == [first] + ([second] + ([third] + []));
    assert [second, third] == [second] + ([third] + []) && [third] == [third] + [];
  }

  lemma ApplyFirst(op: Op, ops: seq<Op>, e: Entry, f: Entry)
    requires Apply(op, e) == Some(f)
    ensures ApplyAll([op] + ops, e) == ApplyAll(ops, f)
  {
    assert ([op] + ops)[0] == op && ([op] + ops)[1..] == ops;
  }

  /** The completion of an effect, delivered again, is drained if and only if the effect has
      succeeded; that of any other end is refused, for the frozen entry it would change. */
  lemma RedeliveredCompletion(c: Client, id: string, state: EffectState, stamp: int)
    requires id in c.entries && c.entries[id].generation.InProgress? && c.entries[id].body.Effect?
    ensures var u := Patched(id, Completion(state, stamp));
            Receive(c, u).Some? && Receive(Receive(c, u).value, u) == if state.Succeeded? then Receive(c, u) else None
  {
    var ops, e := Completion(state, stamp), c.entries[id];
    var f := e.(body := e.body.(state := state), generation := Completed, updatedAt := stamp);
    CompletionApplies(e, state, stamp);
    assert ops[0].ReplaceEffectState?;
    assert !Replays(f, ops[2]);
  }

  lemma OverwriteItself(g: Ledger, id: string)
    requires Sound(g) && id in g.entries
    ensures Overwrite(g.history, id, g.entries[id]) == g.history
  {
    var k := Located(g, id);
  }

  lemma MirrorsAdded(c: Client, g: Ledger, ids: set<string>, e: Entry)
    requires Mirrors(c, g, ids) && Sound(g) && e.id !in g.entries
    ensures Receive(c, Added(e)).Some? && Mirrors(Receive(c, Added(e)).value, Insert(g, e), ids)
  {
    WithoutAppend(g.history, e, ids);
  }

  lemma MirrorsSilent(c: Client, g: Ledger, ids: set<string>, e: Entry)
    requires Mirrors(c, g, ids) && Sound(g) && e.id !in g.entries
    ensures Mirrors(c, Insert(g, e), ids + {e.id})
  {
    WithoutAppend(g.history, e, ids + {e.id});
    assert forall i :: 0 <= i < |g.history| ==> g.history[i].id in g.entries;
    WithoutMore(g.history, ids, e.id);
  }

  lemma MirrorsRewrite(c: Client, g: Ledger, ids: set<string>, e: Entry, events: seq<ClientEvent>)
    requires Mirrors(c, g, ids) && e.id in g.entries
    ensures e.id in c.entries ==>
              Mirrors(Client(Overwrite(c.history, e.id, e), c.entries[e.id := e], events), Rewrite(g, e.id, e), ids)
    ensures e.id !in c.entries ==> Mirrors(c, Rewrite(g, e.id, e), ids)
  {
    WithoutOverwrite(g.history, ids, e);
  }

  lemma RevisedId(g: Ledger, id: string, ops: seq<Op>)
    requires Sound(g) && id in g.entries && Revise(g.entries[id], ops).Some?
    ensures Revise(g.entries[id], ops).value.id == id
  {
    var k := Located(g, id);
    ReviseEvolves(g.entries[id], ops);
  }

  /** A completion the client skips changed nothing in the ledger. */
  lemma SkippedIsSame(g: Ledger, id: string, ops: seq<Op>)
    requires Sound(g) && Play(g, Patched(id, ops)).Some? && CompletedReplay(g.entries[id], ops)
    ensures Play(g, Patched(id, ops)) == Some(g)
  {
    SkippedIsNoChange(g.entries[id], ops);
    OverwriteItself(g, id);
    assert g.entries[id := g.entries[id]] == g.entries;
  }

  lemma MirrorsPatched(c: Client, g: Ledger, ids: set<string>, id: string, ops: seq<Op>)
    requires Mirrors(c, g, ids) && Sound(g) && Play(g, Patched(id, ops)).Some?
    ensures Receive(c, Patched(id, ops)).Some?
    ensures Mirrors(Receive(c, Patched(id, ops)).value, Play(g, Patched(id, ops)).value, ids)
  {
    RevisedId(g, id, ops);
    var e := Revise(g.entries[id], ops).value;
    if id !in c.entries {
      MirrorsRewrite(c, g, ids, e, []);
    } else if CompletedReplay(g.entries[id], ops) {
      SkippedIsSame(g, id, ops);
    } else {
      MirrorsRewrite(c, g, ids, e, c.events + [EntryUpdated(c.entries[id], e)]);
    }
  }

  function Hide(ids: set<string>, u: Update): set<string> {
    if u.Silent? then ids + {u.entry.id} else ids
  }

  lemma MirrorsOne(c: Client, g: Ledger, ids: set<string>, u: Update)
    requires Mirrors(c, g, ids) && Sound(g) && Play(g, u).Some?
    ensures Receive(c, u).Some? && Mirrors(Receive(c, u).value, Play(g, u).value, Hide(ids, u))
  {
    match u
    case Added(e) => MirrorsAdded(c, g, ids, e);
    case Silent(e) => MirrorsSilent(c, g, ids, e);
    case Patched(id, ops) => MirrorsPatched(c, g, ids, id, ops);
    case SessionPatched(_, _) =>
  }

  lemma ReceiveReturned(t: seq<Update>)
    requires |t| > 0
    ensures var r, u := t[..|t| - 1], t[|t| - 1];
            && Silenced(t) == Hide(Silenced(r), u)
            && (ReceiveAll(Returned(r)).Some? ==> ReceiveAll(Returned(t)) == Receive(ReceiveAll(Returned(r)).value, u))
  {
    var r, u := t[..|t| - 1], t[|t| - 1];
    assert t == r + [u];
    if u.Silent? {
      assert Returned(t) == Returned(r);
    } else {
      assert Returned(t)[..|Returned(t)| - 1] == Returned(r);
    }
  }

  /** For every list of updates the projector can make, the client refuses none of
      those it is given, and holds the whole history but the silent entries. */
  lemma {:induction false} ReplayRebuilds(t: seq<Update>)
    requires Replay(t).Some?
    ensures ReceiveAll(Returned(t)).Some?
    ensures Mirrors(ReceiveAll(Returned(t)).value, Replay(t).value, Silenced(t))
  {
    if |t| == 0 {
      assert Without([], Silenced(t)) == [];
    } else {
      var r := t[..|t| - 1];
      ReplayRebuilds(r);
      ReplaySound(r);
      ReceiveReturned(t);
      MirrorsOne(ReceiveAll(Returned(r)).value, Replay(r).value, Silenced(r), t[|t| - 1]);
    }
  }

  /** The silent entries are all there: the client has the whole history exactly when
      no addition was kept from it. */
  lemma RebuildsIffAnnounced(t: seq<Update>)
    requires Replay(t).Some?
    ensures ReceiveAll(Returned(t)).Some?
    ensures ReceiveAll(Returned(t)).value.history == Replay(t).value.history <==> Silenced(t) == {}
  {
    ReplayRebuilds(t);
    ReplaySound(t);
    var g, ids := Replay(t).value, Silenced(t);
    WithoutNothing(g.history, ids);
    if id :| id in ids { var k := Located(g, id); }
  }

  // Runs of calls that all return normally.

  /** No compaction end of the run adds an entry of its own. */
  predicate NeverDrops(step: Stepper, s: State, calls: seq<Call>) {
    |calls| == 0 ||
    (NeverDrops(step, s, calls[..|calls| - 1]) && !Dropping(Run(step, s, calls[..|calls| - 1]), calls[|calls| - 1]))
  }

  lemma ToldOn(t: seq<Update>, u: seq<Update>, n: nat)
    requires n <= |t| && t <= u
    ensures Told(u, n) <==> Told(t, n) && Told(u, |t|)
  {
    assert forall i :: 0 <= i < |t| ==> t[i] == u[i];
  }

  lemma {:induction false} ToldIffNeverDrops(step: Stepper, s: State, calls: seq<Call>)
    requires Lawful(step) && Accounted(s) && AllReturn(step, s, calls)
    ensures Told(Run(step, s, calls).trace, |s.trace|) <==> NeverDrops(step, s, calls)
  {
    if |calls| > 0 {
      var r := calls[..|calls| - 1];
      ToldIffNeverDrops(step, s, r);
      RunAccounted(step, s, r);
      var before, after := Run(step, s, r), Run(step, s, calls);
      assert StepLaw(before, calls[|calls| - 1], after);
      ToldOn(before.trace, after.trace, |s.trace|);
    }
  }

  lemma ToldIffNothingSilent(t: seq<Update>)
    ensures Told(t, 0) <==> Silenced(t) == {}
  {
    if !Told(t, 0) {
      var i :| 0 <= i < |t| && t[i].Silent?;
      assert t[i].entry.id in Silenced(t);
    }
  }

  /** For every run of normally returning calls of a new projector, the client is
      never refused an update and ends with the projector's history, apart from the
      entries of compactions that were never started; it has exactly that history if
      and only if there was no such compaction. */
  lemma RunRebuilt(step: Stepper, s: State, calls: seq<Call>)
    requires Lawful(step) && Accounted(s) && s.trace == [] && AllReturn(step, s, calls)
    ensures var t := Run(step, s, calls);
            var c := ReceiveAll(Returned(t.trace));
            && c.Some?
            && c.value.history == Without(t.ledger.history, Silenced(t.trace))
            && (c.value.history == t.ledger.history <==> NeverDrops(step, s, calls))
  {
    RunAccounted(step, s, calls);
    var t := Run(step, s, calls);
    ReplayRebuilds(t.trace);
    RebuildsIffAnnounced(t.trace);
    ToldIffNeverDrops(step, s, calls);
    ToldIffNothingSilent(t.trace);
  }

  /** Every compaction end comes after a start with the same call id. */
  predicate StartsFirst(calls: seq<Call>) {
    forall j :: 0 <= j < |calls| && calls[j].Project? && calls[j].event.CompactEnd? ==>
      exists i :: 0 <= i < j && Starts(calls[i], calls[j].event.callId)
  }

  predicate Starts(call: Call, callId: string) {
    Starting(call) && call.event.callId == callId
  }

  /** Once started, a compaction's entry stays in the dictionary. */
  lemma StartedStays(step: Stepper, s: State, start: Call, callId: string, later: seq<Call>)
    requires Lawful(step) && Accounted(s) && SelfNamed(s) && Starts(start, callId) && !step(s, start).failed
    ensures var t := Run(step, step(s, start), later);
            callId in t.ledger.entries && SelfNamed(t)
  {
    var t := step(s, start);
    assert StepLaw(s, start, t);
    ReplaySound(t.trace);
    RunAccounted(step, t, later);
    RunEvolves(step, t, later);
    EvolvesKeeps(t.ledger, Run(step, t, later).ledger, callId);
  }

  lemma {:induction false} AllReturnUpTo(step: Stepper, s: State, calls: seq<Call>, n: nat)
    requires AllReturn(step, s, calls) && n <= |calls|
    ensures AllReturn(step, s, calls[..n])
  {
    if n == |calls| {
      assert calls[..n] == calls;
    } else {
      assert calls[..|calls| - 1][..n] == calls[..n];
      AllReturnUpTo(step, s, calls[..|calls| - 1], n);
    }
  }

  lemma StartedNeverDropsAfter(step: Stepper, s: State, r: seq<Call>, start: Call, rest: seq<Call>, end: Call)
    requires Lawful(step) && Accounted(s) && SelfNamed(s) && AllReturn(step, s, (r + [start]) + rest)
    requires end.Project? && end.event.CompactEnd? && Starts(start, end.event.callId)
    ensures !Dropping(Run(step, s, (r + [start]) + rest), end)
  {
    var upTo := r + [start];
    assert upTo[..|upTo| - 1] == r && (upTo + rest)[..|upTo|] == upTo;
    AllReturnUpTo(step, s, upTo + rest, |upTo|);
    RunTogether(step, s, upTo, rest);
    RunAccounted(step, s, r);
    StartedStays(step, Run(step, s, r), start, end.event.callId, rest);
  }

  lemma StartedNeverDrops(step: Stepper, s: State, calls: seq<Call>, i: nat, end: Call)
    requires Lawful(step) && Accounted(s) && SelfNamed(s) && AllReturn(step, s, calls)
    requires i < |calls| && end.Project? && end.event.CompactEnd? && Starts(calls[i], end.event.callId)
    ensures !Dropping(Run(step, s, calls), end)
  {
    assert calls == (calls[..i] + [calls[i]]) + calls[i + 1..];
    StartedNeverDropsAfter(step, s, calls[..i], calls[i], calls[i + 1..], end);
  }

  lemma StartsFirstTail(calls: seq<Call>) returns (i: nat)
    requires |calls| > 0 && StartsFirst(calls)
    ensures StartsFirst(calls[..|calls| - 1])
    ensures var last := calls[|calls| - 1];
            last.Project? && last.event.CompactEnd? ==> i < |calls| - 1 && Starts(calls[i], last.event.callId)
  {
    var r, last := calls[..|calls| - 1], calls[|calls| - 1];
    i := 0;
    if last.Project? && last.event.CompactEnd? {
      i :| 0 <= i < |calls| - 1 && Starts(calls[i], last.event.callId);
    }
    forall j | 0 <= j < |r| && r[j].Project? && r[j].event.CompactEnd?
      ensures exists k :: 0 <= k < j && Starts(r[k], r[j].event.callId)
    {
      assert r[j] == calls[j];
      var k :| 0 <= k < j && Starts(calls[k], calls[j].event.callId);
      assert Starts(r[k], r[j].event.callId);
    }
  }

  /** A run whose compactions end only after they start keeps nothing from the client. */
  lemma {:induction false} StartsFirstNeverDrops(step: Stepper, s: State, calls: seq<Call>)
    requires Lawful(step) && Accounted(s) && SelfNamed(s) && AllReturn(step, s, calls) && StartsFirst(calls)
    ensures NeverDrops(step, s, calls)
  {
    if |calls| > 0 {
      var r, last := calls[..|calls| - 1], calls[|calls| - 1];
      var i := StartsFirstTail(calls);
      StartsFirstNeverDrops(step, s, r);
      if last.Project? && last.event.CompactEnd? {
        StartedNeverDrops(step, s, r, i, last);
      }
    }
  }

  /** Of the projector itself: a client that replays the updates of normally returning
      calls has the projector's history if every compaction end follows its start. */
  lemma ProjectorRebuilt(s: State, calls: seq<Call>)
    requires s == Start(s.sessionId, s.turnId, s.preview, s.clock) && AllReturn(Step, s, calls) && StartsFirst(calls)
    ensures var t := Run(Step, s, calls);
            && ReceiveAll(Returned(t.trace)).Some?
            && ReceiveAll(Returned(t.trace)).value.history == t.ledger.history
  {
    StepIsLawful();
    StartsFirstNeverDrops(Step, s, calls);
    RunRebuilt(Step, s, calls);
  }

  lemma CompactionEndApplies(e: Entry, details: Json, now: int)
    requires e.body.Checkpoint? && e.generation.InProgress?
    ensures var ops := CompactionOps(details);
            Revise(e, Stamped(e, ops, now)).Some? && KeepsIdentity(e, Stamped(e, ops, now))
  {
    var ops := CompactionOps(details);
    assert !Replays(e, ops[0]);
    var more := Stamped(e, ops, now);
    var e1 := e.(body := e.body.(message := Some(COMPACTED)));
    var e2 := e1.(body := e1.body.(details := details));
    var e3 := e2.(generation := Completed);
    assert ApplyAll([], e3.(updatedAt := now)).Some?;
    assert [ReplaceUpdatedAt(now)][1..] == [];
    assert ApplyAll([ReplaceUpdatedAt(now)], e3).Some?;
    assert more[2..][1..] == [ReplaceUpdatedAt(now)];
    assert ApplyAll(more[2..], e2).Some?;
    assert more[1..][1..] == more[2..];
    assert ApplyAll(more[1..], e1).Some?;
    IdentityAlwaysKept(e, more);
  }

  lemma UnstartedCompactionTrace(s: State, callId: string, details: Json)
    requires s == Start(s.sessionId, s.turnId, s.preview, s.clock)
    ensures var t := EndCompaction(s, callId, details);
            !t.failed && |t.ledger.history| == 1 && |t.trace| == 2 && t.trace[0].Silent? && t.trace[1].Patched? && t.trace[1].id == callId
  {
    var now := s.clock(0);
    var e := Entry(callId, s.sessionId, s.turnId, now, now, InProgress, None, Checkpoint("compaction", None, "null"));
    CompactionEndApplies(e, details, s.clock(1));
    var a := AddNew(s.(checkpoints := s.checkpoints[callId := callId]), callId, InProgress, None,
                    Checkpoint("compaction", None, "null"), false);
    assert !a.failed && a.trace == [Silent(e)] && a.ledger == Insert(EMPTY, e) && a.ticks == 1 && a.clock == s.clock;
    assert a.ledger.entries[callId] == e;
  }

  /** A compaction end alone: the projector has one entry, its client none. */
  lemma UnstartedCompactionIsLost(s: State, callId: string, details: Json)
    requires s == Start(s.sessionId, s.turnId, s.preview, s.clock)
    ensures var t := EndCompaction(s, callId, details);
            !t.failed && |t.ledger.history| == 1 && ReceiveAll(Returned(t.trace)) == Some(NEW_CLIENT)
  {
    UnstartedCompactionTrace(s, callId, details);
    OnlyPatchIsIgnored(EndCompaction(s, callId, details).trace);
  }

  lemma OnlyPatchIsIgnored(t: seq<Update>)
    requires |t| == 2 && t[0].Silent? && t[1].Patched?
    ensures ReceiveAll(Returned(t)) == Some(NEW_CLIENT)
  {
    var front := t[..1];
    assert Returned(front) == Returned(front[..0]) + [] == [];
    var given := [t[1]];
    assert Returned(t) == [] + given == given;
    assert given[..0] == [];
    assert Receive(NEW_CLIENT, given[0]) == Some(NEW_CLIENT);
  }
}
