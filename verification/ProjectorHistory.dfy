/** What holds of the public history over every run of projector calls, those
    that raise included. */
module ProjectorHistory {
  import opened History
  import opened Projector

  predicate Distinct(ids: seq<string>) {
    forall i, j :: 0 <= i < j < |ids| ==> ids[i] != ids[j]
  }

  /** The history list and the dictionary hold the same entries, each id once,
      and the dictionary's order is the order of the list. */
  predicate Sound(g: Ledger) {
    && g.keys == Ids(g.history)
    && Distinct(g.keys)
    && g.entries.Keys == (set id <- g.keys)
    && forall i :: 0 <= i < |g.history| ==> g.history[i].id in g.entries && g.entries[g.history[i].id] == g.history[i]
  }

  /** Identity and speaker are kept, and completed entries are frozen but for a duration. */
  predicate EntryEvolves(a: Entry, b: Entry) {
    SameIdentity(a, b) && SameVoice(a.body, b.body) && (a.generation.Completed? ==> Frozen(a, b))
  }

  /** Entries are only ever appended, and those already there only evolve. */
  predicate Evolves(g: Ledger, h: Ledger) {
    && |g.history| <= |h.history|
    && forall i :: 0 <= i < |g.history| ==> EntryEvolves(g.history[i], h.history[i])
  }

  lemma {:induction false} OverwriteAt(h: seq<Entry>, k: nat, e: Entry)
    requires k < |h| && forall i :: 0 <= i < k ==> h[i].id != h[k].id
    ensures Overwrite(h, h[k].id, e) == h[k := e]
  {
    if k > 0 { OverwriteAt(h[1..], k - 1, e); }
  }

  lemma Located(g: Ledger, id: string) returns (k: nat)
    requires Sound(g) && id in g.entries
    ensures k < |g.history| && g.history[k].id == id && g.history[k] == g.entries[id]
    ensures forall e :: Overwrite(g.history, id, e) == g.history[k := e]
  {
    k :| k < |g.keys| && g.keys[k] == id;
    assert forall i :: 0 <= i < k ==> g.keys[i] == g.history[i].id;
    forall e ensures Overwrite(g.history, id, e) == g.history[k := e] { OverwriteAt(g.history, k, e); }
  }

  lemma InsertSound(g: Ledger, e: Entry)
    requires Sound(g) && e.id !in g.entries
    ensures Sound(Insert(g, e))
  {
    var h := Insert(g, e);
    assert h.keys == Ids(h.history);
    forall i | 0 <= i < |g.history| ensures g.history[i].id != e.id {
      assert g.keys[i] == g.history[i].id;
    }
  }

  lemma RewriteSound(g: Ledger, id: string, e: Entry)
    requires Sound(g) && id in g.entries && e.id == id
    ensures Sound(Rewrite(g, id, e))
  {
    var k := Located(g, id);
    var h := Rewrite(g, id, e);
    assert h.history == g.history[k := e];
    assert h.keys == Ids(h.history);
    assert h.entries.Keys == g.entries.Keys;
    forall i | 0 <= i < |h.history| ensures h.history[i].id in h.entries && h.entries[h.history[i].id] == h.history[i] {
      if i != k { assert g.keys[i] != g.keys[k]; }
    }
  }

  /** One patch the rules accept keeps the identity, and freezes completed entries. */
  lemma ReviseEvolves(e: Entry, ops: seq<Op>)
    requires Revise(e, ops).Some?
    ensures EntryEvolves(e, Revise(e, ops).value)
  {
    ApplyKeepsIdentity(ops, e);
    if e.generation.Completed? { TimingOnlyFreezes(e, ops); }
  }

  lemma PlaySound(g: Ledger, u: Update)
    requires Sound(g) && Play(g, u).Some?
    ensures Sound(Play(g, u).value)
  {
    match u
    case SessionPatched(_, _) =>
    case Added(e) => InsertSound(g, e);
    case Silent(e) => InsertSound(g, e);
    case Patched(id, ops) =>
      var k := Located(g, id);
      ReviseEvolves(g.entries[id], ops);
      RewriteSound(g, id, Revise(g.entries[id], ops).value);
  }

  lemma EvolvesSelf(g: Ledger)
    ensures Evolves(g, g)
  {
  }

  lemma PlayEvolves(g: Ledger, u: Update)
    requires Sound(g) && Play(g, u).Some?
    ensures Evolves(g, Play(g, u).value)
  {
    match u
    case SessionPatched(_, _) => EvolvesSelf(g);
    case Added(_) | Silent(_) => EvolvesSelf(g);
    case Patched(id, ops) =>
      var k := Located(g, id);
      ReviseEvolves(g.entries[id], ops);
      EvolvesSelf(g);
  }

  lemma EntryEvolvesOn(a: Entry, b: Entry, c: Entry)
    requires EntryEvolves(a, b) && EntryEvolves(b, c)
    ensures EntryEvolves(a, c)
  {
  }

  lemma EvolvesOn(g: Ledger, h: Ledger, k: Ledger)
    requires Evolves(g, h) && Evolves(h, k)
    ensures Evolves(g, k)
  {
    forall i | 0 <= i < |g.history| ensures EntryEvolves(g.history[i], k.history[i]) {
      EntryEvolvesOn(g.history[i], h.history[i], k.history[i]);
    }
  }

  /** Whatever updates are made, list and dictionary agree. */
  lemma {:induction false} ReplaySound(t: seq<Update>)
    requires Replay(t).Some?
    ensures Sound(Replay(t).value)
  {
    if |t| > 0 {
      ReplaySound(t[..|t| - 1]);
      PlaySound(Replay(t[..|t| - 1]).value, t[|t| - 1]);
    }
  }

  lemma {:induction false} ReplayEvolves(t: seq<Update>, n: nat)
    requires n <= |t| && Replay(t).Some?
    ensures Replay(t[..n]).Some? && Evolves(Replay(t[..n]).value, Replay(t).value)
  {
    if n == |t| {
      assert t[..n] == t;
      EvolvesSelf(Replay(t).value);
    } else {
      var r := t[..|t| - 1];
      ReplayEvolves(r, n);
      assert r[..n] == t[..n];
      ReplaySound(r);
      PlayEvolves(Replay(r).value, t[|t| - 1]);
      EvolvesOn(Replay(t[..n]).value, Replay(r).value, Replay(t).value);
    }
  }

  lemma {:induction false} RunTogether(step: Stepper, s: State, a: seq<Call>, b: seq<Call>)
    ensures Run(step, s, a + b) == Run(step, Run(step, s, a), b)
  {
    if |b| == 0 {
      assert a + b == a;
    } else {
      assert (a + b)[..|a + b| - 1] == a + b[..|b| - 1];
      RunTogether(step, s, a, b[..|b| - 1]);
    }
  }

  lemma EvolvesKeeps(g: Ledger, h: Ledger, id: string)
    requires Sound(g) && Sound(h) && Evolves(g, h) && id in g.entries
    ensures id in h.entries && EntryEvolves(g.entries[id], h.entries[id])
  {
    var k := Located(g, id);
    assert EntryEvolves(g.history[k], h.history[k]);
  }

  /** After any run the `_entries` dictionary and the history agree, and the history
      is what the updates made so far rebuild. */
  lemma {:induction false} RunAccounted(step: Stepper, s: State, calls: seq<Call>)
    requires Lawful(step) && Accounted(s)
    ensures var t := Run(step, s, calls);
            Accounted(t) && Sound(t.ledger) && s.trace <= t.trace && (SelfNamed(s) ==> SelfNamed(t))
  {
    var t := Run(step, s, calls);
    if |calls| > 0 {
      RunAccounted(step, s, calls[..|calls| - 1]);
      assert StepLaw(Run(step, s, calls[..|calls| - 1]), calls[|calls| - 1], t);
    }
    ReplaySound(t.trace);
  }

  /** No later sequence of calls takes an entry away, moves it, changes its type, id,
      session, turn or creation time, or changes anything in a completed entry except
      an assistant message's turn duration or a settled effect's duration. */
  lemma RunEvolves(step: Stepper, s: State, calls: seq<Call>)
    requires Lawful(step) && Accounted(s)
    ensures Evolves(s.ledger, Run(step, s, calls).ledger)
  {
    RunAccounted(step, s, calls);
    var t := Run(step, s, calls);
    assert t.trace[..|s.trace|] == s.trace;
    ReplayEvolves(t.trace, |s.trace|);
  }

  /** The projector itself, from its creation on: list and dictionary agree, and
      entries only evolve from any point of the run to any later one. */
  lemma ProjectorEvolves(s: State, calls: seq<Call>, later: seq<Call>)
    requires s == Start(s.sessionId, s.turnId, s.preview, s.clock)
    ensures Sound(Run(Step, s, calls).ledger)
    ensures Evolves(Run(Step, s, calls).ledger, Run(Step, s, calls + later).ledger)
  {
    StepIsLawful();
    RunAccounted(Step, s, calls);
    RunEvolves(Step, Run(Step, s, calls), later);
    RunTogether(Step, s, calls, later);
  }

  /** The state is what a list of calls makes of a new projector, the last raised or not. */
  ghost predicate IsRun(start: State, s: State, calls: seq<Call>) {
    && start == Start(start.sessionId, start.turnId, start.preview, start.clock)
    && s == Run(Step, start, calls).(failed := false)
  }

  lemma IsRunNext(start: State, s: State, calls: seq<Call>, call: Call)
    requires IsRun(start, s, calls)
    ensures IsRun(start, Step(s, call).(failed := false), calls + [call])
    ensures Accounted(s) && StepLaw(s, call, Step(s, call))
    ensures Sound(Step(s, call).ledger) && Evolves(s.ledger, Step(s, call).ledger)
  {
    assert (calls + [call])[..|calls|] == calls;
    var r := Run(Step, start, calls);
    StepIsLawful();
    RunAccounted(Step, start, calls);
    StepForgets(r, call);
    var t := Step(s, call);
    assert t.trace[..|s.trace|] == s.trace;
    ReplaySound(t.trace);
    ReplayEvolves(t.trace, |s.trace|);
  }

  /** Whether the call before it raised makes no difference to a call. */
  lemma StepForgets(s: State, call: Call)
    ensures Step(s.(failed := false), call) == Step(s, call)
  {
  }

  /** A patch the frozen and identity checks let through is never refused for
      identity: the identity check cannot fail. */
  lemma IdentityAlwaysKept(e: Entry, ops: seq<Op>)
    ensures KeepsIdentity(e, ops)
  {
    if ApplyAll(ops, e).Some? { ApplyKeepsIdentity(ops, e); }
  }
}
