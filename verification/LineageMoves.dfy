/** What resolving a recurrence key comes to, in terms of the records: which key a failure
    has, who its predecessors are, and which of their counts move to it. */
module LineageMoves {
  import opened Wrappers
  import opened Lineage

  // Keys and failures.

  /** The key a failure is counted under: the package it names; else the agent's brief, its
      initial summary before its last; else the agent. */
  predicate IsKey(r: AgentRecord, e: Envelope, key: string) {
    if |e.workPackage| > 0 then key == "pkg:" + e.workPackage
    else if |r.initialSummary| > 0 then key == "brief:" + r.identity + ":" + r.initialSummary
    else if |r.lastSummary| > 0 then key == "brief:" + r.identity + ":" + r.lastSummary
    else key == "agent:" + r.agentId
  }

  predicate FailedWith(run: AgentRun, e: Envelope) {
    run.failed && run.failure == Some(e)
  }

  predicate NoFailure(run: AgentRun) {
    !run.failed || run.failure.None?
  }

  /** The failure of the agent's latest failed run: of the current one, or of the last one in
      the history where the current one has not failed. */
  predicate LatestFailed(r: AgentRecord, e: Envelope) {
    if r.currentRun.Some? && !NoFailure(r.currentRun.value) then FailedWith(r.currentRun.value, e)
    else exists i :: 0 <= i < |r.runHistory| && FailedWith(r.runHistory[i], e)
                     && forall j :: i < j < |r.runHistory| ==> NoFailure(r.runHistory[j])
  }

  /** The agent's count moves from `from` to the key. */
  ghost predicate MovesFrom(r: AgentRecord, from: string, key: string) {
    from != key && exists e :: LatestFailed(r, e) && IsKey(r, e, from)
  }

  lemma KeyIs(r: AgentRecord, e: Envelope, key: string)
    ensures IsKey(r, e, key) <==> key == LineageKey(r, e)
  {
  }

  lemma {:induction false} LastFailedIs(runs: seq<AgentRun>, e: Envelope)
    ensures LastFailed(runs) == Some(e) <==>
      exists i :: 0 <= i < |runs| && FailedWith(runs[i], e) && forall j :: i < j < |runs| ==> NoFailure(runs[j])
  {
    if |runs| > 0 {
      var front, last := runs[..|runs| - 1], runs[|runs| - 1];
      LastFailedIs(front, e);
      if LastFailed(runs) == Some(e) && !Failed(last) {
        var i :| 0 <= i < |front| && FailedWith(front[i], e) && forall j :: i < j < |front| ==> NoFailure(front[j]);
        assert forall j :: i < j < |runs| ==> NoFailure(runs[j]);
      }
      if i :| 0 <= i < |runs| && FailedWith(runs[i], e) && forall j :: i < j < |runs| ==> NoFailure(runs[j]) {
        if !Failed(last) {
          assert i < |front| && front[i] == runs[i];
          assert forall j :: i < j < |front| ==> front[j] == runs[j] && NoFailure(runs[j]);
        }
      }
    }
  }

  lemma LatestIs(r: AgentRecord, e: Envelope)
    ensures LatestFailure(r) == Some(e) <==> LatestFailed(r, e)
  {
    LastFailedIs(r.runHistory, e);
    if r.currentRun.Some? && Failed(r.currentRun.value) {
      assert FailedWith(r.currentRun.value, r.currentRun.value.failure.value);
    }
  }

  lemma OldKeyIs(r: AgentRecord, from: string, key: string)
    ensures OldKey(r, key) == Some(from) <==> MovesFrom(r, from, key)
  {
    if OldKey(r, key) == Some(from) {
      var e := LatestFailure(r).value;
      LatestIs(r, e);
      KeyIs(r, e, from);
    }
    if MovesFrom(r, from, key) {
      var e :| LatestFailed(r, e) && IsKey(r, e, from);
      LatestIs(r, e);
      KeyIs(r, e, from);
    }
  }

  // Predecessors.

  /** The walk from `start`: each record is the predecessor of the one before, none twice and
      none of those seen; it ends where there is no further one. */
  ghost predicate Walks(records: map<string, AgentRecord>, seen: set<string>, start: Option<string>, chain: seq<AgentRecord>) {
    exists ids :: WalksBy(records, seen, start, chain, ids)
  }

  predicate WalksBy(records: map<string, AgentRecord>, seen: set<string>, start: Option<string>, chain: seq<AgentRecord>, ids: seq<string>) {
    && |ids| == |chain| && New(ids, seen) && Found(records, ids, chain)
    && (forall i :: 0 <= i < |ids| ==> Link(start, chain, i) == Some(ids[i]))
    && Stops(records, seen, ids, Link(start, chain, |chain|))
  }

  predicate New(ids: seq<string>, seen: set<string>) {
    (forall i :: 0 <= i < |ids| ==> ids[i] !in seen) && forall i, j :: 0 <= i < j < |ids| ==> ids[i] != ids[j]
  }

  predicate Found(records: map<string, AgentRecord>, ids: seq<string>, chain: seq<AgentRecord>)
    requires |ids| == |chain|
  {
    forall i :: 0 <= i < |ids| ==> ids[i] in records && chain[i] == records[ids[i]]
  }

  predicate Stops(records: map<string, AgentRecord>, seen: set<string>, ids: seq<string>, next: Option<string>) {
    next.None? || next.value in seen || next.value in ids || next.value !in records
  }

  /** What the `i`-th step of the walk leads to. */
  function Link(start: Option<string>, chain: seq<AgentRecord>, i: nat): Option<string>
    requires i <= |chain|
  {
    if i == 0 then start else chain[i - 1].predecessor
  }

  lemma LinkOn(id: string, r: AgentRecord, chain: seq<AgentRecord>, i: nat)
    requires i <= |chain|
    ensures Link(Some(id), [r] + chain, i + 1) == Link(r.predecessor, chain, i)
  {
  }

  lemma NewOn(id: string, ids: seq<string>, seen: set<string>)
    requires id !in seen && New(ids, seen + {id})
    ensures New([id] + ids, seen)
  {
    var all := [id] + ids;
    forall i | 0 <= i < |all| ensures all[i] !in seen {
      if i > 0 { assert all[i] == ids[i - 1]; }
    }
    forall i, j | 0 <= i < j < |all| ensures all[i] != all[j] {
      assert all[j] == ids[j - 1];
      if i > 0 { assert all[i] == ids[i - 1]; }
    }
  }

  lemma FoundOn(records: map<string, AgentRecord>, id: string, ids: seq<string>, chain: seq<AgentRecord>)
    requires |ids| == |chain| && id in records && Found(records, ids, chain)
    ensures Found(records, [id] + ids, [records[id]] + chain)
  {
  }

  lemma StopsOn(records: map<string, AgentRecord>, seen: set<string>, id: string, ids: seq<string>, next: Option<string>)
    requires Stops(records, seen + {id}, ids, next)
    ensures Stops(records, seen, [id] + ids, next)
  {
    assert id in [id] + ids;
  }

  lemma WalkOn(records: map<string, AgentRecord>, seen: set<string>, id: string, r: AgentRecord, chain: seq<AgentRecord>, ids: seq<string>)
    requires id in records && id !in seen && r == records[id] && WalksBy(records, seen + {id}, r.predecessor, chain, ids)
    ensures WalksBy(records, seen, Some(id), [r] + chain, [id] + ids)
  {
    NewOn(id, ids, seen);
    FoundOn(records, id, ids, chain);
    StopsOn(records, seen, id, ids, Link(r.predecessor, chain, |chain|));
    LinkOn(id, r, chain, |chain|);
    forall i | 0 <= i < |[id] + ids| ensures Link(Some(id), [r] + chain, i) == Some(([id] + ids)[i]) {
      if i > 0 { LinkOn(id, r, chain, i - 1); }
    }
  }

  lemma {:induction false} ChainWalks(records: map<string, AgentRecord>, seen: set<string>, start: Option<string>)
    ensures Walks(records, seen, start, Chain(records, seen, start))
    decreases records.Keys - seen
  {
    if start.None? || start.value in seen || start.value !in records {
      assert WalksBy(records, seen, start, [], []);
    } else {
      var id := start.value;
      assert id in records.Keys - seen;
      ChainWalks(records, seen + {id}, records[id].predecessor);
      var rest := Chain(records, seen + {id}, records[id].predecessor);
      var ids :| WalksBy(records, seen + {id}, records[id].predecessor, rest, ids);
      WalkOn(records, seen, id, records[id], rest, ids);
    }
  }

  // What moves.

  /** An attribution that moves to the key with the predecessors. */
  ghost predicate Moves(chain: seq<AgentRecord>, key: string, p: Attribution) {
    exists i :: 0 <= i < |chain| && chain[i].agentId == p.0 && MovesFrom(chain[i], p.1, key)
  }

  /** The attributions that move: of each agent on the chain, the one under the key of its
      latest failure, where that is another key. */
  ghost function Moving(counts: map<Attribution, nat>, chain: seq<AgentRecord>, key: string): map<Attribution, nat> {
    map p | p in counts && Moves(chain, key, p) :: counts[p]
  }

  lemma MovesMore(chain: seq<AgentRecord>, key: string, p: Attribution)
    requires |chain| > 0
    ensures var r := chain[|chain| - 1];
            Moves(chain, key, p) <==> Moves(chain[..|chain| - 1], key, p) || (r.agentId == p.0 && OldKey(r, key) == Some(p.1))
  {
    var front, r := chain[..|chain| - 1], chain[|chain| - 1];
    OldKeyIs(r, p.1, key);
    if i :| 0 <= i < |front| && front[i].agentId == p.0 && MovesFrom(front[i], p.1, key) { assert chain[i] == front[i]; }
    if i :| 0 <= i < |chain| && chain[i].agentId == p.0 && MovesFrom(chain[i], p.1, key) {
      if i < |front| { assert front[i] == chain[i]; }
    }
  }

  /** One more of the chain: its attribution under its old key joins what moves. */
  lemma MovingMore(counts: map<Attribution, nat>, chain: seq<AgentRecord>, key: string)
    requires |chain| > 0
    ensures var r, before := chain[|chain| - 1], Moving(counts, chain[..|chain| - 1], key);
            Moving(counts, chain, key) ==
              if OldKey(r, key).Some? && (r.agentId, OldKey(r, key).value) in counts
              then before[(r.agentId, OldKey(r, key).value) := counts[(r.agentId, OldKey(r, key).value)]] else before
  {
    var front, r := chain[..|chain| - 1], chain[|chain| - 1];
    forall p ensures Moves(chain, key, p) <==> (Moves(front, key, p) || (r.agentId == p.0 && OldKey(r, key) == Some(p.1))) {
      MovesMore(chain, key, p);
    }
  }

  /** A walk takes exactly what moves. */
  ghost predicate TakesMoving(b: Book, c: Book, n: nat, moving: map<Attribution, nat>) {
    c.counts == b.counts - moving.Keys && n == Total(moving)
  }

  /** Taking one more off what is left; nothing, where it is gone already. */
  lemma TakeLeft<K>(counts: map<K, nat>, moving: map<K, nat>, p: K)
    ensures p in counts ==> counts - moving.Keys - {p} == counts - moving[p := counts[p]].Keys
    ensures p !in counts ==> counts - moving.Keys - {p} == counts - moving.Keys
  {
    if p in counts { assert moving[p := counts[p]].Keys == moving.Keys + {p}; }
  }

  lemma TakeTotal<K>(counts: map<K, nat>, moving: map<K, nat>, p: K)
    requires forall q :: q in moving ==> q in counts && moving[q] == counts[q]
    ensures p in counts ==> Total(moving) + Of(counts - moving.Keys, p) == Total(moving[p := counts[p]])
    ensures p !in counts ==> Of(counts - moving.Keys, p) == 0
  {
    if p in counts { TotalSet(moving, p, counts[p]); }
  }

  /** What one step of a walk takes. */
  lemma TakeFromCounts(b: Book, r: AgentRecord, key: string)
    ensures var (c, n) := TakeFrom(b, r, key);
            match OldKey(r, key)
            case None => c.counts == b.counts && n == 0
            case Some(from) => c.counts == b.counts - {(r.agentId, from)} && n == Of(b.counts, (r.agentId, from))
  {
  }

  lemma {:induction false} WalkTakesMoving(b: Book, chain: seq<AgentRecord>, key: string)
    ensures var (c, n) := TakeAll(b, chain, key);
            TakesMoving(b, c, n, Moving(b.counts, chain, key))
  {
    if |chain| == 0 {
      assert Moving(b.counts, chain, key) == map[] && Total<Attribution>(map[]) == 0;
    } else {
      var front, r := chain[..|chain| - 1], chain[|chain| - 1];
      var (c, n) := TakeAll(b, front, key);
      var before := Moving(b.counts, front, key);
      WalkTakesMoving(b, front, key);
      assert TakesMoving(b, c, n, before);
      MovingMore(b.counts, chain, key);
      TakeFromCounts(c, r, key);
      if OldKey(r, key).Some? {
        var p := (r.agentId, OldKey(r, key).value);
        TakeLeft(b.counts, before, p);
        TakeTotal(b.counts, before, p);
      }
    }
  }

  // Sums of what moves.

  lemma {:induction false} TotalSplit<K>(m: map<K, nat>, part: map<K, nat>)
    requires forall k :: k in part ==> k in m && m[k] == part[k]
    ensures Total(m) == Total(m - part.Keys) + Total(part)
    decreases |part|
  {
    if |part| == 0 {
      assert m - part.Keys == m;
    } else {
      var k := Chosen(part);
      TotalWithout(m, k);
      TotalSplit(m - {k}, part - {k});
      assert m - {k} - (part - {k}).Keys == m - part.Keys;
    }
  }

  lemma AttributedSplit(counts: map<Attribution, nat>, moving: map<Attribution, nat>, key: string)
    requires forall p :: p in moving ==> p in counts && counts[p] == moving[p]
    ensures Attributed(counts, key) == Attributed(counts - moving.Keys, key) + Attributed(moving, key)
  {
    TotalSplit(Under(counts, key), Under(moving, key));
    assert Under(counts, key) - Under(moving, key).Keys == Under(counts - moving.Keys, key);
  }

  /** None of it is under the key it moves to. */
  lemma NoneStays(counts: map<Attribution, nat>, chain: seq<AgentRecord>, key: string)
    ensures Attributed(Moving(counts, chain, key), key) == 0
  {
    assert Under(Moving(counts, chain, key), key) == map[];
  }

  /** What resolving under a package's key does: the count of the key rises by exactly the
      attributions that move, every other count falls by those of them it had, and they are
      gone. */
  ghost predicate Resolves(b: Book, c: Book, key: string, moving: map<Attribution, nat>) {
    && c.counts == b.counts - moving.Keys
    && forall k :: Of(c.lineage, k) == Of(b.lineage, k) + if k == key then Total(moving) else 0 - Attributed(moving, k)
  }

  lemma ResolveCounts(b: Book, records: map<string, AgentRecord>, r: AgentRecord, e: Envelope)
    requires IsPackage(LineageKey(r, e))
    ensures var chain, key := Chain(records, {r.agentId}, r.predecessor), LineageKey(r, e);
            TakesMoving(b, Resolve(b, records, r, e).0, Moved(b, records, r, e), Moving(b.counts, chain, key))
  {
    WalkTakesMoving(b, Chain(records, {r.agentId}, r.predecessor), LineageKey(r, e));
  }

  lemma ResolveAt(b: Book, records: map<string, AgentRecord>, r: AgentRecord, e: Envelope, c: Book, moving: map<Attribution, nat>, k: string)
    requires Balanced(b) && IsPackage(LineageKey(r, e)) && c == Resolve(b, records, r, e).0
    requires moving == Moving(b.counts, Chain(records, {r.agentId}, r.predecessor), LineageKey(r, e))
    ensures Of(c.lineage, k) == Of(b.lineage, k) + if k == LineageKey(r, e) then Total(moving) else 0 - Attributed(moving, k)
  {
    ResolveCounts(b, records, r, e);
    ResolveSlack(b, records, r, e, k);
    AttributedSplit(b.counts, moving, k);
    NoneStays(b.counts, Chain(records, {r.agentId}, r.predecessor), LineageKey(r, e));
  }

  /** A failure's key, and what resolving it does to the books. */
  ghost predicate Settles(b: Book, c: Book, records: map<string, AgentRecord>, r: AgentRecord, e: Envelope, key: string) {
    && IsKey(r, e, key)
    && if |e.workPackage| > 0 then Resolves(b, c, key, Moving(b.counts, Chain(records, {r.agentId}, r.predecessor), key)) else c == b
  }

  /** Resolving gives the key of the failure, whichever agent failed. Where the failure names
      a package, what the predecessors contributed under other keys moves to its key; where
      it names none, nothing changes. */
  lemma ResolveExactly(b: Book, records: map<string, AgentRecord>, r: AgentRecord, e: Envelope)
    requires Balanced(b)
    ensures var (c, key) := Resolve(b, records, r, e);
            Settles(b, c, records, r, e, key)
  {
    var key, chain := LineageKey(r, e), Chain(records, {r.agentId}, r.predecessor);
    KeyIs(r, e, key);
    PackageExactly(r, e);
    if |e.workPackage| > 0 {
      var c, moving := Resolve(b, records, r, e).0, Moving(b.counts, chain, key);
      ResolveCounts(b, records, r, e);
      forall k ensures Of(c.lineage, k) == Of(b.lineage, k) + if k == key then Total(moving) else 0 - Attributed(moving, k) {
        ResolveAt(b, records, r, e, c, moving, k);
      }
    }
  }

  lemma PackageExactly(r: AgentRecord, e: Envelope)
    ensures IsPackage(LineageKey(r, e)) <==> |e.workPackage| > 0
  {
    var key := LineageKey(r, e);
    assert "brief:" <= key ==> key[0] == 'b';
    assert "agent:" <= key ==> key[0] == 'a';
  }
}
