/** Recurrence accounting of the child recovery controller: how many automatic
    admissions each package lineage has used, and how much of that each agent did. */
module Lineage {
  import opened Wrappers

  datatype Envelope = Envelope(workPackage: string)

  datatype AgentRun = AgentRun(failed: bool, failure: Option<Envelope>)

  datatype AgentRecord = AgentRecord(
    agentId: string, identity: string, initialSummary: string, lastSummary: string,
    predecessor: Option<string>, currentRun: Option<AgentRun>, runHistory: seq<AgentRun>)

  const PACKAGE: string := "pkg:"

  /** The identity the recurrence counter spans: the work package, else the brief, else
      the agent alone. */
  function LineageKey(r: AgentRecord, e: Envelope): string {
    if e.workPackage != "" then PACKAGE + e.workPackage
    else
      var summary := if r.initialSummary != "" then r.initialSummary else r.lastSummary;
      if summary != "" then "brief:" + r.identity + ":" + summary else "agent:" + r.agentId
  }

  predicate Failed(run: AgentRun) {
    run.failed && run.failure.Some?
  }

  function LastFailed(runs: seq<AgentRun>): Option<Envelope> {
    if |runs| == 0 then None
    else if Failed(runs[|runs| - 1]) then runs[|runs| - 1].failure
    else LastFailed(runs[..|runs| - 1])
  }

  /** The envelope of the latest failed run, the current run first. */
  function LatestFailure(r: AgentRecord): Option<Envelope> {
    if r.currentRun.Some? && Failed(r.currentRun.value) then r.currentRun.value.failure else LastFailed(r.runHistory)
  }

  // The books.

  type Attribution = (string, string)

  datatype Book = Book(lineage: map<string, nat>, counts: map<Attribution, nat>)

  const NEW_BOOK: Book := Book(map[], map[])

  /** Python's `d.get(k, 0)`. */
  function Of<K(==)>(m: map<K, nat>, k: K): nat {
    if k in m then m[k] else 0
  }

  /** Count one admitted continuation, for a lineage and for the agent. */
  function Count(b: Book, agent: string, key: string): Book {
    Book(b.lineage[key := Of(b.lineage, key) + 1], b.counts[(agent, key) := Of(b.counts, (agent, key)) + 1])
  }

  /** The key under which an ancestor's count would move to `key`, if it would. */
  function OldKey(r: AgentRecord, key: string): Option<string> {
    match LatestFailure(r)
    case None => None
    case Some(e) => if LineageKey(r, e) != key then Some(LineageKey(r, e)) else None
  }

  /** Take a count off a key, dropping the key when nothing is left. */
  function Less(lineage: map<string, nat>, key: string, n: nat): map<string, nat> {
    if Of(lineage, key) > n then lineage[key := Of(lineage, key) - n] else lineage - {key}
  }

  /** The books without what an agent contributed under a key. */
  function TakeShare(b: Book, agent: string, key: string): Book {
    var n := Of(b.counts, (agent, key));
    Book(if n > 0 then Less(b.lineage, key, n) else b.lineage, b.counts - {(agent, key)})
  }

  /** Take an ancestor's own count from its old key; and how much that was. */
  function TakeFrom(b: Book, r: AgentRecord, key: string): (Book, nat) {
    match OldKey(r, key)
    case None => (b, 0)
    case Some(oldKey) => (TakeShare(b, r.agentId, oldKey), Of(b.counts, (r.agentId, oldKey)))
  }

  function TakeAll(b: Book, chain: seq<AgentRecord>, key: string): (Book, nat) {
    if |chain| == 0 then (b, 0)
    else
      var (rest, n) := TakeAll(b, chain[..|chain| - 1], key);
      var (last, m) := TakeFrom(rest, chain[|chain| - 1], key);
      (last, n + m)
  }

  /** The predecessors a walk from `id` meets: it ends at a missing record, and where the
      chain comes back to an agent already seen. */
  function Chain(records: map<string, AgentRecord>, seen: set<string>, id: Option<string>): seq<AgentRecord>
    decreases records.Keys - seen
  {
    if id.None? || id.value in seen || id.value !in records then []
    else
      assert id.value in records.Keys - seen;
      [records[id.value]] + Chain(records, seen + {id.value}, records[id.value].predecessor)
  }

  predicate IsPackage(key: string) {
    PACKAGE <= key
  }

  function Give(b: Book, key: string, n: nat): Book {
    b.(lineage := b.lineage[key := Of(b.lineage, key) + n])
  }

  /** The recurrence key of a failure, with the counts of its predecessors moved to it. */
  function Resolve(b: Book, records: map<string, AgentRecord>, r: AgentRecord, e: Envelope): (Book, string) {
    var key := LineageKey(r, e);
    if !IsPackage(key) then (b, key)
    else
      var (taken, n) := TakeAll(b, Chain(records, {r.agentId}, r.predecessor), key);
      (if n > 0 then Give(taken, key, n) else taken, key)
  }

  // Sums over maps.

  ghost function Total<K>(m: map<K, nat>): nat
    decreases |m|
  {
    if |m| == 0 then 0 else TotalFrom(m, Chosen(m))
  }

  ghost function TotalFrom<K>(m: map<K, nat>, k: K): nat
    requires k in m
    decreases |m|, 0
  {
    m[k] + Total(m - {k})
  }

  ghost function Chosen<K>(m: map<K, nat>): (k: K)
    requires |m| > 0
    ensures k in m
  {
    var k :| k in m; k
  }

  lemma {:induction false} TotalWithout<K>(m: map<K, nat>, k: K)
    requires k in m
    ensures Total(m) == m[k] + Total(m - {k})
    decreases |m|
  {
    var j := Chosen(m);
    assert Total(m) == m[j] + Total(m - {j});
    if j != k {
      var both := m - {j} - {k};
      assert m - {k} - {j} == both;
      TotalWithout(m - {j}, k);
      TotalWithout(m - {k}, j);
    }
  }

  lemma TotalSet<K>(m: map<K, nat>, k: K, n: nat)
    ensures Total(m[k := n]) == Total(m) - Of(m, k) + n
  {
    TotalWithout(m[k := n], k);
    assert m[k := n] - {k} == m - {k};
    if k in m { TotalWithout(m, k); } else { assert m - {k} == m; }
  }

  lemma TotalDrop<K>(m: map<K, nat>, k: K)
    ensures Total(m - {k}) == Total(m) - Of(m, k)
  {
    if k in m { TotalWithout(m, k); } else { assert m - {k} == m; }
  }

  /** The attributions under one key. */
  function Under(counts: map<Attribution, nat>, key: string): map<Attribution, nat> {
    map p | p in counts && p.1 == key :: counts[p]
  }

  /** What the agents contributed under a key. */
  ghost function Attributed(counts: map<Attribution, nat>, key: string): nat {
    Total(Under(counts, key))
  }

  lemma AttributedSet(counts: map<Attribution, nat>, p: Attribution, n: nat, key: string)
    ensures Attributed(counts[p := n], key) == Attributed(counts, key) + (if key == p.1 then n - Of(counts, p) else 0)
  {
    if key == p.1 {
      assert Under(counts[p := n], key) == Under(counts, key)[p := n];
      TotalSet(Under(counts, key), p, n);
    } else {
      assert Under(counts[p := n], key) == Under(counts, key);
    }
  }

  lemma AttributedDrop(counts: map<Attribution, nat>, p: Attribution, key: string)
    ensures Attributed(counts - {p}, key) == Attributed(counts, key) - (if key == p.1 then Of(counts, p) else 0)
  {
    if key == p.1 {
      assert Under(counts - {p}, key) == Under(counts, key) - {p};
      TotalDrop(Under(counts, key), p);
    } else {
      assert Under(counts - {p}, key) == Under(counts, key);
    }
  }

  lemma AttributedAtLeast(counts: map<Attribution, nat>, p: Attribution)
    ensures Attributed(counts, p.1) >= Of(counts, p)
  {
    AttributedDrop(counts, p, p.1);
  }

  // The laws.

  /** What no agent contributed under a key. */
  ghost function Slack(b: Book, key: string): int {
    Of(b.lineage, key) - Attributed(b.counts, key)
  }

  /** Each key's count is at least what its agents contributed. */
  ghost predicate Balanced(b: Book) {
    forall key :: Slack(b, key) >= 0
  }

  ghost predicate SameSlack(b: Book, c: Book) {
    forall key :: Slack(c, key) == Slack(b, key)
  }

  lemma CountSlack(b: Book, agent: string, key: string)
    ensures SameSlack(b, Count(b, agent, key))
  {
    var p := (agent, key);
    forall k ensures Slack(Count(b, agent, key), k) == Slack(b, k) {
      AttributedSet(b.counts, p, Of(b.counts, p) + 1, k);
    }
  }

  lemma CountTotal(b: Book, agent: string, key: string)
    ensures Total(Count(b, agent, key).lineage) == Total(b.lineage) + 1
  {
    TotalSet(b.lineage, key, Of(b.lineage, key) + 1);
  }

  lemma LessTotal(lineage: map<string, nat>, key: string, n: nat)
    requires n <= Of(lineage, key)
    ensures Total(Less(lineage, key, n)) + n == Total(lineage)
  {
    if Of(lineage, key) > n { TotalSet(lineage, key, Of(lineage, key) - n); } else { TotalDrop(lineage, key); }
  }

  lemma LessAt(lineage: map<string, nat>, key: string, n: nat, k: string)
    requires n <= Of(lineage, key)
    ensures Of(Less(lineage, key, n), k) == Of(lineage, k) - (if k == key then n else 0)
  {
  }

  /** What an ancestor contributed under the key its count would move from. */
  function OwnShare(b: Book, r: AgentRecord, key: string): nat {
    match OldKey(r, key)
    case None => 0
    case Some(oldKey) => Of(b.counts, (r.agentId, oldKey))
  }

  /** `n` of the count of `r` has gone from its old key, its attribution with it; every
      other count and attribution is what it was. */
  ghost predicate TakesOff(b: Book, c: Book, r: AgentRecord, key: string, n: nat) {
    && (forall k :: Of(c.lineage, k) == Of(b.lineage, k) - (if OldKey(r, key) == Some(k) then n else 0))
    && (forall p :: Of(c.counts, p) == Of(b.counts, p) - (if p.0 == r.agentId && OldKey(r, key) == Some(p.1) then n else 0))
  }

  /** Taking an ancestor's count takes exactly its own attribution from exactly its key. */
  lemma TakeFromKeeps(b: Book, r: AgentRecord, key: string)
    requires Balanced(b)
    ensures var (c, n) := TakeFrom(b, r, key);
            n == OwnShare(b, r, key) && TakesOff(b, c, r, key, n) && Total(c.lineage) + n == Total(b.lineage) && SameSlack(b, c)
  {
    match OldKey(r, key)
    case None =>
    case Some(oldKey) =>
      TakeShareKeeps(b, r.agentId, oldKey);
      TakeShareSlack(b, r.agentId, oldKey);
  }

  lemma TakeShareKeeps(b: Book, agent: string, key: string)
    requires Balanced(b)
    ensures var n, c := Of(b.counts, (agent, key)), TakeShare(b, agent, key);
            && Total(c.lineage) + n == Total(b.lineage)
            && (forall k :: Of(c.lineage, k) == Of(b.lineage, k) - (if k == key then n else 0))
  {
    var n := Of(b.counts, (agent, key));
    AttributedAtLeast(b.counts, (agent, key));
    assert Slack(b, key) >= 0;
    if n > 0 {
      LessTotal(b.lineage, key, n);
      forall k ensures Of(Less(b.lineage, key, n), k) == Of(b.lineage, k) - (if k == key then n else 0) {
        LessAt(b.lineage, key, n, k);
      }
    }
  }

  lemma TakeShareSlack(b: Book, agent: string, key: string)
    requires Balanced(b)
    ensures SameSlack(b, TakeShare(b, agent, key))
  {
    TakeShareKeeps(b, agent, key);
    var c := TakeShare(b, agent, key);
    forall k ensures Slack(c, k) == Slack(b, k) { AttributedDrop(b.counts, (agent, key), k); }
  }

  lemma SlackOn(b: Book, c: Book, d: Book)
    requires SameSlack(b, c) && SameSlack(c, d)
    ensures SameSlack(b, d) && (Balanced(b) ==> Balanced(c))
  {
    forall k ensures Slack(d, k) == Slack(b, k) && Slack(c, k) == Slack(b, k) { assert Slack(c, k) == Slack(b, k); }
  }

  /** A walk loses nothing: the sum falls by what it carries, and no slack changes. */
  lemma {:induction false} TakeAllKeeps(b: Book, chain: seq<AgentRecord>, key: string)
    requires Balanced(b)
    ensures var (c, n) := TakeAll(b, chain, key);
            SameSlack(b, c) && Balanced(c) && Total(c.lineage) + n == Total(b.lineage) && Of(c.lineage, key) == Of(b.lineage, key)
  {
    if |chain| > 0 {
      TakeAllKeeps(b, chain[..|chain| - 1], key);
      var (c, n) := TakeAll(b, chain[..|chain| - 1], key);
      TakeFromKeeps(c, chain[|chain| - 1], key);
      var d := TakeFrom(c, chain[|chain| - 1], key).0;
      SlackOn(b, c, d);
      SlackOn(c, d, d);
    }
  }

  predicate On(chain: seq<AgentRecord>, agent: string) {
    exists i :: 0 <= i < |chain| && chain[i].agentId == agent
  }

  /** There is nothing of this ancestor to move. */
  predicate Spent(counts: map<Attribution, nat>, r: AgentRecord, key: string) {
    OldKey(r, key).Some? ==> (r.agentId, OldKey(r, key).value) !in counts
  }

  predicate AllSpent(counts: map<Attribution, nat>, chain: seq<AgentRecord>, key: string) {
    forall i :: 0 <= i < |chain| ==> Spent(counts, chain[i], key)
  }

  /** `c` has attributions of `b` only, and as large. */
  predicate Within(c: Book, b: Book) {
    forall p :: p in c.counts ==> p in b.counts && c.counts[p] == b.counts[p]
  }

  /** Every attribution off the chain, or already under the key, is still there. */
  predicate SparesOthers(b: Book, c: Book, chain: seq<AgentRecord>, key: string) {
    forall p :: p in b.counts && (p.1 == key || !On(chain, p.0)) ==> p in c.counts
  }

  /** A walk touches no attribution off the chain or already under the key, and leaves
      nothing on the chain to take. */
  lemma {:induction false} TakeAllOwn(b: Book, chain: seq<AgentRecord>, key: string)
    ensures var c := TakeAll(b, chain, key).0;
            Within(c, b) && SparesOthers(b, c, chain, key) && AllSpent(c.counts, chain, key)
  {
    if |chain| > 0 {
      var front, r := chain[..|chain| - 1], chain[|chain| - 1];
      TakeAllOwn(b, front, key);
      var c := TakeAll(b, front, key).0;
      TakeFromOwn(c, r, key);
      TakenOn(b, c, TakeFrom(c, r, key).0, chain, key);
    }
  }

  lemma TakeFromOwn(b: Book, r: AgentRecord, key: string)
    ensures var c := TakeFrom(b, r, key).0;
            Within(c, b) && SparesOthers(b, c, [r], key) && Spent(c.counts, r, key)
  {
    assert [r][0] == r;
  }

  lemma TakenOn(b: Book, c: Book, d: Book, chain: seq<AgentRecord>, key: string)
    requires |chain| > 0
    requires var front, r := chain[..|chain| - 1], chain[|chain| - 1];
             && Within(c, b) && SparesOthers(b, c, front, key) && AllSpent(c.counts, front, key)
             && Within(d, c) && SparesOthers(c, d, [r], key) && Spent(d.counts, r, key)
    ensures Within(d, b) && SparesOthers(b, d, chain, key) && AllSpent(d.counts, chain, key)
  {
    var front, r := chain[..|chain| - 1], chain[|chain| - 1];
    forall p | p in b.counts && (p.1 == key || !On(chain, p.0)) ensures p in d.counts {
      if p.1 != key { OnMore(chain); }
      assert p in c.counts;
    }
    forall i | 0 <= i < |chain| ensures Spent(d.counts, chain[i], key) {
      if i < |front| { assert Spent(c.counts, front[i], key); }
    }
  }

  lemma OnMore(chain: seq<AgentRecord>)
    requires |chain| > 0
    ensures forall agent :: On(chain, agent) <==> On(chain[..|chain| - 1], agent) || chain[|chain| - 1].agentId == agent
  {
    forall agent ensures On(chain, agent) <==> On(chain[..|chain| - 1], agent) || chain[|chain| - 1].agentId == agent {
      if On(chain[..|chain| - 1], agent) {
        var i :| 0 <= i < |chain| - 1 && chain[..|chain| - 1][i].agentId == agent;
        assert chain[i].agentId == agent;
      }
      if On(chain, agent) && chain[|chain| - 1].agentId != agent {
        var i :| 0 <= i < |chain| && chain[i].agentId == agent;
        assert chain[..|chain| - 1][i].agentId == agent;
      }
    }
  }

  lemma {:induction false} TakeNothing(b: Book, chain: seq<AgentRecord>, key: string)
    requires AllSpent(b.counts, chain, key)
    ensures TakeAll(b, chain, key) == (b, 0)
  {
    if |chain| > 0 {
      var front, r := chain[..|chain| - 1], chain[|chain| - 1];
      assert forall i :: 0 <= i < |front| ==> front[i] == chain[i];
      TakeNothing(b, front, key);
      assert Spent(b.counts, r, key);
      if OldKey(r, key).Some? { assert b.counts - {(r.agentId, OldKey(r, key).value)} == b.counts; }
    }
  }

  lemma GiveSlack(b: Book, key: string, n: nat, k: string)
    ensures Slack(Give(b, key, n), k) == Slack(b, k) + if k == key then n else 0
  {
  }

  lemma GiveTotal(b: Book, key: string, n: nat)
    ensures Total(Give(b, key, n).lineage) == Total(b.lineage) + n
  {
    TotalSet(b.lineage, key, Of(b.lineage, key) + n);
  }

  /** How much a resolution moves to its key. */
  function Moved(b: Book, records: map<string, AgentRecord>, r: AgentRecord, e: Envelope): nat {
    var key := LineageKey(r, e);
    if IsPackage(key) then TakeAll(b, Chain(records, {r.agentId}, r.predecessor), key).1 else 0
  }

  /** Resolving raises the part that no agent contributed under the resolved key by exactly
      what it moves there, and leaves that part of every other key alone: it never falls. */
  lemma ResolveSlack(b: Book, records: map<string, AgentRecord>, r: AgentRecord, e: Envelope, k: string)
    requires Balanced(b)
    ensures var (c, key) := Resolve(b, records, r, e);
            Slack(c, k) == Slack(b, k) + if k == key then Moved(b, records, r, e) else 0
  {
    var key := LineageKey(r, e);
    var chain := Chain(records, {r.agentId}, r.predecessor);
    TakeAllKeeps(b, chain, key);
    var (taken, n) := TakeAll(b, chain, key);
    assert Slack(taken, k) == Slack(b, k);
    GiveSlack(taken, key, n, k);
  }

  /** Resolving a key moves counts and loses none: the sum over all keys is the same, and
      each key still covers its agents. */
  lemma ResolveConserves(b: Book, records: map<string, AgentRecord>, r: AgentRecord, e: Envelope)
    requires Balanced(b)
    ensures var (c, key) := Resolve(b, records, r, e);
            Balanced(c) && Total(c.lineage) == Total(b.lineage)
  {
    var key := LineageKey(r, e);
    var chain := Chain(records, {r.agentId}, r.predecessor);
    TakeAllKeeps(b, chain, key);
    var (taken, n) := TakeAll(b, chain, key);
    GiveTotal(taken, key, n);
    var c := Resolve(b, records, r, e).0;
    forall k ensures Slack(c, k) >= 0 {
      ResolveSlack(b, records, r, e, k);
      assert Slack(b, k) >= 0;
    }
  }

  /** No attribution changes its size; one that goes is of an agent on the chain, under
      another key than the resolved one. */
  lemma ResolveTakesOwn(b: Book, records: map<string, AgentRecord>, r: AgentRecord, e: Envelope)
    ensures var (c, key) := Resolve(b, records, r, e);
            var chain := Chain(records, {r.agentId}, r.predecessor);
            && (forall p :: p in c.counts ==> p in b.counts && c.counts[p] == b.counts[p])
            && (forall p :: p in b.counts && p !in c.counts ==> p.1 != key && On(chain, p.0))
  {
    var chain := Chain(records, {r.agentId}, r.predecessor);
    TakeAllOwn(b, chain, LineageKey(r, e));
    assert SparesOthers(b, TakeAll(b, chain, LineageKey(r, e)).0, chain, LineageKey(r, e));
  }

  /** Resolving the same failure again moves nothing. */
  lemma ResolveIsIdempotent(b: Book, records: map<string, AgentRecord>, r: AgentRecord, e: Envelope)
    ensures var (c, key) := Resolve(b, records, r, e);
            Resolve(c, records, r, e) == (c, key)
  {
    var key := LineageKey(r, e);
    if IsPackage(key) {
      var chain := Chain(records, {r.agentId}, r.predecessor);
      TakeAllOwn(b, chain, key);
      TakeNothing(Resolve(b, records, r, e).0, chain, key);
    }
  }

  // Runs.

  datatype Step =
    | Admitted(agent: string, key: string)
    | Resolved(records: map<string, AgentRecord>, record: AgentRecord, envelope: Envelope)

  function Take(b: Book, step: Step): Book {
    match step
    case Admitted(agent, key) => Count(b, agent, key)
    case Resolved(records, r, e) => Resolve(b, records, r, e).0
  }

  function Run(steps: seq<Step>): Book {
    if |steps| == 0 then NEW_BOOK else Take(Run(steps[..|steps| - 1]), steps[|steps| - 1])
  }

  function Admissions(steps: seq<Step>): nat {
    if |steps| == 0 then 0 else Admissions(steps[..|steps| - 1]) + if steps[|steps| - 1].Admitted? then 1 else 0
  }

  /** Over every run, whatever the agent records look like at each step, the recurrence
      counts sum to the number of counted admissions, and each key covers its agents. */
  lemma {:induction false} RunBalanced(steps: seq<Step>)
    ensures Balanced(Run(steps)) && Total(Run(steps).lineage) == Admissions(steps)
  {
    if |steps| == 0 {
      forall key ensures Slack(NEW_BOOK, key) >= 0 { assert Under(NEW_BOOK.counts, key) == map[]; }
    } else {
      var b := Run(steps[..|steps| - 1]);
      RunBalanced(steps[..|steps| - 1]);
      match steps[|steps| - 1] {
        case Admitted(agent, key) =>
          CountSlack(b, agent, key);
          CountTotal(b, agent, key);
          SlackOn(b, Count(b, agent, key), Count(b, agent, key));
        case Resolved(records, r, e) => ResolveConserves(b, records, r, e);
      }
    }
  }

  /** How much a step moves to a key. */
  function MovedBy(b: Book, step: Step, key: string): nat {
    match step
    case Admitted(_, _) => 0
    case Resolved(records, r, e) => if LineageKey(r, e) == key then Moved(b, records, r, e) else 0
  }

  /** How much a run has moved to a key in all. */
  function MovedInto(steps: seq<Step>, key: string): nat {
    if |steps| == 0 then 0
    else MovedInto(steps[..|steps| - 1], key) + MovedBy(Run(steps[..|steps| - 1]), steps[|steps| - 1], key)
  }

  lemma StepSlack(b: Book, step: Step, key: string)
    requires Balanced(b)
    ensures Slack(Take(b, step), key) == Slack(b, key) + MovedBy(b, step, key)
  {
    match step
    case Admitted(agent, k) =>
      CountSlack(b, agent, k);
      assert Slack(Count(b, agent, k), key) == Slack(b, key);
    case Resolved(records, r, e) => ResolveSlack(b, records, r, e, key);
  }

  /** Over every run, what no agent contributed under a key is exactly what has been moved
      there. */
  lemma {:induction false} RunSlack(steps: seq<Step>, key: string)
    ensures Slack(Run(steps), key) == MovedInto(steps, key)
  {
    if |steps| == 0 {
      assert Under(NEW_BOOK.counts, key) == map[];
    } else {
      var r := steps[..|steps| - 1];
      RunSlack(r, key);
      RunBalanced(r);
      StepSlack(Run(r), steps[|steps| - 1], key);
    }
  }

  lemma {:induction false} MovedGrows(steps: seq<Step>, n: nat, key: string)
    requires n <= |steps|
    ensures MovedInto(steps[..n], key) <= MovedInto(steps, key)
  {
    if n == |steps| {
      assert steps[..n] == steps;
    } else {
      assert steps[..|steps| - 1][..n] == steps[..n];
      MovedGrows(steps[..|steps| - 1], n, key);
    }
  }

  /** What has moved to a key by some point of a run stays under it for the rest of the run,
      whoever is admitted under it later and whatever is resolved. */
  lemma MovedCountStays(steps: seq<Step>, n: nat, key: string)
    requires n <= |steps|
    ensures Of(Run(steps).lineage, key) >= MovedInto(steps[..n], key) + Attributed(Run(steps).counts, key)
  {
    MovedGrows(steps, n, key);
    RunSlack(steps, key);
  }
}
