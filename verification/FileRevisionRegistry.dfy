/** The bounded registry of last-known file revisions. What it holds is compared with
    what the whole run of accepted publications says it should hold. */
module FileRevisionRegistries {
  import opened Wrappers
  import opened Dicts

  type Revision = string

  datatype Published = Published(revision: Revision, sequence: int)

  type Revisions = Dict<string, Published>

  /** What the model does not look into: how a path is spelled, and when a revision
      matches what a worker saw. */
  datatype Rules = Rules(normalize: string -> string, matches: (Revision, string) -> bool)

  datatype Publication = Publication(key: string, revision: Revision, sequence: Option<int>)

  /** An accepted publication, with the sequence it took effect with. */
  datatype Acceptance = Acceptance(key: string, published: Published)

  // One publication.

  /** A publication behind the path's stored sequence is superseded. */
  predicate Superseded(d: Revisions, p: Publication) {
    p.sequence.Some? && Get(d, p.key).Some? && p.sequence.value < Get(d, p.key).value.sequence
  }

  function Effective(d: Revisions, p: Publication): int {
    if p.sequence.Some? then p.sequence.value
    else if Get(d, p.key).Some? then Get(d, p.key).value.sequence
    else 0
  }

  /** Move a path to the most recent place. */
  function Refresh(d: Revisions, a: Acceptance): Revisions {
    Pop(d, a.key) + [(a.key, a.published)]
  }

  function Publish(d: Revisions, max: nat, p: Publication): (Revisions, Option<Acceptance>) {
    if Superseded(d, p) then (d, None)
    else
      var a := Acceptance(p.key, Published(p.revision, Effective(d, p)));
      (Trim(Refresh(d, a), max), Some(a))
  }

  // Runs.

  /** What is done to the registry. */
  datatype Step = Publishes(publication: Publication) | Forgets(key: string) | Clears

  /** What came of it: an acceptance, or paths forgotten. */
  datatype Fact = Accepted(acceptance: Acceptance) | Forgot(key: string) | ForgotAll

  function Take(d: Revisions, max: nat, step: Step): (Revisions, seq<Fact>) {
    match step
    case Publishes(p) =>
      var (e, a) := Publish(d, max, p);
      (e, if a.Some? then [Accepted(a.value)] else [])
    case Forgets(key) => (Pop(d, key), [Forgot(key)])
    case Clears => ([], [ForgotAll])
  }

  /** The registry after a run of steps, and what came of them. */
  function Run(max: nat, steps: seq<Step>): (Revisions, seq<Fact>) {
    if |steps| == 0 then ([], [])
    else
      var (d, facts) := Run(max, steps[..|steps| - 1]);
      var (e, more) := Take(d, max, steps[|steps| - 1]);
      (e, facts + more)
  }

  /** What a registry without a bound would hold: every path accepted and not forgotten since,
      with its last acceptance, least recent first. */
  function Recents(facts: seq<Fact>): Revisions {
    if |facts| == 0 then [] else After(Recents(facts[..|facts| - 1]), facts[|facts| - 1])
  }

  function After(d: Revisions, fact: Fact): Revisions {
    match fact
    case Accepted(a) => Refresh(d, a)
    case Forgot(key) => Pop(d, key)
    case ForgotAll => []
  }

  /** The position of a path's last acceptance, or -1 if it has none or was forgotten since. */
  function LastAccepted(facts: seq<Fact>, key: string): (r: int)
    ensures -1 <= r < |facts| && (r >= 0 ==> facts[r].Accepted? && facts[r].acceptance.key == key)
    ensures r >= 0 ==> forall j :: r < j < |facts| ==> !Concerns(facts[j], key)
  {
    if |facts| == 0 then -1
    else
      var last := facts[|facts| - 1];
      if Concerns(last, key) then if last.Accepted? then |facts| - 1 else -1
      else LastAccepted(facts[..|facts| - 1], key)
  }

  /** A fact that changes what is known of a path. */
  predicate Concerns(fact: Fact, key: string) {
    match fact
    case Accepted(a) => a.key == key
    case Forgot(k) => k == key
    case ForgotAll => true
  }

  /** A pair of the list is a path's last acceptance. */
  predicate IsLast(d: Revisions, facts: seq<Fact>, i: nat)
    requires i < |d|
  {
    var n := LastAccepted(facts, d[i].0);
    n >= 0 && facts[n].acceptance.published == d[i].1
  }

  predicate Before(d: Revisions, facts: seq<Fact>, i: nat, j: nat)
    requires i < |d| && j < |d|
  {
    LastAccepted(facts, d[i].0) < LastAccepted(facts, d[j].0)
  }

  /** The list holds last acceptances, in their order. */
  predicate InOrder(d: Revisions, facts: seq<Fact>) {
    && (forall i :: 0 <= i < |d| ==> IsLast(d, facts, i))
    && (forall i, j :: 0 <= i < j < |d| ==> Before(d, facts, i, j))
  }

  lemma LastAcceptedMore(facts: seq<Fact>, fact: Fact, key: string)
    ensures LastAccepted(facts + [fact], key)
         == if !Concerns(fact, key) then LastAccepted(facts, key) else if fact.Accepted? then |facts| else -1
  {
    assert (facts + [fact])[..|facts|] == facts;
  }

  lemma RefreshKeyed(d: Revisions, a: Acceptance)
    requires Keyed(d)
    ensures Keyed(Refresh(d, a)) && forall i :: 0 <= i < |Pop(d, a.key)| ==> Pop(d, a.key)[i].0 != a.key
  {
    PopKeyed(d, a.key);
  }

  /** What is left after a pop is in order still, whatever came of the popped path. */
  lemma PopInOrder(d: Revisions, facts: seq<Fact>, fact: Fact, key: string)
    requires Keyed(d) && InOrder(d, facts) && (fact == Forgot(key) || (fact.Accepted? && fact.acceptance.key == key))
    ensures InOrder(Pop(d, key), facts + [fact])
    ensures forall i :: 0 <= i < |Pop(d, key)| ==> LastAccepted(facts + [fact], Pop(d, key)[i].0) < |facts|
  {
    var e, more := Pop(d, key), facts + [fact];
    PopKeyed(d, key);
    forall i | 0 <= i < |e| ensures IsLast(e, more, i) && LastAccepted(more, e[i].0) < |facts| {
      LastAcceptedMore(facts, fact, e[i].0);
      var k := PopFrom(d, key, i);
      assert IsLast(d, facts, k);
    }
    forall i, j | 0 <= i < j < |e| ensures Before(e, more, i, j) {
      LastAcceptedMore(facts, fact, e[i].0);
      LastAcceptedMore(facts, fact, e[j].0);
      var k := PopFrom(d, key, i);
      var l := PopFrom(d, key, j);
      assert Before(d, facts, k, l);
    }
  }

  lemma AfterInOrder(d: Revisions, facts: seq<Fact>, fact: Fact)
    requires Keyed(d) && InOrder(d, facts)
    ensures Keyed(After(d, fact)) && InOrder(After(d, fact), facts + [fact])
  {
    match fact
    case ForgotAll =>
    case Forgot(key) =>
      PopKeyed(d, key);
      PopInOrder(d, facts, fact, key);
    case Accepted(a) =>
      var rest, more := Pop(d, a.key), facts + [fact];
      RefreshKeyed(d, a);
      PopInOrder(d, facts, fact, a.key);
      LastAcceptedMore(facts, fact, a.key);
      var e := Refresh(d, a);
      forall i | 0 <= i < |e| ensures IsLast(e, more, i) {
        if i < |rest| { assert e[i] == rest[i] && IsLast(rest, more, i); }
      }
      forall i, j | 0 <= i < j < |e| ensures Before(e, more, i, j) {
        assert e[i] == rest[i];
        if j < |rest| { assert e[j] == rest[j] && Before(rest, more, i, j); }
      }
  }

  lemma RefreshGet(d: Revisions, a: Acceptance, key: string)
    requires Keyed(d)
    ensures Get(Refresh(d, a), key) == if key == a.key then Some(a.published) else Get(d, key)
  {
    RefreshKeyed(d, a);
    var rest, last := Pop(d, a.key), [(a.key, a.published)];
    PopGet(d, a.key, key);
    if IndexOf(rest, key) == |rest| { IndexLater(rest, last, key); } else { IndexEarlier(rest, last, key); }
  }

  lemma PopGet(d: Revisions, popped: string, key: string)
    requires Keyed(d)
    ensures Get(Pop(d, popped), key) == if key == popped then None else Get(d, key)
  {
    PopKeyed(d, popped);
    var e := Pop(d, popped);
    if key != popped && Get(d, key).Some? {
      var i := IndexOf(d, key);
      var j := if i < IndexOf(d, popped) then i else i - 1;
      assert e[j] == d[i];
      GetAt(e, j);
    } else if Get(e, key).Some? {
      var j := PopFrom(d, popped, IndexOf(e, key));
    }
  }

  /** The list of recents is what its name says: it holds a path exactly when it was accepted
      and not forgotten since, with the last acceptance, in the order of the last ones. */
  lemma {:induction false} RecentsInOrder(facts: seq<Fact>)
    ensures Keyed(Recents(facts)) && InOrder(Recents(facts), facts)
    ensures forall key :: LastAccepted(facts, key) >= 0 <==> Get(Recents(facts), key).Some?
  {
    if |facts| > 0 {
      var front, fact := facts[..|facts| - 1], facts[|facts| - 1];
      assert facts == front + [fact];
      RecentsInOrder(front);
      AfterInOrder(Recents(front), front, fact);
      forall key ensures LastAccepted(facts, key) >= 0 <==> Get(Recents(facts), key).Some? {
        LastAcceptedMore(front, fact, key);
        match fact
        case Accepted(a) => RefreshGet(Recents(front), a, key);
        case Forgot(k) => PopGet(Recents(front), k, key);
        case ForgotAll =>
      }
    }
  }

  // The bound.

  /** The registry is the newest part of the list of recents. */
  predicate Newest(d: Revisions, all: Revisions) {
    |d| <= |all| && d == all[|all| - |d|..]
  }

  lemma PopNewest(d: Revisions, all: Revisions, key: string)
    requires Newest(d, all) && Keyed(all)
    ensures Newest(Pop(d, key), Pop(all, key))
  {
    var older := all[..|all| - |d|];
    assert all == older + d;
    PopParts(older, d, key);
  }

  lemma TrimNewest(d: Revisions, all: Revisions, n: nat)
    requires Newest(d, all)
    ensures Newest(Trim(d, n), all)
  {
  }

  lemma RefreshNewest(d: Revisions, all: Revisions, a: Acceptance)
    requires Newest(d, all) && Keyed(all)
    ensures Newest(Refresh(d, a), Refresh(all, a))
  {
    PopNewest(d, all, a.key);
  }

  lemma Keyless(older: Revisions, d: Revisions)
    requires Keyed(older + d)
    ensures Keyed(d)
  {
    assert forall i :: 0 <= i < |d| ==> d[i] == (older + d)[|older| + i];
  }

  predicate NeverForgets(steps: seq<Step>) {
    forall i :: 0 <= i < |steps| ==> !steps[i].Forgets?
  }

  /** As many as fit. */
  function Fitting(n: nat, max: nat): nat {
    if n <= max then n else max
  }

  lemma RefreshSize(d: Revisions, all: Revisions, a: Acceptance, max: nat)
    requires Newest(d, all) && Keyed(all) && |d| == Fitting(|all|, max)
    ensures |Trim(Refresh(d, a), max)| == Fitting(|Refresh(all, a)|, max)
  {
    RefreshNewest(d, all, a);
    if |all| <= max { assert all[0..] == all; }
  }

  /** For every run the registry holds the last accepted revisions of the most recently accepted
      paths that were not forgotten since; and unless a single path was ever forgotten, as many
      of them as fit. */
  lemma {:induction false} RegistryIsRecent(max: nat, steps: seq<Step>)
    requires max > 0
    ensures var (d, facts) := Run(max, steps);
            && Newest(d, Recents(facts)) && |d| <= max
            && (NeverForgets(steps) ==> |d| == Fitting(|Recents(facts)|, max))
  {
    if |steps| > 0 {
      var r, step := steps[..|steps| - 1], steps[|steps| - 1];
      RegistryIsRecent(max, r);
      var (d, facts) := Run(max, r);
      RecentsInOrder(facts);
      assert NeverForgets(steps) ==> NeverForgets(r) && !step.Forgets?;
      StepIsRecent(d, facts, max, step);
    }
  }

  lemma StepIsRecent(d: Revisions, facts: seq<Fact>, max: nat, step: Step)
    requires max > 0 && Newest(d, Recents(facts)) && |d| <= max && Keyed(Recents(facts))
    ensures var (e, more) := Take(d, max, step);
            && Newest(e, Recents(facts + more)) && |e| <= max
            && (!step.Forgets? && |d| == Fitting(|Recents(facts)|, max) ==> |e| == Fitting(|Recents(facts + more)|, max))
  {
    var all := Recents(facts);
    var (e, more) := Take(d, max, step);
    if |more| == 1 { assert (facts + more)[..|facts|] == facts && Recents(facts + more) == After(all, more[0]); }
    match step {
      case Publishes(p) =>
        if |more| == 0 {
          assert facts + more == facts;
        } else {
          var a := more[0].acceptance;
          RefreshNewest(d, all, a);
          TrimNewest(Refresh(d, a), Refresh(all, a), max);
          if |d| == Fitting(|all|, max) { RefreshSize(d, all, a, max); }
        }
      case Forgets(key) => PopNewest(d, all, key);
      case Clears =>
    }
  }

  // What one publication does.

  lemma TrimGet(d: Revisions, n: nat, key: string)
    requires Keyed(d)
    ensures Get(Trim(d, n), key).Some? ==> Get(Trim(d, n), key) == Get(d, key)
    ensures n > 0 && |d| > 0 && d[|d| - 1].0 == key ==> Get(Trim(d, n), key) == Some(d[|d| - 1].1)
  {
    var t := Trim(d, n);
    TrimKeyed(d, n);
    if Get(t, key).Some? {
      var i := IndexOf(t, key);
      assert t[i] == d[|d| - |t| + i];
      GetAt(d, |d| - |t| + i);
    }
    if n > 0 && |d| > 0 {
      assert t[|t| - 1] == d[|d| - 1];
      GetAt(t, |t| - 1);
    }
  }

  /** Whether a publication is in time: it has no number of its own, or nothing is held of its
      path, or its number is not below the one held. */
  predicate InTime(held: Option<Published>, sequence: Option<int>) {
    held.None? || sequence.None? || sequence.value >= held.value.sequence
  }

  /** The number an accepted publication takes effect with: its own, or else the one held, or
      else zero. */
  predicate TakesNumber(held: Option<Published>, sequence: Option<int>, n: int) {
    if sequence.None? then n == (if held.None? then 0 else held.value.sequence) else n == sequence.value
  }

  /** A publication is accepted exactly when it is in time; any other changes nothing. An
      accepted one is there afterwards, for no path still held does the sequence fall, and no
      other path's revision changes. */
  lemma PublishLaw(d: Revisions, max: nat, p: Publication)
    requires Keyed(d) && max > 0
    ensures var (e, a) := Publish(d, max, p);
            && Keyed(e)
            && (a.Some? <==> InTime(Get(d, p.key), p.sequence))
            && (a.None? ==> e == d)
            && (a.Some? ==> Get(e, p.key) == Some(a.value.published) && |e| <= max
                            && a.value.published.revision == p.revision && TakesNumber(Get(d, p.key), p.sequence, a.value.published.sequence))
            && (forall k :: Get(d, k).Some? && Get(e, k).Some? ==>
                  Get(e, k).value.sequence >= Get(d, k).value.sequence && (k != p.key ==> Get(e, k) == Get(d, k)))
            && (forall k :: Get(e, k).Some? ==> k == p.key || Get(d, k).Some?)
  {
    var (e, a) := Publish(d, max, p);
    if a.Some? {
      var r := Refresh(d, a.value);
      RefreshKeyed(d, a.value);
      TrimKeyed(r, max);
      TrimGet(r, max, p.key);
      forall k | Get(e, k).Some? ensures Get(e, k) == if k == p.key then Some(a.value.published) else Get(d, k) {
        TrimGet(r, max, k);
        RefreshGet(d, a.value, k);
      }
    }
  }

  // The registry object.

  class FileRevisionRegistry {
    const maxEntries: nat
    const rules: Rules
    var revisions: Revisions
    ghost var steps: seq<Step>
    ghost var facts: seq<Fact>

    /** The registry is what its steps so far make of an empty one. */
    ghost predicate Valid()
      reads this
    {
      maxEntries > 0 && (revisions, facts) == Run(maxEntries, steps)
    }

    /** What it holds then: the newest of what was accepted and not forgotten, no more than fit,
        and no fewer unless a path was ever forgotten. */
    ghost predicate Recent()
      reads this
    {
      && Keyed(revisions) && |revisions| <= maxEntries && Newest(revisions, Recents(facts))
      && (NeverForgets(steps) ==> |revisions| == Fitting(|Recents(facts)|, maxEntries))
    }

    constructor (rules: Rules, maxEntries: nat)
      requires maxEntries > 0
      ensures Valid() && this.rules == rules && this.maxEntries == maxEntries && revisions == [] && steps == []
    {
      this.rules := rules;
      this.maxEntries := maxEntries;
      revisions, steps, facts := [], [], [];
    }

    /** The bound must be positive. */
    static method Create(rules: Rules, maxEntries: int) returns (r: Option<FileRevisionRegistry>)
      ensures r.Some? <==> maxEntries >= 1
      ensures r.Some? ==> fresh(r.value) && r.value.Valid() && r.value.maxEntries == maxEntries && r.value.revisions == []
    {
      if maxEntries < 1 { return None; }
      var registry := new FileRevisionRegistry(rules, maxEntries);
      return Some(registry);
    }

    /** A reached registry is recent. */
    lemma IsRecent()
      requires Valid()
      ensures Recent()
    {
      RegistryIsRecent(maxEntries, steps);
      RecentsInOrder(facts);
      var all := Recents(facts);
      assert all == all[..|all| - |revisions|] + revisions;
      Keyless(all[..|all| - |revisions|], revisions);
    }

    ghost method Note(step: Step)
      requires maxEntries > 0 && revisions == Take(Run(maxEntries, steps).0, maxEntries, step).0 && facts == Run(maxEntries, steps).1
      modifies this`steps, this`facts
      ensures Valid() && Recent() && steps == old(steps) + [step]
    {
      ghost var (d, before) := Run(maxEntries, steps);
      facts := facts + Take(d, maxEntries, step).1;
      steps := steps + [step];
      assert steps[..|steps| - 1] == old(steps);
      IsRecent();
    }

    method PublishRevision(path: string, revision: Revision, sequence: Option<int>) returns (accepted: Option<Acceptance>)
      requires Valid()
      modifies this
      ensures Valid() && Recent() && steps == old(steps) + [Publishes(Publication(rules.normalize(path), revision, sequence))]
      ensures (revisions, accepted) == Publish(old(revisions), maxEntries, Publication(rules.normalize(path), revision, sequence))
      ensures if accepted.Some? then KnownRevision(path) == Some(revision) else revisions == old(revisions)
    {
      var key := rules.normalize(path);
      IsRecent();
      PublishLaw(revisions, maxEntries, Publication(key, revision, sequence));
      ghost var p := Publication(key, revision, sequence);
      accepted := Store(key, revision, sequence);
      Note(Publishes(p));
    }

    method Store(key: string, revision: Revision, sequence: Option<int>) returns (accepted: Option<Acceptance>)
      modifies this`revisions
      ensures (revisions, accepted) == Publish(old(revisions), maxEntries, Publication(key, revision, sequence))
    {
      ghost var p := Publication(key, revision, sequence);
      var stored := Get(revisions, key);
      if sequence.Some? && stored.Some? && sequence.value < stored.value.sequence { return None; }
      var effective := if sequence.Some? then sequence.value else if stored.Some? then stored.value.sequence else 0;
      var published := Published(revision, effective);
      revisions := Pop(revisions, key) + [(key, published)];
      while |revisions| > maxEntries
        invariant Trim(revisions, maxEntries) == Publish(old(revisions), maxEntries, p).0
      {
        revisions := revisions[1..];
      }
      return Some(Acceptance(key, published));
    }

    function KnownRevision(path: string): Option<Revision>
      reads this
    {
      match Get(revisions, rules.normalize(path))
      case None => None
      case Some(p) => Some(p.revision)
    }

    /** A bump is only reported of a path that is held, to a worker with a baseline that
        does not match; and then with the revision held. */
    method ExternalBump(path: string, lastSeen: Option<string>) returns (bump: Option<Revision>)
      ensures bump.Some? <==> KnownRevision(path).Some? && lastSeen.Some? && !rules.matches(KnownRevision(path).value, lastSeen.value)
      ensures bump.Some? ==> bump == KnownRevision(path) && IndexOf(revisions, rules.normalize(path)) < |revisions|
    {
      var current := KnownRevision(path);
      if current.None? || lastSeen.None? || rules.matches(current.value, lastSeen.value) { return None; }
      return current;
    }

    method Forget(path: string)
      requires Valid()
      modifies this
      ensures Valid() && Recent() && steps == old(steps) + [Forgets(rules.normalize(path))]
      ensures revisions == Pop(old(revisions), rules.normalize(path)) && KnownRevision(path) == None
    {
      var key := rules.normalize(path);
      IsRecent();
      PopGet(revisions, key, key);
      revisions := Pop(revisions, key);
      Note(Forgets(key));
    }

    method Clear()
      requires Valid()
      modifies this
      ensures Valid() && Recent() && revisions == [] && steps == old(steps) + [Clears]
    {
      revisions := [];
      Note(Clears);
    }
  }
}
