/** What a turn that starts does to the episodes of the gate: it is the awaited successor of
    one of them, or it takes over from all that have none in flight. */
module RootRecoveryTakeover {
  import opened Wrappers
  import opened Dicts
  import opened RootRecovery
  import opened RootRecoveryLaws
  import opened RootRecoveryRuns

  // The episode a call is about.

  predicate LiveWith(g: Gate, h: Handle, p: Episode -> bool) {
    h < |g.store| && !g.store[h].ended && p(g.store[h])
  }

  predicate NoneBefore(g: Gate, d: Dict<string, Handle>, i: nat, p: Episode -> bool)
    requires i <= |d|
  {
    forall j :: 0 <= j < i ==> !LiveWith(g, d[j].1, p)
  }

  /** The `i`-th entry of the dictionary is the first of a live episode with a property. */
  predicate FirstThat(g: Gate, i: nat, p: Episode -> bool) {
    i < |g.episodes| && LiveWith(g, g.episodes[i].1, p) && NoneBefore(g, g.episodes, i, p)
  }

  predicate NoneThat(g: Gate, p: Episode -> bool) {
    NoneBefore(g, g.episodes, |g.episodes|, p)
  }

  lemma {:induction false} FirstLiveIs(g: Gate, d: Dict<string, Handle>, p: Episode -> bool, i: nat)
    requires i <= |d| && NoneBefore(g, d, i, p) && (i < |d| ==> LiveWith(g, d[i].1, p))
    ensures FirstLive(g, d, p) == if i < |d| then Some(d[i].1) else None
    decreases i
  {
    if i > 0 {
      assert !LiveWith(g, d[0].1, p);
      forall j | 0 <= j < i - 1 ensures !LiveWith(g, d[1..][j].1, p) { assert d[1..][j] == d[j + 1]; }
      FirstLiveIs(g, d[1..], p, i - 1);
    }
  }

  /** The search over the dictionary finds the first live episode with the property. */
  lemma FindExactly(g: Gate, p: Episode -> bool)
    ensures forall i: nat :: FirstThat(g, i, p) ==> Find(g, p) == Some(g.episodes[i].1)
    ensures NoneThat(g, p) ==> Find(g, p) == None
  {
    forall i: nat | FirstThat(g, i, p) ensures Find(g, p) == Some(g.episodes[i].1) {
      FirstLiveIs(g, g.episodes, p, i);
    }
    if NoneThat(g, p) { FirstLiveIs(g, g.episodes, p, |g.episodes|); }
  }

  // Taking over.

  /** An episode of the list that has no successor in flight. */
  predicate Idle(store: seq<Episode>, d: Dict<string, Handle>, h: Handle) {
    h < |store| && !store[h].inFlight && exists i :: 0 <= i < |d| && d[i].1 == h
  }

  /** The entries of the episodes with a successor in flight. */
  function Busy(store: seq<Episode>, d: Dict<string, Handle>): Dict<string, Handle> {
    if |d| == 0 then []
    else (if d[0].1 < |store| && store[d[0].1].inFlight then [d[0]] else []) + Busy(store, d[1..])
  }

  /** The idle episodes of the list have ended, the others are as they were. */
  ghost predicate EndsIdle(s: seq<Episode>, t: seq<Episode>, d: Dict<string, Handle>) {
    |t| == |s| && forall h :: 0 <= h < |s| ==> t[h] == if Idle(s, d, h) then s[h].(ended := true) else s[h]
  }

  lemma {:induction false} BusyAlike(s: seq<Episode>, t: seq<Episode>, d: Dict<string, Handle>)
    requires |s| == |t| && forall h :: 0 <= h < |s| ==> s[h].inFlight == t[h].inFlight
    ensures Busy(s, d) == Busy(t, d)
  {
    if |d| > 0 { BusyAlike(s, t, d[1..]); }
  }

  /** Ending the episode of an entry takes that entry out, and leaves the rest in order. */
  lemma EndTakesOut(g: Gate, kept: Dict<string, Handle>, d: Dict<string, Handle>)
    requires |d| > 0 && g.episodes == kept + d && Keyed(kept + d) && AllFiled(g.store, d)
    ensures var t := End(g, d[0].1);
            t == g.(store := g.store[d[0].1 := g.store[d[0].1].(ended := true)], episodes := kept + d[1..])
  {
    var all := kept + d;
    assert all[|kept|] == d[0] && Filed(g.store, d[0].0, d[0].1);
    forall j | 0 <= j < |kept| ensures all[j].0 != d[0].0 { assert all[j].0 != all[|kept|].0; }
    IndexIs(all, d[0].0, |kept|);
    assert all[..|kept|] == kept && all[|kept| + 1..] == d[1..];
  }

  lemma RestFiled(store: seq<Episode>, kept: Dict<string, Handle>, d: Dict<string, Handle>)
    requires |d| > 0 && Keyed(kept + d) && AllFiled(store, d)
    ensures AllFiled(store[d[0].1 := store[d[0].1].(ended := true)], d[1..]) && Keyed(kept + d[1..])
    ensures forall i :: 0 < i < |d| ==> d[i].1 != d[0].1
  {
    var all, rest := kept + d, kept + d[1..];
    assert Filed(store, d[0].0, d[0].1);
    forall i | 0 < i < |d| ensures d[i].1 != d[0].1 {
      assert Filed(store, d[i].0, d[i].1);
      assert all[|kept| + i].0 != all[|kept|].0;
    }
    forall i | 0 <= i < |d| - 1 ensures Filed(store[d[0].1 := store[d[0].1].(ended := true)], d[1..][i].0, d[1..][i].1) {
      assert Filed(store, d[i + 1].0, d[i + 1].1);
    }
    forall i, j | 0 <= i < j < |rest| ensures rest[i].0 != rest[j].0 {
      var k, l := if i < |kept| then i else i + 1, if j < |kept| then j else j + 1;
      assert rest[i] == all[k] && rest[j] == all[l];
    }
  }

  lemma EndsIdleOn(s: seq<Episode>, t: seq<Episode>, d: Dict<string, Handle>)
    requires |d| > 0 && d[0].1 < |s| && (forall i :: 0 < i < |d| ==> d[i].1 != d[0].1)
    requires var h := d[0].1;
             if s[h].inFlight then EndsIdle(s, t, d[1..]) else EndsIdle(s[h := s[h].(ended := true)], t, d[1..])
    ensures EndsIdle(s, t, d)
  {
    forall h | 0 <= h < |s| ensures t[h] == if Idle(s, d, h) then s[h].(ended := true) else s[h] {
      if h == d[0].1 {
        assert d[0].1 == h;
        forall i | 0 <= i < |d| - 1 ensures d[1..][i].1 != h { assert d[1..][i] == d[i + 1]; }
      } else {
        if i :| 0 <= i < |d| && d[i].1 == h { assert d[1..][i - 1].1 == h; }
        if i :| 0 <= i < |d| - 1 && d[1..][i].1 == h { assert d[i + 1].1 == h; }
      }
    }
  }

  lemma Regroup<T>(a: seq<T>, b: seq<T>, c: seq<T>)
    ensures (a + b) + c == a + (b + c)
  {
  }

  lemma KeepsFirst(store: seq<Episode>, kept: Dict<string, Handle>, d: Dict<string, Handle>)
    requires |d| > 0 && AllFiled(store, d) && Filed(store, d[0].0, d[0].1) && store[d[0].1].inFlight
    ensures kept + [d[0]] + d[1..] == kept + d && AllFiled(store, d[1..])
    ensures kept + [d[0]] + Busy(store, d[1..]) == kept + Busy(store, d)
  {
    forall i | 0 <= i < |d| - 1 ensures Filed(store, d[1..][i].0, d[1..][i].1) { assert Filed(store, d[i + 1].0, d[i + 1].1); }
    Regroup(kept, [d[0]], d[1..]);
    assert [d[0]] + d[1..] == d;
    Regroup(kept, [d[0]], Busy(store, d[1..]));
    assert [d[0]] + Busy(store, d[1..]) == Busy(store, d);
  }

  lemma {:induction false} SupersedeTakesOver(g: Gate, kept: Dict<string, Handle>, d: Dict<string, Handle>)
    requires g.episodes == kept + d && Keyed(kept + d) && AllFiled(g.store, d)
    ensures var t := Supersede(g, d);
            EndsIdle(g.store, t.store, d) && t == g.(store := t.store, episodes := kept + Busy(g.store, d))
    decreases |d|
  {
    if |d| == 0 {
      assert kept + d == kept && kept + [] == kept;
    } else {
      var h := d[0].1;
      assert Filed(g.store, d[0].0, h);
      RestFiled(g.store, kept, d);
      if g.store[h].inFlight {
        KeepsFirst(g.store, kept, d);
        SupersedeTakesOver(g, kept + [d[0]], d[1..]);
      } else {
        var u := End(g, h);
        EndTakesOut(g, kept, d);
        SupersedeTakesOver(u, kept, d[1..]);
        BusyAlike(g.store, u.store, d[1..]);
        assert [] + Busy(g.store, d[1..]) == Busy(g.store, d[1..]);
      }
      EndsIdleOn(g.store, Supersede(g, d).store, d);
    }
  }

  /** A takeover ends every filed episode that is idle, and leaves the others filed in order. */
  lemma AllTakenOver(g: Gate)
    requires GateOk(g)
    ensures var t := Supersede(g, g.episodes);
            EndsIdle(g.store, t.store, g.episodes) && t == g.(store := t.store, episodes := Busy(g.store, g.episodes))
  {
    assert g.episodes == [] + g.episodes;
    SupersedeTakesOver(g, [], g.episodes);
    assert [] + Busy(g.store, g.episodes) == Busy(g.store, g.episodes);
  }

  // A turn that starts.

  /** A live episode has admitted the key a turn comes with. */
  function HasAdmitted(key: Option<string>): Episode -> bool {
    (e: Episode) => key.Some? && key.value in e.admitted
  }

  /** A turn that comes with no key a live episode has admitted takes over: every episode
      filed without a successor in flight ends and is filed no more, every one in flight
      stays as it was, in its place, and so does the rest of the gate. */
  lemma StartTakesOver(g: Gate, turn: string, key: Option<string>)
    requires GateOk(g) && NoneThat(g, HasAdmitted(key))
    ensures var (t, out) := StartTurn(g, turn, key);
            && out.Done? && EndsIdle(g.store, t.store, g.episodes)
            && t == g.(store := t.store, episodes := Busy(g.store, g.episodes))
  {
    if key.Some? {
      FindExactly(g, HasAdmitted(key));
      FindAlike(g, g.episodes, HasAdmitted(key), (e: Episode) => key.value in e.admitted);
    }
    AllTakenOver(g);
  }

  lemma {:induction false} FindAlike(g: Gate, d: Dict<string, Handle>, p: Episode -> bool, q: Episode -> bool)
    requires forall e :: p(e) == q(e)
    ensures FirstLive(g, d, p) == FirstLive(g, d, q)
    decreases |d|
  {
    if |d| > 0 { FindAlike(g, d[1..], p, q); }
  }

  /** A turn that comes with an admitted key is the successor of the first episode that
      admitted it, if that one still awaits it; otherwise nothing changes. */
  lemma StartLinks(g: Gate, turn: string, key: string, i: nat)
    requires FirstThat(g, i, HasAdmitted(Some(key)))
    ensures var (t, out) := StartTurn(g, turn, Some(key));
            var h, e := g.episodes[i].1, g.store[g.episodes[i].1];
            if e.awaiting then
              out == Linked(h, turn)
              && t == g.(store := g.store[h := e.(awaiting := false, successor := Some(turn), inFlight := true, links := e.links + [turn])])
            else out.Done? && t == g
  {
    FindExactly(g, HasAdmitted(Some(key)));
    FindAlike(g, g.episodes, HasAdmitted(Some(key)), (e: Episode) => key in e.admitted);
  }

  /** Once a turn has taken over, no later admission, answer or schedule concerns an episode
      that had no successor in flight. */
  lemma TakenOverIsSilent(steps: seq<Step>, n: nat, i: nat, h: Handle)
    requires n < i < |steps| && steps[n].TurnStarted?
    requires var g := Run(Take, steps[..n]).0;
             NoneThat(g, HasAdmitted(steps[n].key)) && Idle(g.store, g.episodes, h)
    ensures |Run(Take, steps).1| == |steps| && !Concerns(Run(Take, steps).1[i], h)
  {
    TakeIsLawful();
    var g := Run(Take, steps[..n]).0;
    RunTold(Take, steps[..n]);
    StartTakesOver(g, steps[n].turn, steps[n].key);
    assert steps[..n + 1][..n] == steps[..n];
    RunSnoc(Take, steps[..n + 1]);
    EndedIsSilent(Take, steps, n + 1, i, h);
  }
}
