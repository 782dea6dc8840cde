/** Which session each session descends from, over a parent relation that may have
    missing parents and cycles. */
module SessionRoots {
  import opened Wrappers

  type Parents = map<string, Option<string>>

  /** The parent of a session, if it is listed itself. */
  function Parent(ps: Parents, s: string): Option<string> {
    if s in ps && ps[s].Some? && ps[s].value in ps then ps[s] else None
  }

  /** The ancestor `n` steps up, if the chain goes that far. */
  function Up(ps: Parents, s: string, n: nat): Option<string> {
    if n == 0 then Some(s)
    else
      match Up(ps, s, n - 1)
      case None => None
      case Some(c) => Parent(ps, c)
  }

  /** The chain from `s` ends, at its topmost listed ancestor `t`. */
  ghost predicate EndsAt(ps: Parents, s: string, t: string) {
    exists n: nat :: Up(ps, s, n) == Some(t) && Parent(ps, t) == None
  }

  /** The chain from `s` goes on for ever: it enters a cycle. */
  ghost predicate Endless(ps: Parents, s: string) {
    forall n: nat :: Up(ps, s, n).Some?
  }

  /** The root of a session: the end of its chain, or itself where there is no end. */
  ghost predicate IsRoot(ps: Parents, s: string, r: string) {
    EndsAt(ps, s, r) || (Endless(ps, s) && r == s)
  }

  lemma {:induction false} UpFurther(ps: Parents, s: string, n: nat, c: string, m: nat)
    requires Up(ps, s, n) == Some(c)
    ensures Up(ps, s, n + m) == Up(ps, c, m)
  {
    if m > 0 { UpFurther(ps, s, n, c, m - 1); }
  }

  lemma {:induction false} UpEarlier(ps: Parents, s: string, n: nat, m: nat)
    requires m <= n && Up(ps, s, n).Some?
    ensures Up(ps, s, m).Some?
  {
    if m < n { UpEarlier(ps, s, n - 1, m); }
  }

  /** An ancestor met twice is met for ever. */
  lemma {:induction false} Repeats(ps: Parents, s: string, i: nat, j: nat, n: nat)
    requires i < j && Up(ps, s, j).Some? && Up(ps, s, i) == Up(ps, s, j)
    ensures Up(ps, s, n).Some?
    decreases n
  {
    if n <= j {
      UpEarlier(ps, s, j, n);
    } else {
      var c := Up(ps, s, j).value;
      UpFurther(ps, s, j, c, n - j);
      UpFurther(ps, s, i, c, n - j);
      Repeats(ps, s, i, j, i + (n - j));
    }
  }

  lemma EndsNotEndless(ps: Parents, s: string, t: string)
    requires EndsAt(ps, s, t)
    ensures !Endless(ps, s)
  {
    var n: nat :| Up(ps, s, n) == Some(t) && Parent(ps, t) == None;
    assert Up(ps, s, n + 1) == None;
  }

  /** A session has one root only. */
  lemma RootUnique(ps: Parents, s: string, r: string, t: string)
    requires IsRoot(ps, s, r) && IsRoot(ps, s, t)
    ensures r == t
  {
    if EndsAt(ps, s, r) {
      var n: nat :| Up(ps, s, n) == Some(r) && Parent(ps, r) == None;
      assert Up(ps, s, n + 1) == None;
      var m: nat :| Up(ps, s, m) == Some(t) && Parent(ps, t) == None;
      assert Up(ps, s, m + 1) == None;
      if n < m { UpEarlier(ps, s, m, n + 1); } else if m < n { UpEarlier(ps, s, n, m + 1); }
    } else if EndsAt(ps, s, t) {
      EndsNotEndless(ps, s, t);
    }
  }

  /** A root is its own root. */
  lemma RootOfRoot(ps: Parents, s: string, r: string)
    requires IsRoot(ps, s, r)
    ensures IsRoot(ps, r, r)
  {
    if EndsAt(ps, s, r) { assert Up(ps, r, 0) == Some(r); }
  }

  /** Sessions whose chain ends share the root of their parent; on a cycle each is its own. */
  lemma RootOfParent(ps: Parents, s: string, p: string, r: string)
    requires Parent(ps, s) == Some(p) && EndsAt(ps, p, r)
    ensures IsRoot(ps, s, r)
  {
    var n: nat :| Up(ps, p, n) == Some(r) && Parent(ps, r) == None;
    assert Up(ps, s, 1) == Some(p) by { assert Up(ps, s, 0) == Some(s); }
    UpFurther(ps, s, 1, p, n);
    assert Up(ps, s, 1 + n) == Some(r);
  }

  // Roots in terms of the listing.

  /** A listed session's parent, listed as well. */
  predicate ListedParent(ps: Parents, c: string, p: string) {
    c in ps && ps[c] == Some(p) && p in ps
  }

  /** A way up from `s`, from parent to parent. */
  predicate Ascends(ps: Parents, s: string, path: seq<string>) {
    |path| > 0 && path[0] == s && forall i :: 0 <= i < |path| - 1 ==> ListedParent(ps, path[i], path[i + 1])
  }

  ghost predicate Topmost(ps: Parents, c: string) {
    forall p :: !ListedParent(ps, c, p)
  }

  /** The topmost session on the way up from `s`; or `s` itself, where no way up ever ends. */
  ghost predicate TopOf(ps: Parents, s: string, r: string) {
    || (exists path :: Ascends(ps, s, path) && path[|path| - 1] == r && Topmost(ps, r))
    || (r == s && forall path :: Ascends(ps, s, path) ==> !Topmost(ps, path[|path| - 1]))
  }

  lemma ParentExactly(ps: Parents, c: string)
    ensures forall p :: Parent(ps, c) == Some(p) <==> ListedParent(ps, c, p)
    ensures Parent(ps, c) == None <==> Topmost(ps, c)
  {
    if Parent(ps, c).Some? { assert ListedParent(ps, c, Parent(ps, c).value); }
  }

  lemma {:induction false} UpPath(ps: Parents, s: string, n: nat) returns (path: seq<string>)
    requires Up(ps, s, n).Some?
    ensures |path| == n + 1 && Ascends(ps, s, path) && Some(path[n]) == Up(ps, s, n)
  {
    if n == 0 {
      path := [s];
    } else {
      path := UpPath(ps, s, n - 1);
      ParentExactly(ps, path[n - 1]);
      path := path + [Up(ps, s, n).value];
    }
  }

  lemma {:induction false} PathUp(ps: Parents, s: string, path: seq<string>, n: nat)
    requires Ascends(ps, s, path) && n < |path|
    ensures Up(ps, s, n) == Some(path[n])
  {
    if n > 0 {
      PathUp(ps, s, path, n - 1);
      ParentExactly(ps, path[n - 1]);
      assert ListedParent(ps, path[n - 1], path[n]);
    }
  }

  lemma EndsExactly(ps: Parents, s: string, t: string)
    ensures EndsAt(ps, s, t) <==> exists path :: Ascends(ps, s, path) && path[|path| - 1] == t && Topmost(ps, t)
  {
    ParentExactly(ps, t);
    if EndsAt(ps, s, t) {
      var n: nat :| Up(ps, s, n) == Some(t) && Parent(ps, t) == None;
      var path := UpPath(ps, s, n);
    }
    if path :| Ascends(ps, s, path) && path[|path| - 1] == t && Topmost(ps, t) { PathUp(ps, s, path, |path| - 1); }
  }

  lemma {:induction false} StopsSomewhere(ps: Parents, s: string, n: nat)
    requires Up(ps, s, n) == None
    ensures exists t :: EndsAt(ps, s, t)
  {
    if Up(ps, s, n - 1) == None {
      StopsSomewhere(ps, s, n - 1);
    } else {
      assert EndsAt(ps, s, Up(ps, s, n - 1).value);
    }
  }

  /** The root of a session is the topmost of the ways up from it. */
  lemma RootExactly(ps: Parents, s: string, r: string)
    ensures IsRoot(ps, s, r) <==> TopOf(ps, s, r)
  {
    EndsExactly(ps, s, r);
    if Endless(ps, s) {
      forall path | Ascends(ps, s, path) ensures !Topmost(ps, path[|path| - 1]) {
        EndsExactly(ps, s, path[|path| - 1]);
        if Topmost(ps, path[|path| - 1]) { EndsNotEndless(ps, s, path[|path| - 1]); }
      }
    }
    if r == s && forall path :: Ascends(ps, s, path) ==> !Topmost(ps, path[|path| - 1]) {
      if !Endless(ps, s) {
        var n: nat :| Up(ps, s, n).None?;
        StopsSomewhere(ps, s, n);
        var t :| EndsAt(ps, s, t);
        EndsExactly(ps, s, t);
      }
    }
  }

  /** The sessions met on the first `n` steps up. */
  ghost predicate Seen(ps: Parents, s: string, n: nat, seen: set<string>) {
    && (forall c :: c in seen ==> exists i: nat :: i < n && Up(ps, s, i) == Some(c))
    && seen <= ps.Keys
  }

  method RootOf(ps: Parents, s: string) returns (r: string)
    requires s in ps
    ensures IsRoot(ps, s, r) && TopOf(ps, s, r)
  {
    r := WalkUp(ps, s);
    RootExactly(ps, s, r);
  }

  method WalkUp(ps: Parents, s: string) returns (r: string)
    requires s in ps
    ensures IsRoot(ps, s, r)
  {
    var seen: set<string> := {};
    var current := s;
    ghost var n: nat := 0;
    while Parent(ps, current).Some?
      invariant current in ps && Up(ps, s, n) == Some(current)
      invariant Seen(ps, s, n, seen)
      invariant current in seen ==> Parent(ps, current) == Some(current)
      decreases ps.Keys - seen
    {
      var parent := Parent(ps, current).value;
      assert Up(ps, s, n + 1) == Some(parent);
      if parent in seen {
        ghost var i: nat :| i < n && Up(ps, s, i) == Some(parent);
        forall m: nat ensures Up(ps, s, m).Some? { Repeats(ps, s, i, n + 1, m); }
        return s;
      }
      assert current in ps.Keys - seen;
      seen := seen + {current};
      current := parent;
      n := n + 1;
    }
    return current;
  }

  /** What a session index says of one session. */
  datatype Listing = Listing(id: string, parent: Option<string>)

  /** The parents of the listed sessions; the last entry of an id counts. */
  function ParentsOf(ss: seq<Listing>): Parents {
    if |ss| == 0 then map[] else ParentsOf(ss[..|ss| - 1])[ss[|ss| - 1].id := ss[|ss| - 1].parent]
  }

  lemma {:induction false} ParentsListed(ss: seq<Listing>, id: string)
    ensures id in ParentsOf(ss) <==> exists i :: 0 <= i < |ss| && ss[i].id == id
  {
    if |ss| > 0 {
      var front := ss[..|ss| - 1];
      ParentsListed(front, id);
      if i :| 0 <= i < |front| && front[i].id == id { assert ss[i].id == id; }
      if i :| 0 <= i < |ss| && ss[i].id == id && i < |front| { assert front[i].id == id; }
    }
  }

  /** A listed id leads to the parent of its last listing. */
  lemma {:induction false} ParentsLast(ss: seq<Listing>, i: nat)
    requires i < |ss| && forall j :: i < j < |ss| ==> ss[j].id != ss[i].id
    ensures ss[i].id in ParentsOf(ss) && ParentsOf(ss)[ss[i].id] == ss[i].parent
  {
    if i < |ss| - 1 {
      var front := ss[..|ss| - 1];
      assert forall j :: 0 <= j < |front| ==> front[j] == ss[j];
      ParentsLast(front, i);
    }
  }

  /** Every listed session gets its root. */
  method RootsOf(ss: seq<Listing>) returns (roots: map<string, string>)
    ensures roots.Keys == ParentsOf(ss).Keys
    ensures forall s :: s in roots ==> TopOf(ParentsOf(ss), s, roots[s])
  {
    var ps: Parents := map[];
    for i := 0 to |ss|
      invariant ps == ParentsOf(ss[..i])
    {
      assert ss[..i + 1][..i] == ss[..i];
      ps := ps[ss[i].id := ss[i].parent];
    }
    assert ss[..|ss|] == ss;
    roots := map[];
    var todo := ps.Keys;
    while todo != {}
      invariant todo <= ps.Keys && roots.Keys == ps.Keys - todo
      invariant forall s :: s in roots ==> TopOf(ps, s, roots[s])
      decreases todo
    {
      var s :| s in todo;
      var r := RootOf(ps, s);
      roots := roots[s := r];
      todo := todo - {s};
    }
  }
}
