/** Python dictionaries whose insertion order matters, as lists of pairs. */
module Dicts {
  import opened Wrappers

  type Dict<K, V> = seq<(K, V)>

  /** The position of a key, or the length where it is absent. */
  function IndexOf<K(==), V>(d: Dict<K, V>, k: K): (i: nat)
    ensures i <= |d| && (i < |d| ==> d[i].0 == k)
    ensures forall j :: 0 <= j < i ==> d[j].0 != k
  {
    if |d| == 0 || d[0].0 == k then 0
    else
      var i := IndexOf(d[1..], k);
      assert forall j :: 0 < j < i + 1 ==> d[j] == d[1..][j - 1];
      i + 1
  }

  function Get<K(==), V>(d: Dict<K, V>, k: K): Option<V> {
    var i := IndexOf(d, k);
    if i < |d| then Some(d[i].1) else None
  }

  /** Assignment: an existing key keeps its place. */
  function Put<K(==), V>(d: Dict<K, V>, k: K, v: V): Dict<K, V> {
    var i := IndexOf(d, k);
    if i < |d| then d[i := (k, v)] else d + [(k, v)]
  }

  function Pop<K(==), V>(d: Dict<K, V>, k: K): Dict<K, V> {
    RemoveAt(d, IndexOf(d, k))
  }

  function RemoveAt<K, V>(d: Dict<K, V>, i: nat): Dict<K, V> {
    if i < |d| then d[..i] + d[i + 1..] else d
  }

  /** Popping the oldest keys until no more than `n` are left. */
  function Trim<K, V>(d: Dict<K, V>, n: nat): (r: Dict<K, V>)
    ensures |r| <= n && |r| <= |d|
  {
    if |d| <= n then d else d[|d| - n..]
  }

  /** No key twice. */
  predicate Keyed<K(==), V>(d: Dict<K, V>) {
    forall i, j :: 0 <= i < j < |d| ==> d[i].0 != d[j].0
  }

  /** Every pair satisfies `p`. */
  ghost predicate Every<K, V>(d: Dict<K, V>, p: (K, V) -> bool) {
    forall i :: 0 <= i < |d| ==> p(d[i].0, d[i].1)
  }

  lemma PutEvery<K, V>(d: Dict<K, V>, k: K, v: V, p: (K, V) -> bool)
    requires Every(d, p) && p(k, v)
    ensures Every(Put(d, k, v), p)
    ensures Keyed(d) ==> Keyed(Put(d, k, v))
  {
  }

  lemma TrimEvery<K, V>(d: Dict<K, V>, n: nat, p: (K, V) -> bool)
    requires Every(d, p)
    ensures Every(Trim(d, n), p)
  {
  }

  // Where keys and pairs are.

  lemma IndexIs<K, V>(d: Dict<K, V>, k: K, i: nat)
    requires i <= |d| && (forall j :: 0 <= j < i ==> d[j].0 != k) && (i < |d| ==> d[i].0 == k)
    ensures IndexOf(d, k) == i
  {
  }

  lemma GetAt<K, V>(d: Dict<K, V>, i: nat)
    requires Keyed(d) && i < |d|
    ensures Get(d, d[i].0) == Some(d[i].1)
  {
  }

  /** Assignment sets the value of its key and of no other, and moves no key. */
  lemma PutAt<K, V>(d: Dict<K, V>, k: K, v: V, other: K)
    ensures Get(Put(d, k, v), other) == if other == k then Some(v) else Get(d, other)
    ensures IndexOf(d, other) < |d| ==> IndexOf(Put(d, k, v), other) == IndexOf(d, other)
  {
    var e, i := Put(d, k, v), IndexOf(d, other);
    if i < |d| {
      IndexIs(e, other, i);
    } else if other == k {
      IndexIs(e, k, |d|);
    } else {
      IndexIs(e, other, |e|);
    }
  }

  lemma PopKeyed<K, V>(d: Dict<K, V>, k: K)
    requires Keyed(d)
    ensures Keyed(Pop(d, k)) && |Pop(d, k)| <= |d|
    ensures forall i :: 0 <= i < |Pop(d, k)| ==> Pop(d, k)[i].0 != k
  {
  }

  lemma TrimKeyed<K, V>(d: Dict<K, V>, n: nat)
    requires Keyed(d)
    ensures Keyed(Trim(d, n))
  {
  }

  /** Where a pair comes from that a pop has left. */
  lemma PopFrom<K, V>(d: Dict<K, V>, k: K, i: nat) returns (j: nat)
    requires i < |Pop(d, k)|
    ensures i <= j < |d| && Pop(d, k)[i] == d[j] && j == (if i < IndexOf(d, k) then i else i + 1)
  {
    j := if i < IndexOf(d, k) then i else i + 1;
  }

  lemma IndexLater<K, V>(x: Dict<K, V>, y: Dict<K, V>, k: K)
    requires IndexOf(x, k) == |x|
    ensures IndexOf(x + y, k) == |x| + IndexOf(y, k)
  {
    var i := IndexOf(y, k);
    forall j | 0 <= j < |x| + i ensures (x + y)[j].0 != k {
      if j < |x| { assert (x + y)[j] == x[j]; } else { assert (x + y)[j] == y[j - |x|]; }
    }
    IndexIs(x + y, k, |x| + i);
  }

  lemma IndexEarlier<K, V>(x: Dict<K, V>, y: Dict<K, V>, k: K)
    requires IndexOf(x, k) < |x|
    ensures IndexOf(x + y, k) == IndexOf(x, k)
  {
    var i := IndexOf(x, k);
    forall j | 0 <= j < i ensures (x + y)[j].0 != k { assert (x + y)[j] == x[j]; }
    IndexIs(x + y, k, i);
  }

  lemma RemoveLater<K, V>(x: Dict<K, V>, y: Dict<K, V>, i: nat)
    requires i <= |y|
    ensures RemoveAt(x + y, |x| + i) == x + RemoveAt(y, i)
  {
    var d := x + y;
    if i < |y| {
      assert d[..|x| + i] == x + y[..i];
      assert d[|x| + i + 1..] == y[i + 1..];
    }
  }

  lemma RemoveEarlier<K, V>(x: Dict<K, V>, y: Dict<K, V>, i: nat)
    requires i < |x|
    ensures RemoveAt(x + y, i) == RemoveAt(x, i) + y
  {
    var d, front, back := x + y, x[..i], x[i + 1..];
    assert d[..i] == front;
    assert d[i + 1..] == back + y;
    assert front + (back + y) == (front + back) + y;
  }

  /** A key of the first part is not in the second. */
  lemma OnceOnly<K, V>(x: Dict<K, V>, y: Dict<K, V>, k: K)
    requires Keyed(x + y) && IndexOf(x, k) < |x|
    ensures IndexOf(y, k) == |y|
  {
    var d, i := x + y, IndexOf(x, k);
    forall m | 0 <= m < |y| ensures y[m].0 != k {
      assert d[|x| + m] == y[m] && d[i] == x[i] && d[i].0 != d[|x| + m].0;
    }
  }

  /** Popping a key from a dictionary in two parts pops it from its own. */
  lemma PopParts<K, V>(x: Dict<K, V>, y: Dict<K, V>, k: K)
    requires Keyed(x + y)
    ensures Pop(x + y, k) == Pop(x, k) + Pop(y, k)
  {
    if IndexOf(x, k) == |x| {
      IndexLater(x, y, k);
      RemoveLater(x, y, IndexOf(y, k));
    } else {
      OnceOnly(x, y, k);
      IndexEarlier(x, y, k);
      RemoveEarlier(x, y, IndexOf(x, k));
    }
  }
}
