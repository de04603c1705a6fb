/** Python dictionaries with string keys, kept in insertion order as a
    sequence of key/value pairs. */
module Dicts {
  import opened Wrappers

  type Dict<V> = seq<(string, V)>

  function Keys<V>(d: Dict<V>): (r: seq<string>)
    ensures |r| == |d|
    ensures forall i | 0 <= i < |d| :: r[i] == d[i].0
  {
    seq(|d|, i requires 0 <= i < |d| => d[i].0)
  }

  predicate HasKey<V>(d: Dict<V>, k: string) {
    exists i | 0 <= i < |d| :: d[i].0 == k
  }

  /** No key is stored twice, as in every Python dictionary. */
  predicate UniqueKeys<V>(d: Dict<V>) {
    forall i, j | 0 <= i < j < |d| :: d[i].0 != d[j].0
  }

  /** The position of the first pair with key k, or |d| when there is none. */
  function IndexOf<V>(d: Dict<V>, k: string): (r: nat)
    ensures r <= |d|
    ensures r < |d| ==> d[r].0 == k
    ensures forall j | 0 <= j < r :: d[j].0 != k
  {
    if |d| == 0 then 0
    else if d[0].0 == k then 0
    else
      var r := IndexOf(d[1..], k);
      assert forall j | 1 <= j < r + 1 :: d[j] == d[1..][j - 1];
      r + 1
  }

  /** `d.get(k)` */
  function Get<V>(d: Dict<V>, k: string): (r: Option<V>)
    ensures r.None? <==> !HasKey(d, k)
    ensures r.Some? ==> exists i | 0 <= i < |d| :: d[i] == (k, r.value)
  {
    var i := IndexOf(d, k);
    if i < |d| then Some(d[i].1) else None
  }

  /** `d[k] = v`: an existing key keeps its place and takes the new value;
      a new key goes at the end. */
  function Set<V>(d: Dict<V>, k: string, v: V): Dict<V> {
    var i := IndexOf(d, k);
    if i < |d| then d[i := (k, v)] else d + [(k, v)]
  }

  /** The first position holding k is the only one `IndexOf` can return. */
  lemma IndexOfIs<V>(d: Dict<V>, k: string, i: nat)
    requires i <= |d| && (i < |d| ==> d[i].0 == k)
    requires forall j | 0 <= j < i :: d[j].0 != k
    ensures IndexOf(d, k) == i
  {
  }

  /** In a dictionary with unique keys, the pair at position i is what
      `get` finds for its key. */
  lemma GetAt<V>(d: Dict<V>, i: nat)
    requires UniqueKeys(d) && i < |d|
    ensures Get(d, d[i].0) == Some(d[i].1)
  {
    assert IndexOf(d, d[i].0) == i;
  }

  /** After `d[k] = v` the key maps to v and every other key keeps its value. */
  lemma SetGet<V>(d: Dict<V>, k: string, v: V)
    ensures Get(Set(d, k, v), k) == Some(v)
    ensures forall k' | k' != k :: Get(Set(d, k, v), k') == Get(d, k')
  {
    var i := IndexOf(d, k);
    var r := Set(d, k, v);
    IndexOfIs(r, k, i);
    forall k' | k' != k ensures Get(r, k') == Get(d, k') {
      var j := IndexOf(d, k');
      assert forall m | 0 <= m < |d| && m != i :: r[m] == d[m];
      if j < |d| {
        IndexOfIs(r, k', j);
      } else {
        IndexOfIs(r, k', |r|);
      }
    }
  }

  /** An existing key keeps its place; a new key is appended; keys stay
      unique. */
  lemma SetKeys<V>(d: Dict<V>, k: string, v: V)
    requires UniqueKeys(d)
    ensures HasKey(d, k) ==> Keys(Set(d, k, v)) == Keys(d)
    ensures !HasKey(d, k) ==> Set(d, k, v) == d + [(k, v)]
    ensures UniqueKeys(Set(d, k, v))
  {
    var i := IndexOf(d, k);
    if i == |d| {
      assert !HasKey(d, k);
    }
  }

  /** Looking a key up in two dictionaries laid end to end: the first one
      wins. */
  lemma GetAppend<V>(a: Dict<V>, b: Dict<V>, k: string)
    ensures Get(a + b, k) == if HasKey(a, k) then Get(a, k) else Get(b, k)
  {
    var ab := a + b;
    assert forall j | 0 <= j < |a| :: ab[j] == a[j];
    assert forall j | 0 <= j < |b| :: ab[|a| + j] == b[j];
    var i := IndexOf(a, k);
    if i < |a| {
      IndexOfIs(ab, k, i);
    } else {
      var j := IndexOf(b, k);
      IndexOfIs(ab, k, |a| + j);
    }
  }
}
