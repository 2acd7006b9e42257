/**
 * Python dictionaries with string keys, as insertion-ordered association
 * lists: `d[k] = v` replaces the value in place when `k` is present and
 * appends the pair otherwise, and `d.update(u)` does that for each pair of
 * `u` in order.
 */
module OrderedDicts {
  import opened Outcomes

  type Dict<V> = seq<(string, V)>

  /** The keys in insertion order. */
  function Keys<V>(d: Dict<V>): (ks: seq<string>)
    ensures |ks| == |d|
    ensures forall i :: 0 <= i < |d| ==> ks[i] == d[i].0
  {
    if d == [] then [] else Keys(d[..|d| - 1]) + [d[|d| - 1].0]
  }

  /** No key occurs twice, as in every Python dict. */
  predicate UniqueKeys<V>(d: Dict<V>) {
    forall i, j :: 0 <= i < j < |d| ==> d[i].0 != d[j].0
  }

  /** The position of `k`, if present. */
  function IndexOf<V>(d: Dict<V>, k: string): (r: Option<nat>)
    ensures r.None? <==> forall i :: 0 <= i < |d| ==> d[i].0 != k
    ensures r.Some? ==> r.value < |d| && d[r.value].0 == k
    ensures r.Some? ==> forall i :: 0 <= i < r.value ==> d[i].0 != k
  {
    if d == [] then None
    else if d[0].0 == k then Some(0)
    else match IndexOf(d[1..], k)
      case None => None
      case Some(i) => Some(i + 1)
  }

  /** `k in d`. */
  predicate HasKey<V>(d: Dict<V>, k: string) {
    IndexOf(d, k).Some?
  }

  /** `d.get(k)`. */
  function Get<V>(d: Dict<V>, k: string): (r: Option<V>)
    ensures r.Some? <==> HasKey(d, k)
  {
    match IndexOf(d, k)
    case None => None
    case Some(i) => Some(d[i].1)
  }

  /** `d[k] = v`: the pair is replaced in place when `k` is present, appended otherwise. */
  function Put<V>(d: Dict<V>, k: string, v: V): (r: Dict<V>)
    ensures Get(r, k) == Some(v)
    ensures forall j :: j != k ==> Get(r, j) == Get(d, j)
    ensures Keys(r) == if HasKey(d, k) then Keys(d) else Keys(d) + [k]
    ensures UniqueKeys(d) ==> UniqueKeys(r)
  {
    match IndexOf(d, k)
    case Some(i) =>
      PutReplaces(d, i, k, v);
      d[i := (k, v)]
    case None =>
      PutAppends(d, k, v);
      d + [(k, v)]
  }

  lemma PutReplaces<V>(d: Dict<V>, i: nat, k: string, v: V)
    requires IndexOf(d, k) == Some(i)
    ensures Get(d[i := (k, v)], k) == Some(v)
    ensures forall j :: j != k ==> Get(d[i := (k, v)], j) == Get(d, j)
    ensures Keys(d[i := (k, v)]) == Keys(d)
    ensures UniqueKeys(d) ==> UniqueKeys(d[i := (k, v)])
  {
    var r := d[i := (k, v)];
    forall j | j != k ensures IndexOf(r, j) == IndexOf(d, j) { IndexOfReplaced(d, i, k, v, j); }
    IndexOfReplaced(d, i, k, v, k);
    assert Keys(r) == Keys(d);
  }

  lemma PutAppends<V>(d: Dict<V>, k: string, v: V)
    requires !HasKey(d, k)
    ensures Get(d + [(k, v)], k) == Some(v)
    ensures forall j :: j != k ==> Get(d + [(k, v)], j) == Get(d, j)
    ensures Keys(d + [(k, v)]) == Keys(d) + [k]
    ensures UniqueKeys(d) ==> UniqueKeys(d + [(k, v)])
  {
    var r := d + [(k, v)];
    forall j | j != k ensures IndexOf(r, j) == IndexOf(d, j) { IndexOfAppended(d, k, v, j); }
    IndexOfAppended(d, k, v, k);
    assert Keys(r) == Keys(d) + [k];
  }

  lemma IndexOfReplaced<V>(d: Dict<V>, i: nat, k: string, v: V, j: string)
    requires i < |d| && d[i].0 == k
    ensures IndexOf(d[i := (k, v)], j) == IndexOf(d, j)
  {
    var r := d[i := (k, v)];
    assert forall n :: 0 <= n < |d| ==> r[n].0 == d[n].0;
    match IndexOf(d, j)
    case None =>
    case Some(n) =>
  }

  lemma IndexOfAppended<V>(d: Dict<V>, k: string, v: V, j: string)
    requires !HasKey(d, k)
    ensures IndexOf(d + [(k, v)], j) == if j == k then Some(|d|) else IndexOf(d, j)
  {
    var r := d + [(k, v)];
    assert forall n :: 0 <= n < |d| ==> r[n].0 == d[n].0;
    assert r[|d|].0 == k;
    match IndexOf(d, j)
    case None =>
      assert forall m :: 0 <= m < |d| ==> r[m].0 != k;
    case Some(n) =>
  }

  /** `d.update(u)`: `d[k] = v` for each pair of `u`, in order. */
  function Update<V>(d: Dict<V>, u: Dict<V>): Dict<V> {
    if u == [] then d else Put(Update(d, u[..|u| - 1]), u[|u| - 1].0, u[|u| - 1].1)
  }

  /** A key of a dict without duplicates is looked up in its last pair or before it. */
  lemma GetLast<V>(u: Dict<V>, j: string)
    requires UniqueKeys(u) && u != []
    ensures Get(u, j) == if j == u[|u| - 1].0 then Some(u[|u| - 1].1) else Get(u[..|u| - 1], j)
  {
    var pre := u[..|u| - 1];
    assert u == pre + [u[|u| - 1]];
    assert !HasKey(pre, u[|u| - 1].0);
    IndexOfAppended(pre, u[|u| - 1].0, u[|u| - 1].1, j);
  }

  /** After `d.update(u)` a key of `u` maps to `u`'s value; every other key keeps `d`'s. */
  lemma {:induction false} UpdateGet<V>(d: Dict<V>, u: Dict<V>, j: string)
    requires UniqueKeys(u)
    ensures Get(Update(d, u), j) == if HasKey(u, j) then Get(u, j) else Get(d, j)
  {
    if u != [] {
      var pre := u[..|u| - 1];
      assert UniqueKeys(pre);
      UpdateGet(d, pre, j);
      GetLast(u, j);
    }
  }

  /** `update` keeps the keys of `d` where they were; the result's keys are those of `d` and of `u`. */
  lemma {:induction false} UpdateKeepsKeys<V>(d: Dict<V>, u: Dict<V>)
    ensures |Keys(Update(d, u))| >= |Keys(d)|
    ensures Keys(Update(d, u))[..|Keys(d)|] == Keys(d)
    ensures forall k :: k in Keys(Update(d, u)) <==> k in Keys(d) || k in Keys(u)
  {
    if u != [] {
      var pre, last := u[..|u| - 1], u[|u| - 1];
      UpdateKeepsKeys(d, pre);
      var before := Update(d, pre);
      assert Keys(u) == Keys(pre) + [last.0];
      if HasKey(before, last.0) {
        var i := IndexOf(before, last.0).value;
        assert Keys(before)[i] == last.0;
      }
    }
  }

  /** `update` keeps keys unique. */
  lemma {:induction false} UpdateUnique<V>(d: Dict<V>, u: Dict<V>)
    requires UniqueKeys(d)
    ensures UniqueKeys(Update(d, u))
  {
    if u != [] {
      UpdateUnique(d, u[..|u| - 1]);
    }
  }
}
