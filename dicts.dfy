/** Python dictionaries: insertion-ordered, one entry per key, assignment to an existing key keeps
    its position and replaces its value. The order matters where the code iterates a dict. */
module Dicts {
  import opened Common

  /** No element occurs twice. */
  predicate Distinct<T(==)>(s: seq<T>) {
    forall i, j :: 0 <= i < j < |s| ==> s[i] != s[j]
  }

  /** The keys in insertion order next to the key/value mapping. */
  datatype DictRep<K, V> = DictRep(order: seq<K>, entries: map<K, V>)

  ghost predicate WellFormed<K(!new), V>(d: DictRep<K, V>) {
    Distinct(d.order) && (forall k :: k in d.entries <==> k in d.order)
  }

  type Dict<K(==,!new), V> = d: DictRep<K, V> | WellFormed(d) witness DictRep([], map[])

  /** The keys in iteration order. */
  function Keys<K(==,!new), V>(d: Dict<K, V>): (r: seq<K>)
    ensures Distinct(r)
    ensures forall k :: k in r <==> k in d.entries
  {
    d.order
  }

  /** `d.get(k)`. */
  function Get<K(==,!new), V>(d: Dict<K, V>, k: K): (r: Option<V>)
    ensures r.Some? <==> k in Keys(d)
  {
    if k in d.entries then Some(d.entries[k]) else None
  }

  /** `d.get(k, default)`. */
  function GetOr<K(==,!new), V>(d: Dict<K, V>, k: K, default: V): V {
    Get(d, k).GetOr(default)
  }

  /** The dict with no entries, `{}`. */
  function EmptyDict<K(==,!new), V>(): (r: Dict<K, V>)
    ensures Keys(r) == []
    ensures forall k :: Get(r, k) == None
  {
    DictRep([], map[])
  }

  /** `d[k] = v`: the new value is found under k, every other key keeps its value, and the key order
      changes only by appending k when it is new. */
  function Put<K(==,!new), V>(d: Dict<K, V>, k: K, v: V): (r: Dict<K, V>)
    ensures Get(r, k) == Some(v)
    ensures forall j :: j != k ==> Get(r, j) == Get(d, j)
    ensures Keys(r) == if k in Keys(d) then Keys(d) else Keys(d) + [k]
  {
    if k in d.entries then DictRep(d.order, d.entries[k := v])
    else DictRep(d.order + [k], d.entries[k := v])
  }

  /** Pair i is the last one with key k. */
  predicate LastPairFor<K(==,!new), V>(ps: seq<(K, V)>, k: K, i: int) {
    0 <= i < |ps| && ps[i].0 == k && forall j :: i < j < |ps| ==> ps[j].0 != k
  }

  /** No pair has key k. */
  predicate NoPairFor<K(==,!new), V>(ps: seq<(K, V)>, k: K) {
    forall i :: 0 <= i < |ps| ==> ps[i].0 != k
  }

  /** `for k, v in ps: d[k] = v`: last write wins, and a key no pair mentions keeps its old value. */
  function PutAll<K(==,!new), V>(d: Dict<K, V>, ps: seq<(K, V)>): (r: Dict<K, V>)
    ensures forall k :: NoPairFor(ps, k) ==> Get(r, k) == Get(d, k)
    ensures forall k, i :: LastPairFor(ps, k, i) ==> Get(r, k) == Some(ps[i].1)
    decreases |ps|
  {
    if ps == [] then d
    else
      var r := PutAll(Put(d, ps[0].0, ps[0].1), ps[1..]);
      assert forall j :: 0 <= j < |ps| - 1 ==> ps[1..][j] == ps[j + 1];
      assert forall k, i :: LastPairFor(ps, k, i) && i > 0 ==> LastPairFor(ps[1..], k, i - 1);
      r
  }

  /** The items of a dict in iteration order, `list(d.items())`. */
  function Items<K(==,!new), V>(d: Dict<K, V>): (ps: seq<(K, V)>)
    ensures |ps| == |Keys(d)|
    ensures forall i :: 0 <= i < |ps| ==> ps[i].0 == Keys(d)[i] && Get(d, ps[i].0) == Some(ps[i].1)
  {
    seq(|d.order|, i requires 0 <= i < |d.order| => (d.order[i], d.entries[d.order[i]]))
  }

  /** `d.update(e)`: every key of e gets e's value, all other keys keep theirs. */
  function Update<K(==,!new), V>(d: Dict<K, V>, e: Dict<K, V>): (r: Dict<K, V>)
    ensures forall k :: Get(r, k) == if k in Keys(e) then Get(e, k) else Get(d, k)
  {
    var ps := Items(e);
    var r := PutAll(d, ps);
    assert forall i :: 0 <= i < |ps| ==> LastPairFor(ps, ps[i].0, i);
    r
  }

  /** The dict built from an empty one by assigning the pairs in order. */
  function FromPairs<K(==,!new), V>(ps: seq<(K, V)>): Dict<K, V> {
    PutAll(EmptyDict(), ps)
  }

  /** If some pair has key k, a last one does. */
  lemma {:induction false} LastExists<K(!new), V>(ps: seq<(K, V)>, k: K, i: int)
    requires 0 <= i < |ps| && ps[i].0 == k
    ensures exists l :: LastPairFor(ps, k, l)
    decreases |ps| - i
  {
    if !LastPairFor(ps, k, i) {
      var j :| i < j < |ps| && ps[j].0 == k;
      LastExists(ps, k, j);
    }
  }

  /** A key is present in the built dict exactly when some pair has it. */
  lemma FromPairsHasKey<K(!new), V>(ps: seq<(K, V)>, k: K)
    ensures Get(FromPairs(ps), k).None? <==> NoPairFor(ps, k)
  {
    if !NoPairFor(ps, k) {
      var i :| 0 <= i < |ps| && ps[i].0 == k;
      LastExists(ps, k, i);
    }
  }

  /** Every key of the dict comes from some pair. */
  lemma FromPairsKeys<K(!new), V>(ps: seq<(K, V)>)
    ensures forall k :: k in Keys(FromPairs(ps)) ==> exists i :: 0 <= i < |ps| && ps[i].0 == k
  {
    forall k | k in Keys(FromPairs(ps)) ensures exists i :: 0 <= i < |ps| && ps[i].0 == k {
      FromPairsHasKey(ps, k);
    }
  }
}
