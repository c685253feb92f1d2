/** A Python `dict` with string keys: an insertion-ordered association list.
    Assigning to a present key overwrites its value in place; assigning to
    an absent key appends a new entry at the end, as CPython's dicts do. */
module PyDict {

  import opened Common

  datatype Item<V> = Item(key: string, value: V)

  type Dict<V> = seq<Item<V>>

  /** No key occurs twice. */
  predicate Distinct<V>(d: Dict<V>)
  {
    forall i, j :: 0 <= i < j < |d| ==> d[i].key != d[j].key
  }

  /** `list(d.keys())`, in insertion order. */
  function Keys<V>(d: Dict<V>): (ks: seq<string>)
    ensures |ks| == |d|
    ensures forall i :: 0 <= i < |d| ==> ks[i] == d[i].key
  {
    seq(|d|, i requires 0 <= i < |d| => d[i].key)
  }

  /** `list(d.values())`, in insertion order. */
  function Values<V>(d: Dict<V>): (vs: seq<V>)
    ensures |vs| == |d|
    ensures forall i :: 0 <= i < |d| ==> vs[i] == d[i].value
  {
    seq(|d|, i requires 0 <= i < |d| => d[i].value)
  }

  /** The position of the first entry with key `k`, or -1 when there is none. */
  function IndexOf<V>(d: Dict<V>, k: string): (r: int)
    ensures -1 <= r < |d|
    ensures 0 <= r ==> d[r].key == k
    ensures forall j :: 0 <= j < |d| && (r < 0 || j < r) ==> d[j].key != k
  {
    if d == [] then -1
    else if d[0].key == k then 0
    else
      var r := IndexOf(d[1..], k);
      if r < 0 then -1 else r + 1
  }

  /** `k in d`. */
  predicate Contains<V>(d: Dict<V>, k: string)
  {
    0 <= IndexOf(d, k)
  }

  /** `d[k]`. */
  function Get<V>(d: Dict<V>, k: string): V
    requires Contains(d, k)
  {
    d[IndexOf(d, k)].value
  }

  /** `d.get(k)`. */
  function Lookup<V>(d: Dict<V>, k: string): (r: Option<V>)
    ensures r.Some? <==> Contains(d, k)
    ensures r.Some? ==> r.value == Get(d, k)
  {
    if Contains(d, k) then Some(Get(d, k)) else None
  }

  /** `d[k] = v`. */
  function Put<V>(d: Dict<V>, k: string, v: V): (r: Dict<V>)
    ensures Contains(r, k) && Get(r, k) == v
    ensures forall k' :: k' != k ==> Lookup(r, k') == Lookup(d, k')
    ensures Contains(d, k) ==> Keys(r) == Keys(d)
    ensures !Contains(d, k) ==> r == d + [Item(k, v)]
    ensures Distinct(d) ==> Distinct(r)
  {
    var i := IndexOf(d, k);
    if 0 <= i then
      var r := d[i := Item(k, v)];
      assert Keys(r) == Keys(d);
      forall k' ensures IndexOf(r, k') == IndexOf(d, k') {
        IndexOfByKeys(r, d, k');
      }
      r
    else
      var r := d + [Item(k, v)];
      forall k' ensures IndexOf(r, k') == if k' == k then |d| else IndexOf(d, k') {
        IndexOfAppend(d, Item(k, v), k');
      }
      r
  }

  /** The first position of a key depends only on the keys. */
  lemma IndexOfByKeys<V>(d1: Dict<V>, d2: Dict<V>, k: string)
    requires Keys(d1) == Keys(d2)
    ensures IndexOf(d1, k) == IndexOf(d2, k)
  {
    var a, b := IndexOf(d1, k), IndexOf(d2, k);
    assert forall j :: 0 <= j < |d1| ==> d1[j].key == Keys(d2)[j];
  }

  /** Appending an entry never moves the first position of a key already present. */
  lemma {:induction false} IndexOfAppend<V>(d: Dict<V>, x: Item<V>, k: string)
    ensures IndexOf(d + [x], k) ==
      if 0 <= IndexOf(d, k) then IndexOf(d, k) else if x.key == k then |d| else -1
  {
    if d != [] && d[0].key != k {
      assert (d + [x])[1..] == d[1..] + [x];
      IndexOfAppend(d[1..], x, k);
    }
  }

  /** Assignment adds the new value and keeps or drops old ones; it brings in
      no other value. */
  lemma PutValues<V>(d: Dict<V>, k: string, v: V)
    ensures forall x :: x in Values(Put(d, k, v)) ==> x == v || x in Values(d)
  {
    var r := Put(d, k, v);
    forall x | x in Values(r) ensures x == v || x in Values(d) {
      var i :| 0 <= i < |r| && Values(r)[i] == x;
      if i < |d| && r[i] == d[i] {
        assert Values(d)[i] == x;
      }
    }
  }
}
