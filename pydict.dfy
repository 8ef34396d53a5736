/** A Python `dict` with string keys, as a list of entries in insertion
    order (the order `items()` and `values()` report). Assigning to a key
    already present replaces its value where it stands; a new key goes last. */
module PyDict {
  import opened Messages

  datatype Entry<V> = Entry(key: string, value: V)

  /** The keys present. */
  function KeySet<V>(d: seq<Entry<V>>): set<string>
  {
    set i | 0 <= i < |d| :: d[i].key
  }

  /** No key occurs twice, which every dict satisfies. */
  predicate UniqueKeys<V>(d: seq<Entry<V>>)
  {
    forall i, j :: 0 <= i < j < |d| ==> d[i].key != d[j].key
  }

  /** The position of key `k`, if present. */
  function Find<V>(d: seq<Entry<V>>, k: string): (r: Option<nat>)
    ensures r.Some? ==> r.value < |d| && d[r.value].key == k
    ensures r.None? <==> k !in KeySet(d)
  {
    if d == [] then None
    else if d[0].key == k then Some(0)
    else match Find(d[1..], k)
      case Some(i) => Some(i + 1)
      case None => (assert forall j :: 1 <= j < |d| ==> d[j] == d[1..][j - 1]; None)
  }

  /** `d[k]` when present, `None` where Python raises `KeyError`. */
  function Get<V>(d: seq<Entry<V>>, k: string): Option<V>
  {
    match Find(d, k)
    case Some(i) => Some(d[i].value)
    case None => None
  }

  /** `d[k] = v`. */
  function Put<V>(d: seq<Entry<V>>, k: string, v: V): (r: seq<Entry<V>>)
    ensures KeySet(r) == KeySet(d) + {k}
    ensures k !in KeySet(d) ==> r == d + [Entry(k, v)]
    ensures forall e :: e in r ==> e in d || e == Entry(k, v)
    ensures Entry(k, v) in r
  {
    match Find(d, k)
    case Some(i) =>
      var r := d[i := Entry(k, v)];
      assert forall j :: 0 <= j < |d| ==> r[j].key == d[j].key;
      r
    case None =>
      var r := d + [Entry(k, v)];
      assert forall j :: 0 <= j < |d| ==> r[j] == d[j];
      assert r[|d|].key == k;
      r
  }

  /** `list(d.values())`. */
  function Values<V>(d: seq<Entry<V>>): (r: seq<V>)
    ensures |r| == |d| && forall i :: 0 <= i < |d| ==> r[i] == d[i].value
  {
    if d == [] then [] else [d[0].value] + Values(d[1..])
  }

  /** Assignment keeps a dict a dict. */
  lemma PutKeepsKeysUnique<V>(d: seq<Entry<V>>, k: string, v: V)
    requires UniqueKeys(d)
    ensures UniqueKeys(Put(d, k, v))
  {
    if Find(d, k).None? {
      var r := d + [Entry(k, v)];
      forall i, j | 0 <= i < j < |r| ensures r[i].key != r[j].key {
        if j == |d| { assert r[i] in d; }
      }
    }
  }

  /** After `d[k] = v`, `d[k]` is `v` and every other key keeps its value. */
  lemma PutThenGet<V>(d: seq<Entry<V>>, k: string, v: V, k': string)
    requires UniqueKeys(d)
    ensures Get(Put(d, k, v), k) == Some(v)
    ensures k' != k ==> Get(Put(d, k, v), k') == Get(d, k')
  {
    var r := Put(d, k, v);
    PutKeepsKeysUnique(d, k, v);
    var j := if Find(d, k).Some? then Find(d, k).value else |d|;
    assert r[j] == Entry(k, v);
    var i := Find(r, k).value;
    assert i == j;
    if k' != k {
      match Find(d, k')
      case Some(j') =>
        assert r[j'] == d[j'];
        var i' := Find(r, k').value;
        assert i' == j';
      case None =>
    }
  }
}
