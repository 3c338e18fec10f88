/**
 * Python values as the prompt pipeline sees them: dicts with string keys
 * (which remember insertion order, as Python's do), lists, strings,
 * numbers, booleans and None, and Python's notion of truthiness.
 */
module PyValue {

  /** A Python dict with string keys, as its entries in insertion order. */
  type Dict<V> = seq<(string, V)>

  /** `list(d.keys())`. */
  function Keys<V>(d: Dict<V>): seq<string> {
    if d == [] then [] else [d[0].0] + Keys(d[1..])
  }

  /** `k in d`. */
  predicate HasKey<V>(d: Dict<V>, k: string) {
    k in Keys(d)
  }

  /** `d[k]` where `k in d`. */
  function Get<V>(d: Dict<V>, k: string): V
    requires HasKey(d, k)
  {
    if d[0].0 == k then d[0].1 else Get(d[1..], k)
  }

  lemma {:induction false} KeysAppend<V>(a: Dict<V>, b: Dict<V>)
    ensures Keys(a + b) == Keys(a) + Keys(b)
  {
    if a == [] {
      assert a + b == b;
    } else {
      assert (a + b)[1..] == a[1..] + b;
      KeysAppend(a[1..], b);
    }
  }

  /** No key is listed twice, as in every Python dict. */
  predicate UniqueKeys<V>(d: Dict<V>) {
    forall i, j :: 0 <= i < j < |d| ==> d[i].0 != d[j].0
  }

  lemma {:induction false} KeysIndex<V>(d: Dict<V>, k: string)
    ensures HasKey(d, k) <==> exists i :: 0 <= i < |d| && d[i].0 == k
  {
    if d != [] {
      KeysIndex(d[1..], k);
      if HasKey(d[1..], k) {
        var i :| 0 <= i < |d[1..]| && d[1..][i].0 == k;
        assert d[i + 1].0 == k;
      }
      if exists i :: 0 <= i < |d| && d[i].0 == k {
        var i :| 0 <= i < |d| && d[i].0 == k;
        if i > 0 { assert d[1..][i - 1].0 == k; }
      }
    }
  }

  /**
   * `d[k] = v`: an existing key keeps its place and takes the new value,
   * a new key is appended at the end.
   */
  function Put<V>(d: Dict<V>, k: string, v: V): (r: Dict<V>)
    ensures HasKey(r, k) && Get(r, k) == v
    ensures forall j :: j != k ==> (HasKey(r, j) <==> HasKey(d, j))
    ensures forall j :: j != k && HasKey(d, j) ==> Get(r, j) == Get(d, j)
    ensures Keys(r) == if HasKey(d, k) then Keys(d) else Keys(d) + [k]
    ensures !HasKey(d, k) ==> r == d + [(k, v)]
    ensures UniqueKeys(d) ==> UniqueKeys(r)
  {
    if d == [] then
      assert [(k, v)][1..] == [];
      assert Keys([(k, v)]) == [k];
      [(k, v)]
    else if d[0].0 == k then
      assert Keys([(k, v)] + d[1..])[1..] == Keys(d[1..]);
      [(k, v)] + d[1..]
    else
      var rest := Put(d[1..], k, v);
      var r := [d[0]] + rest;
      assert r[1..] == rest;
      assert UniqueKeys(d) ==> UniqueKeys(r) by {
        if UniqueKeys(d) {
          assert UniqueKeys(d[1..]);
          assert d[0].0 !in Keys(d[1..]) by {
            KeysIndex(d[1..], d[0].0);
          }
          assert d[0].0 !in Keys(rest);
          forall i, j | 0 <= i < j < |r| ensures r[i].0 != r[j].0 {
            if i == 0 {
              KeysIndex(rest, d[0].0);
              assert rest[j - 1].0 == r[j].0;
            }
          }
        }
      }
      r
  }

  /** A Python value: what the fetched market data and the events are made of. */
  datatype Value =
    | PyNone
    | PyBool(b: bool)
    | PyNum(x: real)          // an int or a finite float
    | PyStr(s: string)
    | PyList(items: seq<Value>)
    | PyDict(entries: Dict<Value>)

  /** `bool(v)`: None, False, zero and empty containers are falsy. */
  predicate Truthy(v: Value) {
    match v
    case PyNone => false
    case PyBool(b) => b
    case PyNum(x) => x != 0.0
    case PyStr(s) => s != ""
    case PyList(items) => items != []
    case PyDict(entries) => entries != []
  }
}
