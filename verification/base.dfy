/** Value types shared by the whole model: an Option, an insertion-ordered
    dictionary with the semantics of a Python dict, and JSON-like values for
    the payloads that the engine emits and the plugin forwards. */
module Base {

  datatype Option<+T> = None | Some(value: T)

  lemma AppendAssoc<T>(a: seq<T>, b: seq<T>, c: seq<T>)
    ensures (a + b) + c == a + (b + c)
  {
  }

  /** A Python dict: its entries in insertion order. `Put` keeps keys unique. */
  type Dict<K, V> = seq<(K, V)>

  /** `list(d.keys())` */
  function Keys<K, V>(d: Dict<K, V>): seq<K>
  {
    seq(|d|, i requires 0 <= i < |d| => d[i].0)
  }

  /** `list(d.values())` */
  function Values<K, V>(d: Dict<K, V>): seq<V>
  {
    seq(|d|, i requires 0 <= i < |d| => d[i].1)
  }

  predicate Distinct<T(==)>(s: seq<T>)
  {
    forall i, j :: 0 <= i < j < |s| ==> s[i] != s[j]
  }

  /** No key occurs twice, which every dict built with `Put` satisfies. */
  predicate UniqueKeys<K(==), V>(d: Dict<K, V>)
  {
    Distinct(Keys(d))
  }

  lemma KeysCons<K, V>(d: Dict<K, V>)
    requires d != []
    ensures Keys(d) == [d[0].0] + Keys(d[1..])
  {
  }

  lemma ValuesCons<K, V>(d: Dict<K, V>)
    requires d != []
    ensures Values(d) == [d[0].1] + Values(d[1..])
  {
  }

  /** `d.get(k)`: the value stored under k, if any. */
  function Find<K(==), V>(d: Dict<K, V>, k: K): (r: Option<V>)
    ensures r.Some? <==> k in Keys(d)
    ensures r.Some? ==> (k, r.value) in d
  {
    if d == [] then None
    else
      KeysCons(d);
      ValuesCons(d);
      if d[0].0 == k then Some(d[0].1) else Find(d[1..], k)
  }

  /** A value found is one of the dict's values. */
  lemma FoundInValues<K, V>(d: Dict<K, V>, k: K)
    requires Find(d, k).Some?
    ensures Find(d, k).value in Values(d)
  {
    var v := Find(d, k).value;
    var i :| 0 <= i < |d| && d[i] == (k, v);
    assert Values(d)[i] == v;
  }

  /** The first entry with a key is the one `Find` returns. */
  lemma {:induction false} FindAt<K, V>(d: Dict<K, V>, i: nat)
    requires i < |d| && forall j :: 0 <= j < i ==> d[j].0 != d[i].0
    ensures Find(d, d[i].0) == Some(d[i].1)
  {
    if i > 0 {
      assert d[1..][i - 1] == d[i];
      FindAt(d[1..], i - 1);
    }
  }

  /** `d[k] = v`: the value is replaced in place when k is present, and the
      entry is appended otherwise, so the insertion order of keys is kept. */
  function Put<K(==,!new), V>(d: Dict<K, V>, k: K, v: V): (r: Dict<K, V>)
    ensures Find(r, k) == Some(v)
    ensures forall k' :: k' != k ==> Find(r, k') == Find(d, k')
  {
    if d == [] then [(k, v)]
    else
      KeysCons(d);
      if d[0].0 == k then
        KeysCons([(k, v)] + d[1..]);
        [(k, v)] + d[1..]
      else
        var r := [d[0]] + Put(d[1..], k, v);
        KeysCons(r);
        assert r[1..] == Put(d[1..], k, v);
        r
  }

  /** `d[k] = v` keeps the order of the keys and appends a new one. */
  lemma {:induction false} PutKeys<K(!new), V>(d: Dict<K, V>, k: K, v: V)
    ensures Keys(Put(d, k, v)) == if k in Keys(d) then Keys(d) else Keys(d) + [k]
  {
    if d != [] {
      KeysCons(d);
      PutKeys(d[1..], k, v);
      if d[0].0 == k {
        KeysCons([(k, v)] + d[1..]);
      } else {
        var r := [d[0]] + Put(d[1..], k, v);
        KeysCons(r);
        assert r[1..] == Put(d[1..], k, v);
      }
    }
  }

  /** `d.pop(k, None)`: the entry for k is gone and every other entry keeps
      its value and its place. */
  function RemoveKey<K(==,!new), V>(d: Dict<K, V>, k: K): (r: Dict<K, V>)
    ensures Find(r, k) == None
    ensures forall k' :: k' != k ==> Find(r, k') == Find(d, k')
    ensures forall e :: e in r ==> e in d
  {
    if d == [] then []
    else if d[0].0 == k then RemoveKey(d[1..], k)
    else [d[0]] + RemoveKey(d[1..], k)
  }

  /** The tail of a dict with unique keys has unique keys and lacks the
      head's key. */
  lemma UniqueTail<K, V>(d: Dict<K, V>)
    requires d != [] && UniqueKeys(d)
    ensures UniqueKeys(d[1..]) && d[0].0 !in Keys(d[1..])
  {
    KeysCons(d);
    var ks := Keys(d);
    assert Keys(d[1..]) == ks[1..];
    forall i | 0 <= i < |ks| - 1
      ensures ks[1..][i] != ks[0]
    {
      assert ks[0] != ks[i + 1];
    }
  }

  lemma {:induction false} RemoveKeyKeepsUniqueKeys<K(!new), V>(d: Dict<K, V>, k: K)
    requires UniqueKeys(d)
    ensures UniqueKeys(RemoveKey(d, k))
    ensures forall k' :: k' in Keys(RemoveKey(d, k)) ==> k' in Keys(d)
  {
    if d != [] {
      KeysCons(d);
      UniqueTail(d);
      RemoveKeyKeepsUniqueKeys(d[1..], k);
      if d[0].0 != k {
        var r := [d[0]] + RemoveKey(d[1..], k);
        KeysCons(r);
        assert r[1..] == RemoveKey(d[1..], k);
      }
    }
  }

  /** Storing the same value twice is storing it once. */
  lemma {:induction false} PutTwice<K(!new), V>(d: Dict<K, V>, k: K, v: V)
    ensures Put(Put(d, k, v), k, v) == Put(d, k, v)
  {
    if d != [] && d[0].0 != k {
      PutTwice(d[1..], k, v);
      assert Put(d, k, v)[1..] == Put(d[1..], k, v);
    }
  }

  lemma PutKeepsUniqueKeys<K(!new), V>(d: Dict<K, V>, k: K, v: V)
    requires UniqueKeys(d)
    ensures UniqueKeys(Put(d, k, v))
  {
    PutKeys(d, k, v);
  }

  /** JSON-like values. Objects keep their insertion order, as Python dicts do. */
  datatype Json =
    | JNull
    | JBool(b: bool)
    | JInt(i: int)
    | JStr(s: string)
    | JList(items: seq<Json>)
    | JObj(fields: Dict<string, Json>)

  /** Python truthiness of a value. */
  predicate Truthy(j: Json)
  {
    match j
    case JNull => false
    case JBool(b) => b
    case JInt(i) => i != 0
    case JStr(s) => s != ""
    case JList(xs) => xs != []
    case JObj(fs) => fs != []
  }

  /** `j.get(key)` on an object; a non-object has no fields. */
  function Field(j: Json, key: string): (r: Option<Json>)
    ensures r.Some? ==> j.JObj? && key in Keys(j.fields)
  {
    if j.JObj? then Find(j.fields, key) else None
  }

  /** `d.get(key)` on a dict: None (JSON null) when the key is absent. */
  function Get(d: Dict<string, Json>, key: string): (r: Json)
    ensures key !in Keys(d) ==> r == JNull
    ensures key in Keys(d) ==> (key, r) in d
  {
    match Find(d, key)
    case Some(v) => v
    case None => JNull
  }

  /** An identifier read with `data.get(key)` and then tested for truth:
      present only when it is a non-empty string. */
  function IdField(j: Json, key: string): (r: Option<string>)
    ensures r.Some? <==> exists s :: s != "" && Field(j, key) == Some(JStr(s))
    ensures r.Some? ==> Field(j, key) == Some(JStr(r.value))
  {
    match Field(j, key)
    case Some(JStr(s)) => if s != "" then Some(s) else None
    case _ => None
  }

  /** `j[key] = v` on an object. */
  function SetField(j: Json, key: string, v: Json): (r: Json)
    requires j.JObj?
    ensures r.JObj? && Field(r, key) == Some(v)
    ensures forall k :: k != key ==> Field(r, k) == Field(j, k)
  {
    JObj(Put(j.fields, key, v))
  }

  /** An optional string as JSON: `None` becomes null. */
  function OptStr(o: Option<string>): Json
  {
    match o
    case None => JNull
    case Some(s) => JStr(s)
  }
}
