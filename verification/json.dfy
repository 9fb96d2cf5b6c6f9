/**
  JSON values as the tools see them after `resp.json()` and before `json=payload`
  is serialised. An object is the list of its members in insertion order, as a
  Python dict keeps them; numbers are integers.
*/
module Json {
  import opened Wrappers
  import Text

  datatype Json =
    | JNull
    | JBool(b: bool)
    | JNumber(n: int)
    | JString(s: string)
    | JArray(items: seq<Json>)
    | JObject(members: seq<(string, Json)>)

  /** The keys of an object, in insertion order. */
  function Keys(ms: seq<(string, Json)>): (ks: seq<string>)
    ensures |ks| == |ms|
  {
    seq(|ms|, i requires 0 <= i < |ms| => ms[i].0)
  }

  predicate Distinct(ks: seq<string>) {
    forall i, j :: 0 <= i < j < |ks| ==> ks[i] != ks[j]
  }

  /**
    Python's `k in d` / `d[k]` on a dict decoded from JSON: when a key occurs more
    than once, the last occurrence wins, as `json.loads` keeps the last one.
  */
  function Get(ms: seq<(string, Json)>, k: string): (r: Option<Json>)
    ensures r.None? <==> forall i :: 0 <= i < |ms| ==> ms[i].0 != k
    ensures r.Some? ==> (k, r.value) in ms
    decreases |ms|
  {
    if |ms| == 0 then None
    else if ms[|ms| - 1].0 == k then Some(ms[|ms| - 1].1)
    else Get(ms[..|ms| - 1], k)
  }

  /** With distinct keys, looking up a member's key finds that member's value. */
  lemma {:induction false} GetDistinct(ms: seq<(string, Json)>, i: nat)
    requires Distinct(Keys(ms)) && i < |ms|
    ensures Get(ms, ms[i].0) == Some(ms[i].1)
    decreases |ms|
  {
    var n := |ms| - 1;
    if i < n {
      var init := ms[..n];
      assert Keys(ms)[i] != Keys(ms)[n];
      assert Keys(init) == Keys(ms)[..n];
      GetDistinct(init, i);
    }
  }

  /** Lookup in a concatenation: a key in the later part hides the earlier part. */
  lemma {:induction false} GetAppend(a: seq<(string, Json)>, b: seq<(string, Json)>, k: string)
    ensures Get(a + b, k) == if Get(b, k).Some? then Get(b, k) else Get(a, k)
    decreases |b|
  {
    if |b| > 0 {
      var n := |b| - 1;
      assert (a + b)[..|a + b| - 1] == a + b[..n];
      if b[n].0 != k {
        GetAppend(a, b[..n], k);
      }
    } else {
      assert a + b == a;
    }
  }

  /** A key that is not among the keys is not found. */
  lemma GetOutside(ms: seq<(string, Json)>, k: string)
    requires k !in Keys(ms)
    ensures Get(ms, k) == None
  {
    forall i | 0 <= i < |ms| ensures ms[i].0 != k {
      assert Keys(ms)[i] == ms[i].0;
    }
  }

  /** Every member of an object with distinct keys is found by its key. */
  lemma GetEach(ms: seq<(string, Json)>)
    requires Distinct(Keys(ms))
    ensures forall i :: 0 <= i < |ms| ==> Get(ms, ms[i].0) == Some(ms[i].1)
  {
    forall i | 0 <= i < |ms| {
      GetDistinct(ms, i);
    }
  }

  /**
    An object with distinct keys is fixed by its key order and its lookups:
    two such objects that agree on both are the same value.
  */
  lemma MembersDetermined(a: seq<(string, Json)>, b: seq<(string, Json)>)
    requires Keys(a) == Keys(b) && Distinct(Keys(a))
    requires forall k :: Get(a, k) == Get(b, k)
    ensures a == b
  {
    forall i | 0 <= i < |a| ensures a[i] == b[i] {
      assert a[i].0 == Keys(a)[i] == Keys(b)[i] == b[i].0;
      GetDistinct(a, i);
      GetDistinct(b, i);
      assert Get(a, a[i].0) == Get(b, b[i].0);
    }
  }

  /** Python truthiness of a decoded value: null, false, 0, "", [] and {} are false. */
  predicate Truthy(j: Json) {
    match j
    case JNull => false
    case JBool(b) => b
    case JNumber(n) => n != 0
    case JString(s) => s != ""
    case JArray(items) => items != []
    case JObject(ms) => ms != []
  }

  /** Python's `str(v)` for the scalar values; composite values get a placeholder. */
  function Show(j: Json): string {
    match j
    case JNull => "None"
    case JBool(b) => if b then "True" else "False"
    case JNumber(n) => Text.IntToString(n)
    case JString(s) => s
    case JArray(_) => "[...]"
    case JObject(_) => "{...}"
  }

  /** One step of a path into a JSON value: an object key or an array index. */
  datatype Step = Key(name: string) | At(index: nat)

  /** Follows `path` from `j`, as a reader of the serialised document would. */
  function Navigate(j: Json, path: seq<Step>): Option<Json>
    decreases |path|
  {
    if path == [] then Some(j)
    else
      var next :=
        match path[0]
        case Key(k) => if j.JObject? then Get(j.members, k) else None
        case At(i) => if j.JArray? && i < |j.items| then Some(j.items[i]) else None;
      if next.None? then None else Navigate(next.value, path[1..])
  }

  /** A path that starts with a key descends into that member. */
  lemma NavigateKey(ms: seq<(string, Json)>, k: string, v: Json, rest: seq<Step>)
    requires Get(ms, k) == Some(v)
    ensures Navigate(JObject(ms), [Key(k)] + rest) == Navigate(v, rest)
  {
    assert ([Key(k)] + rest)[1..] == rest;
  }

  /** A path that starts with an in-range index descends into that item. */
  lemma NavigateAt(items: seq<Json>, i: nat, rest: seq<Step>)
    requires i < |items|
    ensures Navigate(JArray(items), [At(i)] + rest) == Navigate(items[i], rest)
  {
    assert ([At(i)] + rest)[1..] == rest;
  }
}
