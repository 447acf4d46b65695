// Decoded JSON documents, as Python's `json` module hands them over, and
// the dictionary reads the application performs on them.
module JsonData {

  datatype Json =
    | JNull
    | JBool(b: bool)
    | JInt(i: int)
    | JStr(s: string)
    | JList(items: seq<Json>)
    | JObj(fields: map<string, Json>)

  type Object = map<string, Json>

  /** Python's truth value of a JSON value. */
  predicate Truthy(j: Json)
  {
    match j
    case JNull => false
    case JBool(b) => b
    case JInt(i) => i != 0
    case JStr(s) => s != []
    case JList(items) => items != []
    case JObj(fields) => fields != map[]
  }

  /** `data.get(key, default)`. */
  function Get(data: Object, key: string, default: Json): Json
  {
    if key in data then data[key] else default
  }

  /** `data.get(key)`: a missing key reads as None. */
  function Opt(data: Object, key: string): Json
  {
    Get(data, key, JNull)
  }

  // ------------------------------------------- an object as `json.load` builds it

  /** The keys of an object's members, in order. */
  function Keys(pairs: seq<(string, Json)>): (r: seq<string>)
    ensures |r| == |pairs| && forall i :: 0 <= i < |pairs| ==> r[i] == pairs[i].0
  {
    if pairs == [] then [] else [pairs[0].0] + Keys(pairs[1..])
  }

  /** No key occurs twice. */
  predicate DistinctKeys(pairs: seq<(string, Json)>)
  {
    forall i, j | 0 <= i < j < |pairs| :: pairs[i].0 != pairs[j].0
  }

  /** All members but the last repeat no key, and do not hold the last one's. */
  lemma PrefixDistinct(pairs: seq<(string, Json)>)
    requires pairs != [] && DistinctKeys(pairs)
    ensures DistinctKeys(pairs[..|pairs| - 1]) && pairs[|pairs| - 1].0 !in Keys(pairs[..|pairs| - 1])
  {
    var init := pairs[..|pairs| - 1];
    forall i | 0 <= i < |init| ensures init[i] == pairs[i] {
    }
  }

  /** `d[k] = v` on a dict held as its members in insertion order. */
  function Assign(d: seq<(string, Json)>, k: string, v: Json): (r: seq<(string, Json)>)
    ensures |r| == if k in Keys(d) then |d| else |d| + 1
    ensures forall j | 0 <= j < |r| :: r[j].0 == k || r[j].0 in Keys(d)
  {
    if d == [] then [(k, v)]
    else if d[0].0 == k then [(k, v)] + d[1..]
    else [d[0]] + Assign(d[1..], k, v)
  }

  /** The members after the first, and their keys. */
  lemma Tail(d: seq<(string, Json)>)
    requires d != []
    ensures Keys(d) == [d[0].0] + Keys(d[1..])
    ensures DistinctKeys(d) ==> DistinctKeys(d[1..]) && d[0].0 !in Keys(d[1..])
  {
    assert forall i | 0 <= i < |d[1..]| :: d[1..][i] == d[i + 1];
  }

  /** A new key goes last. */
  lemma {:induction false} AssignNew(d: seq<(string, Json)>, k: string, v: Json)
    requires k !in Keys(d)
    ensures Assign(d, k, v) == d + [(k, v)]
    decreases |d|
  {
    if d != [] {
      Tail(d);
      assert d[0].0 != k && k !in Keys(d[1..]);
      AssignNew(d[1..], k, v);
      calc {
        Assign(d, k, v);
        [d[0]] + Assign(d[1..], k, v);
        [d[0]] + (d[1..] + [(k, v)]);
        { assert d == [d[0]] + d[1..]; }
        d + [(k, v)];
      }
    }
  }

  /** A key already present keeps its place and takes the new value; the other members stay. */
  lemma {:induction false} AssignAt(d: seq<(string, Json)>, k: string, v: Json, i: nat)
    requires DistinctKeys(d) && i < |d|
    ensures Assign(d, k, v)[i] == if d[i].0 == k then (k, v) else d[i]
    decreases i
  {
    var rest := d[1..];
    if i > 0 {
      assert d[i] == rest[i - 1];
      if d[0].0 == k {
        assert d[i].0 != d[0].0;
        assert Assign(d, k, v) == [(k, v)] + rest;
      } else {
        Tail(d);
        AssignAt(rest, k, v, i - 1);
        assert Assign(d, k, v) == [d[0]] + Assign(rest, k, v);
      }
    }
  }

  /** Every member of `d[k] = v`, as `AssignAt` states it. */
  lemma AssignValues(d: seq<(string, Json)>, k: string, v: Json)
    requires DistinctKeys(d)
    ensures forall i | 0 <= i < |d| :: Assign(d, k, v)[i] == if d[i].0 == k then (k, v) else d[i]
  {
    forall i | 0 <= i < |d| ensures Assign(d, k, v)[i] == if d[i].0 == k then (k, v) else d[i] {
      AssignAt(d, k, v, i);
    }
  }

  /** Assigning keeps the keys distinct. */
  lemma {:induction false} AssignDistinct(d: seq<(string, Json)>, k: string, v: Json)
    requires DistinctKeys(d)
    ensures DistinctKeys(Assign(d, k, v))
    decreases |d|
  {
    if d != [] {
      Tail(d);
      var rest := d[1..];
      var r := Assign(d, k, v);
      if d[0].0 != k {
        AssignDistinct(rest, k, v);
        forall j | 0 < j < |r| ensures r[j].0 != r[0].0 {
          assert r[j] == Assign(rest, k, v)[j - 1];
        }
      } else {
        forall j | 0 < j < |r| ensures r[j].0 != r[0].0 {
          assert r[j] == rest[j - 1];
        }
      }
      forall i, j | 0 <= i < j < |r| ensures r[i].0 != r[j].0 {
        if i > 0 {
          assert r[i] == r[1..][i - 1] && r[j] == r[1..][j - 1];
        }
      }
    }
  }

  /**
   * `json.load` of an object: the members assigned in document order, so a
   * repeated key keeps its first place and takes its last value.
   */
  function LoadObject(pairs: seq<(string, Json)>): (r: seq<(string, Json)>)
    ensures DistinctKeys(r)
  {
    if pairs == [] then []
    else
      var d := LoadObject(pairs[..|pairs| - 1]);
      AssignDistinct(d, pairs[|pairs| - 1].0, pairs[|pairs| - 1].1);
      Assign(d, pairs[|pairs| - 1].0, pairs[|pairs| - 1].1)
  }

  /** A document without a repeated key loads as written. */
  lemma {:induction false} LoadObjectDistinct(pairs: seq<(string, Json)>)
    requires DistinctKeys(pairs)
    ensures LoadObject(pairs) == pairs
    decreases |pairs|
  {
    if pairs != [] {
      var n := |pairs| - 1;
      var init := pairs[..n];
      PrefixDistinct(pairs);
      LoadObjectDistinct(init);
      AssignNew(init, pairs[n].0, pairs[n].1);
      assert init + [pairs[n]] == pairs;
    }
  }

  /** A member whose key does not occur again is loaded with its value. */
  lemma {:induction false} LoadObjectLastWins(pairs: seq<(string, Json)>, i: nat)
    requires i < |pairs| && forall j | i < j < |pairs| :: pairs[j].0 != pairs[i].0
    ensures pairs[i] in LoadObject(pairs)
    decreases |pairs|
  {
    var n := |pairs| - 1;
    var d := LoadObject(pairs[..n]);
    var (k, v) := pairs[n];
    assert LoadObject(pairs) == Assign(d, k, v);
    if i == n {
      if k in Keys(d) {
        var idx :| 0 <= idx < |d| && Keys(d)[idx] == k;
        AssignAt(d, k, v, idx);
      } else {
        AssignNew(d, k, v);
      }
    } else {
      LoadObjectLastWins(pairs[..n], i);
      var idx :| 0 <= idx < |d| && d[idx] == pairs[i];
      if k in Keys(d) {
        AssignAt(d, k, v, idx);
      } else {
        AssignNew(d, k, v);
        assert Assign(d, k, v)[idx] == d[idx];
      }
    }
  }
}
