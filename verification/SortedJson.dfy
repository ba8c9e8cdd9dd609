/** Rebuilding a JSON document with the keys of every object in byte order, so that it is
    written the same way every time. */
module SortedJson {
  import opened JsonValue
  import opened Sorting

  /** A document as it is written: object entries have an order. */
  datatype Written =
    | Scalar(value: Json)
    | List(items: seq<Written>)
    | Record(keys: seq<string>, values: seq<Written>)

  /** `w` is `v`, with the keys of every object in byte order and each once. */
  predicate Writes(w: Written, v: Json)
    decreases v
  {
    match (w, v)
    case (Record(keys, values), Object(fields)) =>
      |values| == |keys| && Increasing(keys) && fields.Keys == (set k | k in keys) &&
      forall i :: 0 <= i < |keys| ==> keys[i] in keys && Writes(values[i], fields[keys[i]])
    case (List(items), Array(elements)) =>
      |items| == |elements| && forall i :: 0 <= i < |items| ==> Writes(items[i], elements[i])
    case (Scalar(value), _) => value == v && !v.Object? && !v.Array?
    case _ => false
  }

  /** The first `i` keys are copied, and their values written. */
  ghost predicate Filled(fields: map<string, Json>, keys: seq<string>, i: nat, out: map<string, Json>,
                         values: seq<Written>) {
    && |values| == i <= |keys| && out.Keys == (set k | k in keys[..i])
    && (forall k :: k in out ==> k in fields && out[k] == fields[k])
    && (forall j :: 0 <= j < i ==> keys[j] in fields && Writes(values[j], fields[keys[j]]))
  }

  lemma FillOne(fields: map<string, Json>, keys: seq<string>, i: nat, out: map<string, Json>, values: seq<Written>,
                w: Written)
    requires Filled(fields, keys, i, out, values) && i < |keys| && keys[i] in fields && Writes(w, fields[keys[i]])
    ensures Filled(fields, keys, i + 1, out[keys[i] := fields[keys[i]]], values + [w])
  {
    assert keys[..i + 1] == keys[..i] + [keys[i]];
  }

  lemma FilledIsWritten(fields: map<string, Json>, keys: seq<string>, out: map<string, Json>, values: seq<Written>)
    requires Filled(fields, keys, |keys|, out, values) && Increasing(keys) && fields.Keys == set k | k in keys
    ensures out == fields && Writes(Record(keys, values), Object(fields))
  {
    assert keys[..|keys|] == keys;
    assert forall i :: 0 <= i < |keys| ==> keys[i] in keys;
  }

  /** The source rebuilds every object key by key, in sorted order; `w` records the order. */
  method SortJson(v: Json) returns (r: Json, w: Written)
    ensures r == v && Writes(w, v)
    decreases v
  {
    match v {
      case Object(fields) =>
        var keys := SortedKeys(fields.Keys);
        var out: map<string, Json> := map[];
        var values: seq<Written> := [];
        for i := 0 to |keys|
          invariant Filled(fields, keys, i, out, values)
        {
          assert keys[i] in keys;
          var sorted, written := SortJson(fields[keys[i]]);
          FillOne(fields, keys, i, out, values, written);
          out := out[keys[i] := sorted];
          values := values + [written];
        }
        FilledIsWritten(fields, keys, out, values);
        r, w := Object(out), Record(keys, values);
      case Array(elements) =>
        var out: seq<Json> := [];
        var items: seq<Written> := [];
        for i := 0 to |elements|
          invariant out == elements[..i]
          invariant |items| == i && forall j :: 0 <= j < i ==> Writes(items[j], elements[j])
        {
          var sorted, written := SortJson(elements[i]);
          out := out + [sorted];
          items := items + [written];
        }
        r, w := Array(out), List(items);
      case _ =>
        r, w := v, Scalar(v);
    }
  }

  /** The keys, as a map is ranged over: in any order. */
  method ListedKeys(keys: set<string>) returns (listed: seq<string>)
    ensures Distinct(listed) && forall k :: k in keys <==> k in listed
  {
    listed := [];
    var rest := keys;
    while rest != {}
      invariant forall k :: k in keys <==> k in rest || k in listed
      invariant Distinct(listed) && forall k :: k in listed ==> k !in rest
      decreases |rest|
    {
      var k :| k in rest;
      rest := rest - {k};
      listed := listed + [k];
    }
  }

  /** The keys, in byte order. */
  method SortedKeys(keys: set<string>) returns (sorted: seq<string>)
    ensures Increasing(sorted) && keys == set k | k in sorted
  {
    var listed := ListedKeys(keys);
    var a := new string[|listed|](i requires 0 <= i < |listed| => listed[i]);
    assert a[..] == listed;
    LessIsAnOrder();
    SortSlice(a, Less);
    sorted := a[..];
    PermutationIsDistinct(listed, sorted);
    SortedDistinctIsIncreasing(sorted);
    SameElements(listed, sorted);
  }

  lemma SameElements(s: seq<string>, t: seq<string>)
    requires multiset(s) == multiset(t)
    ensures forall x :: x in s <==> x in t
  {
    assert forall x :: x in s <==> x in multiset(s);
    assert forall x :: x in t <==> x in multiset(t);
  }

  /** A value is written one way only: the order a map is ranged over never shows. */
  lemma {:induction false} WrittenOneWay(a: Written, b: Written, v: Json)
    requires Writes(a, v) && Writes(b, v)
    ensures a == b
    decreases v
  {
    match v {
      case Object(fields) =>
        assert forall k :: k in a.keys <==> k in fields.Keys;
        assert forall k :: k in b.keys <==> k in fields.Keys;
        IncreasingIsUnique(a.keys, b.keys);
        forall i | 0 <= i < |a.keys|
          ensures a.values[i] == b.values[i]
        {
          WrittenOneWay(a.values[i], b.values[i], fields[a.keys[i]]);
        }
        assert a.values == b.values;
      case Array(elements) =>
        forall i | 0 <= i < |elements|
          ensures a.items[i] == b.items[i]
        {
          WrittenOneWay(a.items[i], b.items[i], elements[i]);
        }
        assert a.items == b.items;
      case _ =>
    }
  }

  /** And it can be read back: different values are written differently. */
  lemma {:induction false} WrittenReadsBack(w: Written, a: Json, b: Json)
    requires Writes(w, a) && Writes(w, b)
    ensures a == b
    decreases a
  {
    match a {
      case Object(fields) =>
        forall k | k in fields
          ensures k in b.fields && b.fields[k] == fields[k]
        {
          var i :| 0 <= i < |w.keys| && w.keys[i] == k;
          WrittenReadsBack(w.values[i], fields[k], b.fields[k]);
        }
        assert fields == b.fields;
      case Array(elements) =>
        forall i | 0 <= i < |elements|
          ensures elements[i] == b.elements[i]
        {
          WrittenReadsBack(w.items[i], elements[i], b.elements[i]);
        }
        assert elements == b.elements;
      case _ =>
    }
  }
}
