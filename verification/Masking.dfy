/** Masking volatile values in a decoded JSON document. */
module Masking {
  import opened JsonValue
  import opened Quantity
  import opened Wrappers

  const MASKED := String("<masked>")

  const MASKED_FIELDS: set<string> := {
    "resourceVersion", "creationTimestamp", "managedFields", "uid", "generation", "confirmationToken", "expiresAt",
    "ExpiresAt", "token", "nonce"}

  const METRICS_CONTAINERS: set<string> := {"metrics", "usage", "Metrics", "Usage"}

  predicate IsNumeric(v: Json) { v.Number? || (v.String? && IsQuantity(v.text)) }

  predicate InMetrics(m: bool, key: string) { m || key in METRICS_CONTAINERS }

  /** The entry's value is overwritten. */
  predicate Replaced(key: string, v: Json, m: bool) { key in MASKED_FIELDS || (InMetrics(m, key) && IsNumeric(v)) }

  function MaskEntry(key: string, v: Json, m: bool): Json
    decreases v, 1
  {
    if Replaced(key, v, m) then MASKED else Mask(v, InMetrics(m, key))
  }

  function Mask(v: Json, m: bool): Json
    decreases v, 0
  {
    match v
    case Object(fields) => Object(map key | key in fields :: MaskEntry(key, fields[key], m))
    case Array(elements) => Array(seq(|elements|, i requires 0 <= i < |elements| => Mask(elements[i], m)))
    case _ => v
  }

  /** The walk overwrites entries one by one, in any order. */
  method MaskVolatile(v: Json, m: bool) returns (r: Json)
    ensures r == Mask(v, m)
    decreases v
  {
    match v {
      case Object(fields) =>
        var t, rest := fields, fields.Keys;
        while rest != {}
          invariant MaskedBut(fields, t, rest, m)
          decreases |rest|
        {
          var key :| key in rest;
          MaskOneMore(fields, t, rest, m, key);
          rest := rest - {key};
          var val := t[key];
          if key in MASKED_FIELDS {
            t := t[key := MASKED];
            continue;
          }
          var childMetrics := m || key in METRICS_CONTAINERS;
          if childMetrics && IsNumeric(val) {
            t := t[key := MASKED];
            continue;
          }
          var masked := MaskVolatile(val, childMetrics);
          t := t[key := masked];
        }
        AllFieldsMasked(fields, t, m);
        r := Object(t);
      case Array(elements) =>
        var t := elements;
        for i := 0 to |elements|
          invariant MaskedUpTo(elements, t, i, m)
        {
          MaskOneElement(elements, t, i, m);
          var masked := MaskVolatile(t[i], m);
          t := t[i := masked];
        }
        AllElementsMasked(elements, t, m);
        r := Array(t);
      case _ =>
        r := v;
    }
  }

  ghost predicate MaskedUpTo(elements: seq<Json>, t: seq<Json>, i: nat, m: bool) {
    |t| == |elements| && forall j :: 0 <= j < |t| ==> t[j] == if j < i then Mask(elements[j], m) else elements[j]
  }

  /** Every entry is masked except those still to be walked. */
  ghost predicate MaskedBut(fields: map<string, Json>, t: map<string, Json>, rest: set<string>, m: bool) {
    && rest <= fields.Keys == t.Keys
    && forall key :: key in fields ==> t[key] == if key in rest then fields[key] else MaskEntry(key, fields[key], m)
  }

  lemma MaskOneMore(fields: map<string, Json>, t: map<string, Json>, rest: set<string>, m: bool, key: string)
    requires MaskedBut(fields, t, rest, m) && key in rest
    ensures key in fields && key in t && t[key] == fields[key]
    ensures MaskedBut(fields, t[key := MaskEntry(key, fields[key], m)], rest - {key}, m)
  {
  }

  lemma AllFieldsMasked(fields: map<string, Json>, t: map<string, Json>, m: bool)
    requires MaskedBut(fields, t, {}, m)
    ensures Object(t) == Mask(Object(fields), m)
  {
    assert t == Mask(Object(fields), m).fields;
  }

  lemma MaskOneElement(elements: seq<Json>, t: seq<Json>, i: nat, m: bool)
    requires MaskedUpTo(elements, t, i, m) && i < |elements|
    ensures t[i] == elements[i] && MaskedUpTo(elements, t[i := Mask(elements[i], m)], i + 1, m)
  {
  }

  lemma AllElementsMasked(elements: seq<Json>, t: seq<Json>, m: bool)
    requires MaskedUpTo(elements, t, |elements|, m)
    ensures Array(t) == Mask(Array(elements), m)
  {
    assert t == Mask(Array(elements), m).elements;
  }

  lemma MaskedIsNotQuantity()
    ensures !IsNumeric(MASKED)
  {
    assert NumberEnd("<masked>") == 0;
  }

  /** What masking does to one entry: these keys lose any value, and the metrics keys any
      number, written as one or as a quantity. */
  lemma MaskedEntry(key: string, v: Json, m: bool)
    ensures Replaced(key, v, m) <==>
      || key == "resourceVersion" || key == "creationTimestamp" || key == "managedFields" || key == "uid"
      || key == "generation" || key == "confirmationToken" || key == "expiresAt" || key == "ExpiresAt"
      || key == "token" || key == "nonce"
      || ((m || key == "metrics" || key == "usage" || key == "Metrics" || key == "Usage") &&
          (v.Number? || (v.String? && IsQuantity(v.text))))
    ensures Replaced(key, v, m) ==> Mask(Object(map[key := v]), m) == Object(map[key := String("<masked>")])
  {
    var fields := map[key := v];
    var masked := Mask(Object(fields), m);
    assert masked.fields.Keys == fields.Keys && masked.fields[key] == MaskEntry(key, fields[key], m);
    if Replaced(key, v, m) {
      assert masked.fields == map[key := String("<masked>")];
    }
  }

  /** Masking again changes nothing. */
  lemma {:induction false} MaskIdempotent(v: Json, m: bool)
    ensures Mask(Mask(v, m), m) == Mask(v, m)
  {
    match v {
      case Object(fields) =>
        forall key | key in fields
          ensures MaskEntry(key, MaskEntry(key, fields[key], m), m) == MaskEntry(key, fields[key], m)
        {
          MaskedIsNotQuantity();
          MaskIdempotent(fields[key], InMetrics(m, key));
        }
        assert Mask(Mask(v, m), m).fields == Mask(v, m).fields;
      case Array(elements) =>
        forall i | 0 <= i < |elements|
          ensures Mask(Mask(elements[i], m), m) == Mask(elements[i], m)
        {
          MaskIdempotent(elements[i], m);
        }
        assert Mask(Mask(v, m), m).elements == Mask(v, m).elements;
      case _ =>
    }
  }

  /** An entry that reads as masked afterwards. */
  predicate Hidden(key: string, v: Json, m: bool) { Replaced(key, v, m) || v == MASKED }

  /** Both entries are hidden, or neither is and their values differ only below. */
  predicate SameEntry(key: string, v: Json, w: Json, m: bool)
    decreases v, 1
  {
    && (Hidden(key, v, m) <==> Hidden(key, w, m))
    && (Hidden(key, v, m) || SameUpToHidden(v, w, InMetrics(m, key)))
  }

  /** The trees differ only in hidden entries. */
  predicate SameUpToHidden(a: Json, b: Json, m: bool)
    decreases a, 0
  {
    match (a, b)
    case (Object(f), Object(g)) => f.Keys == g.Keys && forall key :: key in f ==> SameEntry(key, f[key], g[key], m)
    case (Array(s), Array(t)) => |s| == |t| && forall i :: 0 <= i < |s| ==> SameUpToHidden(s[i], t[i], m)
    case _ => a == b
  }

  /** Two trees mask alike exactly when they differ only in hidden entries. */
  lemma {:induction false} MaskAlikeIffSameUpToHidden(a: Json, b: Json, m: bool)
    ensures Mask(a, m) == Mask(b, m) <==> SameUpToHidden(a, b, m)
  {
    match (a, b) {
      case (Object(f), Object(g)) =>
        forall key | key in f && key in g
          ensures MaskEntry(key, f[key], m) == MaskEntry(key, g[key], m) <==> SameEntry(key, f[key], g[key], m)
        {
          MaskAlikeIffSameUpToHidden(f[key], g[key], InMetrics(m, key));
        }
        ObjectsAlike(f, g, m);
      case (Array(s), Array(t)) =>
        forall i | 0 <= i < |s| && i < |t|
          ensures Mask(s[i], m) == Mask(t[i], m) <==> SameUpToHidden(s[i], t[i], m)
        {
          MaskAlikeIffSameUpToHidden(s[i], t[i], m);
        }
        ArraysAlike(s, t, m);
      case _ =>
    }
  }

  lemma ObjectsAlike(f: map<string, Json>, g: map<string, Json>, m: bool)
    ensures Mask(Object(f), m) == Mask(Object(g), m) <==>
      f.Keys == g.Keys && forall key :: key in f ==> MaskEntry(key, f[key], m) == MaskEntry(key, g[key], m)
  {
    var mf, mg := Mask(Object(f), m).fields, Mask(Object(g), m).fields;
    assert mf.Keys == f.Keys && mg.Keys == g.Keys;
    if f.Keys == g.Keys {
      assert mf == mg <==> forall key :: key in f ==> mf[key] == mg[key];
    }
  }

  lemma ArraysAlike(s: seq<Json>, t: seq<Json>, m: bool)
    ensures Mask(Array(s), m) == Mask(Array(t), m) <==>
      |s| == |t| && forall i :: 0 <= i < |s| ==> Mask(s[i], m) == Mask(t[i], m)
  {
    var ms, mt := Mask(Array(s), m).elements, Mask(Array(t), m).elements;
    assert |ms| == |s| && |mt| == |t|;
    assert forall i :: 0 <= i < |s| ==> ms[i] == Mask(s[i], m);
    assert forall i :: 0 <= i < |t| ==> mt[i] == Mask(t[i], m);
    if |s| == |t| {
      assert ms == mt <==> forall i :: 0 <= i < |s| ==> ms[i] == mt[i];
    }
  }

  /** So a document and its mask differ only in hidden entries. */
  lemma MaskChangesOnlyHidden(v: Json, m: bool)
    ensures SameUpToHidden(v, Mask(v, m), m)
  {
    MaskIdempotent(v, m);
    MaskAlikeIffSameUpToHidden(v, Mask(v, m), m);
  }

  datatype Step = Key(key: string) | Index(index: nat)

  function Child(v: Json, step: Step): Option<Json> {
    match (v, step)
    case (Object(fields), Key(key)) => if key in fields then Some(fields[key]) else None
    case (Array(elements), Index(i)) => if i < |elements| then Some(elements[i]) else None
    case _ => None
  }

  function At(v: Json, path: seq<Step>): Option<Json>
    decreases |path|
  {
    if path == [] then Some(v)
    else
      match Child(v, path[0])
      case None => None
      case Some(child) => At(child, path[1..])
  }

  function InMetricsAt(m: bool, path: seq<Step>): bool {
    m || exists i :: 0 <= i < |path| && path[i].Key? && path[i].key in METRICS_CONTAINERS
  }

  /** Which entry along the path is overwritten first, if any: after how many steps. */
  function FirstReplaced(v: Json, m: bool, path: seq<Step>): (n: nat)
    ensures n <= |path| + 1
    decreases |path|
  {
    if path == [] || Child(v, path[0]).None? then |path| + 1
    else if path[0].Key? && Replaced(path[0].key, Child(v, path[0]).value, m) then 1
    else 1 + FirstReplaced(Child(v, path[0]).value, InMetricsAt(m, path[..1]), path[1..])
  }

  /** What masking leaves at each path: the mask at an overwritten entry, nothing below
      it, and everywhere else what was there, its own entries masked. */
  lemma {:induction false} MaskAtPath(v: Json, m: bool, path: seq<Step>)
    ensures var n := FirstReplaced(v, m, path);
      At(Mask(v, m), path) ==
        if n == |path| then Some(MASKED)
        else if n < |path| || At(v, path).None? then None
        else Some(Mask(At(v, path).value, InMetricsAt(m, path)))
    decreases |path|
  {
    if path != [] && Child(v, path[0]).Some? {
      var child := Child(v, path[0]).value;
      if path[0].Key? && Replaced(path[0].key, child, m) {
        assert path[1..] != [] ==> Child(MASKED, path[1]).None?;
      } else {
        var below := InMetricsAt(m, path[..1]);
        MaskAtPath(child, below, path[1..]);
        MetricsBelow(m, path);
      }
    }
  }

  lemma MetricsBelow(m: bool, path: seq<Step>)
    requires path != []
    ensures InMetricsAt(InMetricsAt(m, path[..1]), path[1..]) == InMetricsAt(m, path)
    ensures InMetricsAt(m, path[..1]) == (if path[0].Key? then InMetrics(m, path[0].key) else m)
  {
    assert path[..1][0] == path[0];
    if i :| 0 <= i < |path| && path[i].Key? && path[i].key in METRICS_CONTAINERS {
      assert i > 0 ==> path[1..][i - 1] == path[i];
    }
    if InMetricsAt(false, path[1..]) {
      var i :| 0 <= i < |path| - 1 && path[1..][i].Key? && path[1..][i].key in METRICS_CONTAINERS;
      assert path[i + 1] == path[1..][i];
    }
  }

  /** No numeric leaf shows below a metrics key. */
  predicate NoNumberShows(v: Json, m: bool) {
    !(m && IsNumeric(v)) &&
    match v
    case Object(fields) => forall key :: key in fields ==> NoNumberShows(fields[key], InMetrics(m, key))
    case Array(elements) => forall i :: 0 <= i < |elements| ==> NoNumberShows(elements[i], m)
    case _ => true
  }

  /** No array below a metrics key holds a number itself, except where an entry above
      it is overwritten. */
  predicate NoNumberInArrays(v: Json, m: bool) {
    match v
    case Object(fields) =>
      forall key :: key in fields ==> Replaced(key, fields[key], m) || NoNumberInArrays(fields[key], InMetrics(m, key))
    case Array(elements) =>
      forall i :: 0 <= i < |elements| ==> !(m && IsNumeric(elements[i])) && NoNumberInArrays(elements[i], m)
    case _ => true
  }

  lemma {:induction false} NumbersShowIff(v: Json, m: bool)
    ensures NoNumberShows(Mask(v, m), m) <==> !(m && IsNumeric(v)) && NoNumberInArrays(v, m)
  {
    match v {
      case Object(fields) =>
        MaskedIsNotQuantity();
        forall key | key in fields
          ensures NoNumberShows(MaskEntry(key, fields[key], m), InMetrics(m, key)) <==>
            Replaced(key, fields[key], m) || NoNumberInArrays(fields[key], InMetrics(m, key))
        {
          NumbersShowIff(fields[key], InMetrics(m, key));
        }
        assert forall key :: key in fields ==> Mask(v, m).fields[key] == MaskEntry(key, fields[key], m);
      case Array(elements) =>
        forall i | 0 <= i < |elements|
          ensures NoNumberShows(Mask(elements[i], m), m) <==>
            !(m && IsNumeric(elements[i])) && NoNumberInArrays(elements[i], m)
        {
          NumbersShowIff(elements[i], m);
        }
        assert forall i :: 0 <= i < |elements| ==> Mask(v, m).elements[i] == Mask(elements[i], m);
      case _ =>
    }
  }

  /** Every numeric leaf below a metrics key is masked exactly when no array there holds
      a number directly: such a number stays. */
  lemma EveryNumericLeafMaskedIff(v: Json)
    ensures NoNumberShows(Mask(v, false), false) <==> NoNumberInArrays(v, false)
    ensures exists w :: !NoNumberShows(Mask(w, false), false)
  {
    NumbersShowIff(v, false);
    var w := Object(map["usage" := Array([Number("1")])]);
    NumbersShowIff(w, false);
    assert InMetrics(false, "usage") && !Replaced("usage", w.fields["usage"], false);
    assert IsNumeric(w.fields["usage"].elements[0]);
  }
}
