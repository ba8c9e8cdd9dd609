/** Decoded JSON documents, and reading strings out of Kubernetes objects. */
module JsonValue {
  import opened Wrappers

  datatype Json =
    | Null
    | Bool(bit: bool)
    | Number(digits: string)
    | String(text: string)
    | Array(elements: seq<Json>)
    | Object(fields: map<string, Json>)

  type Fields = map<string, Json>

  /** What a document holds at a path of keys. */
  function FieldAt(json: Json, path: seq<string>): Option<Json>
    decreases |path|
  {
    if path == [] then Some(json)
    else if json.Object? && path[0] in json.fields then FieldAt(json.fields[path[0]], path[1..])
    else None
  }

  function TextAt(json: Json, path: seq<string>): string {
    match FieldAt(json, path)
    case Some(String(text)) => text
    case _ => ""
  }

  /** The string of that field; "" when there is none, or it is no string. */
  function StringAt(fields: Fields, key: string): string {
    if key in fields && fields[key].String? then fields[key].text else ""
  }

  /** The same below the object's metadata. */
  function MetadataAt(fields: Fields, key: string): string {
    if "metadata" in fields && fields["metadata"].Object? then StringAt(fields["metadata"].fields, key) else ""
  }

  lemma ReadersReadPaths(fields: Fields, key: string)
    ensures StringAt(fields, key) == TextAt(Object(fields), [key])
    ensures MetadataAt(fields, key) == TextAt(Object(fields), ["metadata", key])
  {
    OneKey(Object(fields), key);
    var path := ["metadata", key];
    assert path[1..] == [key];
    if "metadata" in fields {
      OneKey(fields["metadata"], key);
      assert FieldAt(Object(fields), path) == FieldAt(fields["metadata"], [key]);
    }
  }

  lemma OneKey(json: Json, key: string)
    ensures FieldAt(json, [key]) == if json.Object? && key in json.fields then Some(json.fields[key]) else None
  {
    assert [key][1..] == [];
    if json.Object? && key in json.fields {
      assert FieldAt(json.fields[key], []) == Some(json.fields[key]);
    }
  }
}
