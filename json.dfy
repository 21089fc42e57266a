/** JSON values as `json.load` leaves them in memory, paths into them, and the
    in-place assignment `j[p1][p2]...[key] = v` the helper performs on them. */
module Json {
  import opened Wrappers

  /** A JSON value. An object is a map: Python compares dicts without regard to key
      order, so map equality is the equality that the membership test `p in x`
      of the link step uses. (Floating-point numbers are not modelled.) */
  datatype Json =
    | JNull
    | JBool(b: bool)
    | JInt(n: int)
    | JString(s: string)
    | JArray(items: seq<Json>)
    | JObject(fields: map<string, Json>)

  /** One subscript of a path: a dict key or a list index. */
  datatype Step = Key(key: string) | Index(index: nat)

  function Str(s: string): Json {
    JString(s)
  }

  /** `{ "Ref" : name }`: a reference to a logical name. */
  function Ref(name: string): Json {
    JObject(map["Ref" := JString(name)])
  }

  /** `{ "Fn::GetAtt" : [ name, attribute ] }` */
  function GetAtt(name: string, attribute: string): Json {
    JObject(map["Fn::GetAtt" := JArray([JString(name), JString(attribute)])])
  }

  /** `{ "Fn::Join" : [ separator, [ parts ] ] }` */
  function Join(separator: string, parts: seq<Json>): Json {
    JObject(map["Fn::Join" := JArray([JString(separator), JArray(parts)])])
  }

  /** `{ "Fn::Sub" : text }` */
  function Sub(text: string): Json {
    JObject(map["Fn::Sub" := JString(text)])
  }

  /** `{ "Fn::Base64" : j }` */
  function Base64(j: Json): Json {
    JObject(map["Fn::Base64" := j])
  }

  /** `j[path[0]][path[1]]...`, or None where Python would raise KeyError,
      IndexError or TypeError. */
  function Get(j: Json, path: seq<Step>): Option<Json>
    decreases |path|
  {
    if path == [] then Some(j)
    else match path[0]
      case Key(k) => if j.JObject? && k in j.fields then Get(j.fields[k], path[1..]) else None
      case Index(i) => if j.JArray? && i < |j.items| then Get(j.items[i], path[1..]) else None
  }

  /** The subscripts of `path` all succeed and end at a dict. */
  predicate IsObjectAt(j: Json, path: seq<Step>) {
    Get(j, path).Some? && Get(j, path).value.JObject?
  }

  function FieldsAt(j: Json, path: seq<Step>): map<string, Json>
    requires IsObjectAt(j, path)
  {
    Get(j, path).value.fields
  }

  /** The value of `j` after `j[path...][key] = v`. Only the dict at `path` gains or
      changes the entry `key`; at the top, every entry off the path is untouched. */
  function SetField(j: Json, path: seq<Step>, key: string, v: Json): (r: Json)
    requires IsObjectAt(j, path)
    ensures IsObjectAt(r, path)
    ensures FieldsAt(r, path) == FieldsAt(j, path)[key := v]
    ensures path != [] && path[0].Key? ==>
              && r.JObject? && j.JObject?
              && (forall k :: k in r.fields <==> k in j.fields)
              && forall k :: k in j.fields && k != path[0].key ==> r.fields[k] == j.fields[k]
    decreases |path|
  {
    if path == [] then JObject(j.fields[key := v])
    else match path[0]
      case Key(k) => JObject(j.fields[k := SetField(j.fields[k], path[1..], key, v)])
      case Index(i) => JArray(j.items[i := SetField(j.items[i], path[1..], key, v)])
  }

  /** Assigning the value a dict entry already holds leaves the whole value as it was. */
  lemma {:induction false} SetFieldUnchanged(j: Json, path: seq<Step>, key: string, v: Json)
    requires IsObjectAt(j, path)
    requires key in FieldsAt(j, path) && FieldsAt(j, path)[key] == v
    ensures SetField(j, path, key, v) == j
    decreases |path|
  {
    if path == [] {
      assert j.fields[key := v] == j.fields;
    } else {
      match path[0]
      case Key(k) =>
        SetFieldUnchanged(j.fields[k], path[1..], key, v);
        assert j.fields[k := j.fields[k]] == j.fields;
      case Index(i) =>
        SetFieldUnchanged(j.items[i], path[1..], key, v);
        assert j.items[i := j.items[i]] == j.items;
    }
  }
}
