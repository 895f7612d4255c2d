/** The part of a jsoncpp `Json::Value` that the exporter writes and the
    test oracle reads: null, strings, arrays and objects. An object is a
    map from member name to value, as jsoncpp keeps it (one value per
    name, member names enumerated in sorted order). */
module JsonValue {

  datatype Option<T> = None | Some(value: T)

  datatype Json =
    | JNull
    | JString(str: string)
    | JArray(items: seq<Json>)
    | JObject(members: map<string, Json>)

  /** `value[name]` on a const value: the member, or null when the value
      is not an object or has no such member. */
  function Get(v: Json, name: string): Json {
    if v.JObject? && name in v.members then v.members[name] else JNull
  }

  /** `getMemberNames()`: the member names of an object, none for null;
      jsoncpp refuses (throws) for any other kind of value. */
  function MemberNames(v: Json): Option<set<string>> {
    match v
    case JObject(m) => Some(m.Keys)
    case JNull => Some({})
    case _ => None
  }

  /** Whether `asString()` succeeds: jsoncpp converts null to "" and
      throws for arrays and objects. */
  predicate Convertible(v: Json) {
    v.JString? || v.JNull?
  }

  /** `asString()` on a convertible value. */
  function AsString(v: Json): string
    requires Convertible(v)
  {
    if v.JString? then v.str else ""
  }

  /** The strings of `xs`, each wrapped as a JSON string, in order. */
  function JStrings(xs: seq<string>): (r: seq<Json>)
    ensures |r| == |xs|
    ensures forall i :: 0 <= i < |xs| ==> r[i] == JString(xs[i])
  {
    seq(|xs|, i requires 0 <= i < |xs| => JString(xs[i]))
  }

  lemma JStringsSnoc(xs: seq<string>, x: string)
    ensures JStrings(xs + [x]) == JStrings(xs) + [JString(x)]
  {
  }

  /** `value.append(x)`: a null value becomes a one-element array, an array
      grows by x. jsoncpp refuses to append to anything else. */
  function Append(v: Json, x: Json): Json
    requires v.JNull? || v.JArray?
  {
    if v.JArray? then JArray(v.items + [x]) else JArray([x])
  }

  /** `value[name] = x`: a null value becomes an object; the member is
      added or overwritten. */
  function SetMember(v: Json, name: string, x: Json): Json
    requires v.JNull? || v.JObject?
  {
    JObject((if v.JObject? then v.members else map[])[name := x])
  }

  /** `record[name] = value` done only under some condition: the member
      is added (or overwritten) when `present` holds, and the record is
      otherwise left as it was. */
  function Put(m: map<string, Json>, present: bool, name: string, value: Json): map<string, Json> {
    if present then m[name := value] else m
  }
}
