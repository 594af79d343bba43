/**
 * The JSON request bodies the connector builds. Objects keep their members in
 * insertion order, as the dynamic objects of the connector are serialised.
 */
module Json {
  import opened Wrappers

  datatype Value =
    | Str(s: string)
    | Arr(elems: seq<Value>)
    | Obj(members: seq<(string, Value)>)

  /** The value of the first member named `key` of an object, if any. */
  function Find(members: seq<(string, Value)>, key: string): (r: Option<Value>)
    ensures r.Some? ==> (key, r.value) in members
    ensures r.None? <==> forall m | m in members :: m.0 != key
  {
    if members == [] then None
    else if members[0].0 == key then Some(members[0].1)
    else Find(members[1..], key)
  }

  /** `j.key` for an object `j`; nothing for an array or a string. */
  function Member(j: Value, key: string): (r: Option<Value>)
    ensures r.Some? ==> j.Obj? && (key, r.value) in j.members
    ensures r.None? <==> !j.Obj? || forall m | m in j.members :: m.0 != key
  {
    if j.Obj? then Find(j.members, key) else None
  }

  /** `o.key` when `o` is an object, so that member accesses can be chained. */
  function Child(o: Option<Value>, key: string): (r: Option<Value>)
    ensures r.Some? ==> o.Some? && Member(o.value, key) == r
  {
    match o
    case None => None
    case Some(j) => Member(j, key)
  }
}
