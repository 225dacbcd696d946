/** The JSON values that the request bodies are made of. An object is a map
    from member names to values: the order in which a literal lists its
    members does not matter to the server reading it. */
module Json {
  import opened Wrappers

  datatype Json =
    | JNull
    | JBool(b: bool)
    | JNum(n: int)
    | JStr(str: string)
    | JArr(items: seq<Json>)
    | JObj(members: map<string, Json>)

  /** `j[key]`, or None when `j` is not an object or has no such member. */
  function Member(j: Json, key: string): Option<Json>
  {
    if j.JObj? && key in j.members then Some(j.members[key]) else None
  }

  /** `j[k0][k1]...`: the value reached by following a path of member names. */
  function At(j: Json, path: seq<string>): Option<Json>
    decreases |path|
  {
    if path == [] then Some(j)
    else
      match Member(j, path[0])
      case None => None
      case Some(child) => At(child, path[1..])
  }
}
