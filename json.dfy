/** The Python values `json.loads` produces, with the two operations the
    meter agent applies to them: truth testing (`if not data`) and
    subscripting by a string key (`data['reads']`). */
module Json {
  import opened Errors

  datatype Json =
    | Null
    | Bool(b: bool)
    | Num(n: real)
    | Str(s: string)
    | Arr(items: seq<Json>)
    | Obj(members: map<string, Json>)

  /** The empty dict `{}`. */
  const Empty: Json := Obj(map[])

  /** Python truthiness: None, False, zero and empty containers are false. */
  predicate Truthy(j: Json)
  {
    match j
    case Null => false
    case Bool(b) => b
    case Num(n) => n != 0.0
    case Str(s) => s != []
    case Arr(items) => items != []
    case Obj(members) => members != map[]
  }

  /** `j[key]`: a dict looks the key up (KeyError when absent); every other
      value rejects a string subscript with TypeError. */
  function Index(j: Json, key: string): (r: Result<Json>)
    ensures r.Ok? <==> j.Obj? && key in j.members
    ensures r.Ok? ==> r.value == j.members[key]
    ensures r.Err? ==> r.error == (if j.Obj? then KeyError(key) else TypeError)
  {
    match j
    case Obj(members) => if key in members then Ok(members[key]) else Err(KeyError(key))
    case _ => Err(TypeError)
  }

  /** `j[k1][k2]`, the first failing subscript raising. */
  function Index2(j: Json, k1: string, k2: string): (r: Result<Json>)
    ensures r.Ok? <==> Index(j, k1).Ok? && Index(Index(j, k1).value, k2).Ok?
    ensures r.Ok? ==> r.value == Index(Index(j, k1).value, k2).value
  {
    var inner :- Index(j, k1);
    Index(inner, k2)
  }

  /** `for x in j`: a list yields its items, a str its one-character
      strings; None, booleans and numbers are not iterable. A dict yields
      its keys, which makes every loop body here fail on its first
      subscript whatever the key order, so a non-empty dict is reported as
      that TypeError and an empty one as no items. */
  function Items(j: Json): (r: Result<seq<Json>>)
    ensures j.Arr? ==> r == Ok(j.items)
    ensures j.Str? ==> r.Ok? && |r.value| == |j.s| && forall i :: 0 <= i < |j.s| ==> r.value[i] == Str([j.s[i]])
    ensures r.Ok? ==> j.Arr? || j.Str? || j == Empty
    ensures j == Empty ==> r == Ok([])
    ensures r.Err? ==> r.error == TypeError
  {
    match j
    case Arr(items) => Ok(items)
    case Str(s) => Ok(seq(|s|, i requires 0 <= i < |s| => Str([s[i]])))
    case Obj(members) => if members == map[] then Ok([]) else Err(TypeError)
    case _ => Err(TypeError)
  }
}
