/** JSON values, and the Python objects a caller may hand to the canonicalizer. */
module Json {

  /** A JSON value of the permitted kinds. An object keeps the order its members
      were inserted in, as a Python dict does. */
  datatype Value =
    | Null
    | Bool(b: bool)
    | Int(n: int)
    | Str(s: string)
    | List(items: seq<Value>)
    | Obj(members: seq<Member>)

  datatype Member = Member(name: string, value: Value)

  ghost predicate Distinct(ms: seq<Member>) {
    forall i, j :: 0 <= i < j < |ms| ==> ms[i].name != ms[j].name
  }
}
