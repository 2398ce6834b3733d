// JSON values as Python's json module hands them to the worker, with the dynamic
// operations (`get`, truthiness, `in`) the source applies to them.
module Json {
  datatype Option<+T> = None | Some(value: T)

  datatype Json =
    | JNull
    | JBool(b: bool)
    | JNum(n: real)
    | JStr(s: string)
    | JArr(items: seq<Json>)
    | JObj(fields: map<string, Json>)

  // The exceptions a dynamically typed access can raise.
  datatype PyError = AttributeError | TypeError | ValueError

  datatype Py<+T> = Ok(value: T) | Raise(error: PyError) {
    predicate IsFailure() {
      Raise?
    }

    function PropagateFailure<U>(): Py<U>
      requires Raise?
    {
      Raise(error)
    }

    function Extract(): T
      requires Ok?
    {
      value
    }
  }

  // bool(j): empty containers, zero, false and null are falsy.
  predicate Truthy(j: Json) {
    match j
    case JNull => false
    case JBool(b) => b
    case JNum(n) => n != 0.0
    case JStr(s) => s != ""
    case JArr(items) => items != []
    case JObj(fields) => fields != map[]
  }

  // Nothing else is.
  lemma FalsyValues(j: Json)
    ensures !Truthy(j) <==> j in {JNull, JBool(false), JNum(0.0), JStr(""), JArr([]), JObj(map[])}
  {
  }

  // j.get(key, default); only a dict has `get`.
  function GetOr(j: Json, key: string, default: Json): Py<Json> {
    if !j.JObj? then Raise(AttributeError)
    else if key in j.fields then Ok(j.fields[key])
    else Ok(default)
  }

  // j.get(key): Python's None and JSON's null are the same value here.
  function Get(j: Json, key: string): Py<Json> {
    GetOr(j, key, JNull)
  }

  // Looks up a key of a dict, for readers that expect it to be there.
  function At(j: Json, key: string): Option<Json> {
    if j.JObj? && key in j.fields then Some(j.fields[key]) else None
  }

  // sub in s
  predicate Contains(s: string, sub: string) {
    sub <= s || (s != "" && Contains(s[1..], sub))
  }

  predicate OccursAt(s: string, sub: string, i: nat) {
    i + |sub| <= |s| && s[i..i + |sub|] == sub
  }

  // It looks at every place.
  lemma {:induction false} ContainsIsOccurrence(s: string, sub: string)
    ensures Contains(s, sub) <==> exists i: nat :: OccursAt(s, sub, i)
  {
    if sub <= s {
      assert OccursAt(s, sub, 0);
    } else if s != [] {
      ContainsIsOccurrence(s[1..], sub);
      if Contains(s[1..], sub) {
        var i: nat :| OccursAt(s[1..], sub, i);
        assert OccursAt(s, sub, i + 1);
      }
      if i: nat :| OccursAt(s, sub, i) {
        assert i > 0;
        assert OccursAt(s[1..], sub, i - 1);
      }
    }
  }
}
