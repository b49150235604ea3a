/** A decoded JSON value, as `response.json()` hands it to Python, and the handful of
    Python operations the bridge applies to it: `d.get(k, default)`, `d[k]`, truthiness,
    `for x in v`, `json.dumps` and `str()`. */
module Json {
  import opened Wrappers
  import opened PyStrings
  import opened Faults

  /** Objects keep their members in order, as Python dicts do; a decoded object never
      repeats a key, so a lookup takes the first member with that key. */
  datatype Json =
    | JNull
    | JBool(b: bool)
    | JInt(n: int)
    | JString(s: string)
    | JArray(items: seq<Json>)
    | JObject(fields: seq<(string, Json)>)

  /** Python truthiness of the decoded value. */
  predicate Truthy(j: Json)
  {
    match j
    case JNull => false
    case JBool(b) => b
    case JInt(n) => n != 0
    case JString(s) => s != ""
    case JArray(items) => |items| > 0
    case JObject(fields) => |fields| > 0
  }

  function Lookup(fields: seq<(string, Json)>, key: string): Option<Json>
    decreases |fields|
  {
    if |fields| == 0 then None
    else if fields[0].0 == key then Some(fields[0].1)
    else Lookup(fields[1..], key)
  }

  /** The value of `key`, or `default` when the object has no such member. */
  function FieldOr(fields: seq<(string, Json)>, key: string, default: Json): (v: Json)
    ensures Lookup(fields, key).Some? ==> v == Lookup(fields, key).value
    ensures Lookup(fields, key).None? ==> v == default
  {
    match Lookup(fields, key) case Some(v) => v case None => default
  }

  function Keys(fields: seq<(string, Json)>): set<string>
  {
    set i | 0 <= i < |fields| :: fields[i].0
  }

  predicate DistinctKeys(fields: seq<(string, Json)>)
  {
    forall i, j :: 0 <= i < j < |fields| ==> fields[i].0 != fields[j].0
  }

  /** In an object without repeated keys, every member is found by its key. */
  lemma {:induction false} LookupMember(fields: seq<(string, Json)>, i: nat)
    requires DistinctKeys(fields) && i < |fields|
    ensures Lookup(fields, fields[i].0) == Some(fields[i].1)
    decreases i
  {
    if i > 0 {
      assert fields[0].0 != fields[i].0;
      assert fields[1..][i - 1] == fields[i];
      LookupMember(fields[1..], i - 1);
    }
  }

  /** Python's name for the type of the decoded value. */
  function TypeName(j: Json): string
  {
    match j
    case JNull => "NoneType"
    case JBool(_) => "bool"
    case JInt(_) => "int"
    case JString(_) => "str"
    case JArray(_) => "list"
    case JObject(_) => "dict"
  }

  /** The message of the AttributeError raised by `.get` on a value of the named type. */
  function NoGet(typeName: string): string
  {
    "'" + typeName + "' object has no attribute 'get'"
  }

  /** `j.get(key, default)`: only a dict has `.get`. */
  function Get(j: Json, key: string, default: Json): (r: Result<Json, Fault>)
    ensures r.Success? <==> j.JObject?
  {
    match j
    case JObject(fields) =>
      Success(FieldOr(fields, key, default))
    case _ => Failure(AttributeError(NoGet(TypeName(j))))
  }

  /** `j[key]` with a string key. */
  function Index(j: Json, key: string): (r: Result<Json, Fault>)
    ensures r.Success? ==> j.JObject? && Lookup(j.fields, key) == Some(r.value)
    ensures j.JObject? && Lookup(j.fields, key).None? ==> r == Failure(KeyError(key))
    ensures !j.JObject? ==> r.Failure? && r.error.TypeError?
  {
    match j
    case JObject(fields) =>
      (match Lookup(fields, key) case Some(v) => Success(v) case None => Failure(KeyError(key)))
    case JArray(_) => Failure(TypeError("list indices must be integers or slices, not str"))
    case JString(_) => Failure(TypeError("string indices must be integers, not 'str'"))
    case _ => Failure(TypeError("'" + TypeName(j) + "' object is not subscriptable"))
  }

  /** The items `for x in j` visits: the elements of a list, the keys of a dict in
      order, the characters of a string, each as a one-character string. Iterating any
      other value raises. */
  function Iterate(j: Json): (r: Result<seq<Json>, Fault>)
    ensures r.Success? <==> j.JArray? || j.JObject? || j.JString?
    ensures j.JArray? ==> r == Success(j.items)
    ensures j.JObject? ==>
              r.Success? && |r.value| == |j.fields| &&
              forall i :: 0 <= i < |j.fields| ==> r.value[i] == JString(j.fields[i].0)
    ensures j.JString? ==>
              r.Success? && |r.value| == |j.s| &&
              forall i :: 0 <= i < |j.s| ==> r.value[i] == JString([j.s[i]])
    ensures !r.Success? ==> r.error.TypeError?
  {
    match j
    case JArray(items) => Success(items)
    case JObject(fields) => Success(seq(|fields|, i requires 0 <= i < |fields| => JString(fields[i].0)))
    case JString(s) => Success(seq(|s|, i requires 0 <= i < |s| => JString([s[i]])))
    case _ => Failure(TypeError("'" + TypeName(j) + "' object is not iterable"))
  }

  function Quote(s: string, q: char): string
  {
    [q] + s + [q]
  }

  /** `json.dumps(j)`, in a compact layout, without escaping. */
  function Dumps(j: Json): string
    decreases j
  {
    match j
    case JNull => "null"
    case JBool(b) => if b then "true" else "false"
    case JInt(n) => IntToString(n)
    case JString(s) => Quote(s, '"')
    case JArray(items) =>
      "[" + Join(seq(|items|, i requires 0 <= i < |items| => Dumps(items[i])), ", ") + "]"
    case JObject(fields) =>
      "{" + Join(seq(|fields|, i requires 0 <= i < |fields| =>
                   Quote(fields[i].0, '"') + ": " + Dumps(fields[i].1)), ", ") + "}"
  }

  /** Python's `repr()` of the decoded value, without escaping. */
  function Repr(j: Json): string
    decreases j
  {
    match j
    case JNull => "None"
    case JBool(b) => if b then "True" else "False"
    case JInt(n) => IntToString(n)
    case JString(s) => Quote(s, '\'')
    case JArray(items) =>
      "[" + Join(seq(|items|, i requires 0 <= i < |items| => Repr(items[i])), ", ") + "]"
    case JObject(fields) =>
      "{" + Join(seq(|fields|, i requires 0 <= i < |fields| =>
                   Quote(fields[i].0, '\'') + ": " + Repr(fields[i].1)), ", ") + "}"
  }

  /** Python's `str()` (what an f-string prints) of the decoded value. */
  function Str(j: Json): string
  {
    if j.JString? then j.s else Repr(j)
  }

  /** A loop `for item in items: out.append(f(item))` whose step `f` may raise:
      the list of results, or the exception of the first item that raised. */
  function MapAll<T, E>(items: seq<Json>, f: Json -> Result<T, E>): Result<seq<T>, E>
    decreases |items|
  {
    if |items| == 0 then Success([])
    else
      match MapAll(items[..|items| - 1], f)
      case Failure(e) => Failure(e)
      case Success(done) =>
        match f(items[|items| - 1])
        case Failure(e) => Failure(e)
        case Success(x) => Success(done + [x])
  }

  /** The loop succeeds exactly when every step does, and then yields one result per
      item, in order. */
  lemma {:induction false} MapAllSucceeds<T, E>(items: seq<Json>, f: Json -> Result<T, E>)
    ensures MapAll(items, f).Success? <==> forall i :: 0 <= i < |items| ==> f(items[i]).Success?
    ensures MapAll(items, f).Success? ==>
              |MapAll(items, f).value| == |items| &&
              forall i :: 0 <= i < |items| ==> MapAll(items, f).value[i] == f(items[i]).value
    decreases |items|
  {
    if |items| > 0 {
      var front := items[..|items| - 1];
      MapAllSucceeds(front, f);
      assert forall i :: 0 <= i < |front| ==> front[i] == items[i];
    }
  }

  /** When the loop fails, it fails with the exception of the first item whose step
      raised, and every step before that one succeeded. */
  lemma {:induction false} MapAllFirstFailure<T, E>(items: seq<Json>, f: Json -> Result<T, E>)
    requires MapAll(items, f).Failure?
    ensures exists k :: 0 <= k < |items| && f(items[k]) == Failure(MapAll(items, f).error) &&
                        forall i :: 0 <= i < k ==> f(items[i]).Success?
    decreases |items|
  {
    var front := items[..|items| - 1];
    assert forall i :: 0 <= i < |front| ==> front[i] == items[i];
    if MapAll(front, f).Failure? {
      MapAllFirstFailure(front, f);
      var k :| 0 <= k < |front| && f(front[k]) == Failure(MapAll(front, f).error) &&
                forall i :: 0 <= i < k ==> f(front[i]).Success?;
      assert f(items[k]) == Failure(MapAll(items, f).error);
    } else {
      MapAllSucceeds(front, f);
      var k := |items| - 1;
      assert f(items[k]) == Failure(MapAll(items, f).error);
    }
  }

  /** Once a prefix of the items has raised, the whole loop raises the same exception. */
  lemma {:induction false} MapAllFailurePersists<T, E>(items: seq<Json>, k: nat, f: Json -> Result<T, E>)
    requires k <= |items| && MapAll(items[..k], f).Failure?
    ensures MapAll(items, f) == MapAll(items[..k], f)
    decreases |items|
  {
    if k < |items| {
      var front := items[..|items| - 1];
      assert front[..k] == items[..k];
      MapAllFailurePersists(front, k, f);
    } else {
      assert items[..k] == items;
    }
  }

  /** The append loop itself. */
  method CollectAll<T, E>(items: seq<Json>, f: Json -> Result<T, E>) returns (r: Result<seq<T>, E>)
    ensures r == MapAll(items, f)
  {
    var done: seq<T> := [];
    var i := 0;
    while i < |items|
      invariant 0 <= i <= |items|
      invariant MapAll(items[..i], f) == Success(done)
    {
      assert items[..i + 1][..i] == items[..i];
      var x := f(items[i]);
      if x.Failure? {
        MapAllFailurePersists(items, i + 1, f);
        return Failure(x.error);
      }
      done := done + [x.value];
      i := i + 1;
    }
    assert items[..i] == items;
    return Success(done);
  }
}
