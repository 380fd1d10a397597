/**
 * The part of model validation that every contract shares: reading a field of
 * a JSON object, checking its type, checking enumeration membership and
 * validating a list element by element. A failure names the place in the
 * input (a path of keys and list indices, outermost first) and what was wrong.
 * Validation of a model stops at the first violation in field order.
 */
module Validation {
  import opened Wrappers
  import opened Json

  datatype PathStep = Key(name: string) | Index(i: nat)

  datatype JsonKind = StringKind | IntKind | BoolKind | ArrayKind | ObjectKind

  datatype Problem =
    | Missing                           // a required key is absent
    | WrongType(expected: JsonKind)     // the value has the wrong JSON type
    | NotInEnum(allowed: seq<string>)   // a string outside the enumeration

  datatype Violation = Violation(path: seq<PathStep>, problem: Problem)

  /** Moves a violation one level down, under `step`. */
  function Under<T>(step: PathStep, r: Result<T, Violation>): (r': Result<T, Violation>)
    ensures r'.Ok? <==> r.Ok?
    ensures r.Ok? ==> r'.value == r.value
    ensures r.Err? ==> r'.error == Violation([step] + r.error.path, r.error.problem)
  {
    match r
    case Ok(v) => Ok(v)
    case Err(e) => Err(Violation([step] + e.path, e.problem))
  }

  function AsObject(j: Json): (r: Result<map<string, Json>, Violation>)
    ensures r.Ok? <==> j.JObj?
    ensures r.Ok? ==> r.value == j.fields
    ensures r.Err? ==> r.error == Violation([], WrongType(ObjectKind))
  {
    if j.JObj? then Ok(j.fields) else Err(Violation([], WrongType(ObjectKind)))
  }

  function AsString(j: Json): (r: Result<string, Violation>)
    ensures r.Ok? <==> j.JStr?
    ensures r.Ok? ==> j == JStr(r.value)
    ensures r.Err? ==> r.error == Violation([], WrongType(StringKind))
  {
    if j.JStr? then Ok(j.s) else Err(Violation([], WrongType(StringKind)))
  }

  function AsInt(j: Json): (r: Result<int, Violation>)
    ensures r.Ok? <==> j.JInt?
    ensures r.Ok? ==> j == JInt(r.value)
    ensures r.Err? ==> r.error == Violation([], WrongType(IntKind))
  {
    if j.JInt? then Ok(j.n) else Err(Violation([], WrongType(IntKind)))
  }

  function AsBool(j: Json): (r: Result<bool, Violation>)
    ensures r.Ok? <==> j.JBool?
    ensures r.Ok? ==> j == JBool(r.value)
    ensures r.Err? ==> r.error == Violation([], WrongType(BoolKind))
  {
    if j.JBool? then Ok(j.b) else Err(Violation([], WrongType(BoolKind)))
  }

  /** An `Optional[str]` value: `null` is None, a string is itself. */
  function AsOptionalString(j: Json): (r: Result<Option<string>, Violation>)
    ensures r.Ok? <==> j.JNull? || j.JStr?
    ensures r == Ok(None) <==> j.JNull?
    ensures r.Ok? && r.value.Some? ==> j == JStr(r.value.value)
  {
    if j.JNull? then Ok(None) else if j.JStr? then Ok(Some(j.s)) else Err(Violation([], WrongType(StringKind)))
  }

  /**
   * A string-valued enumeration member: `parse` maps each member's value to
   * the member, `allowed` lists the values.
   */
  function AsEnum<E>(j: Json, parse: string -> Option<E>, allowed: seq<string>): (r: Result<E, Violation>)
    ensures r.Ok? <==> j.JStr? && parse(j.s).Some?
    ensures r.Ok? ==> parse(j.s) == Some(r.value)
    ensures j.JStr? && parse(j.s).None? ==> r.error == Violation([], NotInEnum(allowed))
    ensures !j.JStr? ==> r == Err(Violation([], WrongType(StringKind)))
  {
    if !j.JStr? then Err(Violation([], WrongType(StringKind)))
    else match parse(j.s)
      case Some(e) => Ok(e)
      case None => Err(Violation([], NotInEnum(allowed)))
  }

  /** A required field: absent is a violation, present is validated by `v`. */
  function Field<T>(obj: map<string, Json>, key: string, v: Json -> Result<T, Violation>): (r: Result<T, Violation>)
    ensures r.Ok? <==> key in obj && v(obj[key]).Ok?
    ensures r.Ok? ==> v(obj[key]) == Ok(r.value)
    ensures key !in obj ==> r == Err(Violation([Key(key)], Missing))
    ensures key in obj && v(obj[key]).Err? ==>
      r == Err(Violation([Key(key)] + v(obj[key]).error.path, v(obj[key]).error.problem))
  {
    if key !in obj then Err(Violation([Key(key)], Missing)) else Under(Key(key), v(obj[key]))
  }

  /** An optional string field with default None: absent or `null` is None. */
  function OptionalStringField(obj: map<string, Json>, key: string): (r: Result<Option<string>, Violation>)
    ensures key !in obj ==> r == Ok(None)
    ensures key in obj ==> (r.Ok? <==> AsOptionalString(obj[key]).Ok?)
    ensures key in obj && r.Ok? ==> AsOptionalString(obj[key]) == Ok(r.value)
  {
    if key !in obj then Ok(None) else Under(Key(key), AsOptionalString(obj[key]))
  }

  /**
   * Validates `items[i..]` element by element. Either every element is valid
   * and the results come back in order, one per element, or the violation of
   * the first invalid element is reported under its index.
   */
  function EachFrom<T>(items: seq<Json>, v: Json -> Result<T, Violation>, i: nat): (r: Result<seq<T>, Violation>)
    requires i <= |items|
    ensures r.Ok? <==> forall k :: i <= k < |items| ==> v(items[k]).Ok?
    ensures r.Ok? ==> |r.value| == |items| - i
    ensures r.Ok? ==> forall k :: i <= k < |items| ==> v(items[k]) == Ok(r.value[k - i])
    ensures r.Err? ==> exists k :: i <= k < |items| && FirstInvalid(items, v, i, k) && r.error == Violation([Index(k)] + v(items[k]).error.path, v(items[k]).error.problem)
    decreases |items| - i
  {
    if i == |items| then Ok([])
    else match v(items[i])
      case Err(e) =>
        assert FirstInvalid(items, v, i, i);
        Err(Violation([Index(i)] + e.path, e.problem))
      case Ok(x) =>
        var rest := EachFrom(items, v, i + 1);
        if rest.Err? then
          var k :| i + 1 <= k < |items| && FirstInvalid(items, v, i + 1, k) && rest.error == Violation([Index(k)] + v(items[k]).error.path, v(items[k]).error.problem);
          assert FirstInvalid(items, v, i, k);
          Err(rest.error)
        else
          Ok([x] + rest.value)
  }

  /** `items[k]` is the first element of `items[i..]` that `v` rejects. */
  predicate FirstInvalid<T>(items: seq<Json>, v: Json -> Result<T, Violation>, i: nat, k: nat)
    requires i <= k < |items|
  {
    v(items[k]).Err? && forall m :: i <= m < k ==> v(items[m]).Ok?
  }

  /** A JSON array whose every element `v` accepts (see EachFrom). */
  function AsList<T>(j: Json, v: Json -> Result<T, Violation>): (r: Result<seq<T>, Violation>)
    ensures r.Ok? <==> j.JArr? && forall k :: 0 <= k < |j.items| ==> v(j.items[k]).Ok?
    ensures r.Ok? ==> |r.value| == |j.items| && forall k :: 0 <= k < |j.items| ==> v(j.items[k]) == Ok(r.value[k])
    ensures !j.JArr? ==> r == Err(Violation([], WrongType(ArrayKind)))
  {
    if j.JArr? then EachFrom(j.items, v, 0) else Err(Violation([], WrongType(ArrayKind)))
  }

  /** Every key of `small` is in `big` with the same value. */
  predicate SubObject(small: map<string, Json>, big: map<string, Json>) {
    forall k :: k in small ==> k in big && big[k] == small[k]
  }
}
