/** The slice of JavaScript's value semantics that the server's handler
    touches: values produced by `JSON.parse`, `undefined`, truthiness (what
    `!x` and `x || y` test), property reads (`x.name`, `x[0]`) with the
    TypeError they raise on `undefined` and `null`, and the string
    conversion `JSON.parse` applies to its argument. */
module JsValues {
  import opened JsStrings

  datatype Option<T> = None | Some(value: T)

  /** A computation that either yields a value or throws an Error carrying
      `message`; usable with `:-` so that a throw propagates like JavaScript's. */
  datatype Result<T> = Ok(value: T) | Throw(message: string) {
    predicate IsFailure() { Throw? }

    function PropagateFailure<U>(): Result<U>
      requires Throw?
    {
      Throw(message)
    }

    function Extract(): T
      requires Ok?
    {
      value
    }
  }

  /** A value `JSON.parse` can return. A number is carried by the text
      `Number.prototype.toString` prints for it (so `-0` is `Num("0")`); no
      arithmetic is done on numbers here. An object keeps its last value for
      a repeated key, as `JSON.parse` does. */
  datatype Json =
    | Null
    | Bool(b: bool)
    | Num(repr: string)
    | Str(s: string)
    | Arr(elems: seq<Json>)
    | Obj(fields: map<string, Json>)

  /** Any value the handler handles: `undefined` or a JSON value. */
  datatype Val = Undefined | J(json: Json)

  /** JavaScript's ToBoolean: `undefined`, `null`, `false`, `0`, `-0`, `NaN`
      and `""` are falsy; every array and object, even an empty one, is truthy. */
  predicate Truthy(v: Val)
  {
    match v
    case Undefined => false
    case J(Null) => false
    case J(Bool(b)) => b
    case J(Num(repr)) => repr != "0" && repr != "NaN"
    case J(Str(s)) => s != ""
    case J(Arr(_)) => true
    case J(Obj(_)) => true
  }

  /** `x || y`: `x` itself when it is truthy, otherwise `y`. */
  function Or(x: Val, y: Val): Val
  {
    if Truthy(x) then x else y
  }

  function TypeName(v: Val): string
  {
    if v == Undefined then "undefined" else "null"
  }

  /** The message of the TypeError V8 raises for `v[key]` when `v` is
      `undefined` or `null`. */
  function ReadError(v: Val, key: string): (m: string)
  {
    Join(["Cannot", "read", "properties", "of", TypeName(v), "(reading", "'" + key + "')"], ' ')
  }

  /** `key` is the canonical text of an array index. */
  predicate IsIndexKey(key: string)
  {
    key == Decimal(DecimalValue(key))
  }

  /** `v[key]`: a TypeError on `undefined` and `null`; an own property of an
      object; an element, or `length`, of an array or a string (a string's
      element is a one-character string); `undefined` otherwise. The
      handler reads only names that no object, array or string inherits
      from its prototype, and this function covers exactly those. */
  function Get(v: Val, key: string): (r: Result<Val>)
    ensures r.Throw? <==> v == Undefined || v == J(Null)
    ensures r.Throw? ==> r.message == ReadError(v, key)
  {
    match v
    case Undefined => Throw(ReadError(v, key))
    case J(Null) => Throw(ReadError(v, key))
    case J(Obj(fields)) => Ok(if key in fields then J(fields[key]) else Undefined)
    case J(Arr(elems)) =>
      if key == "length" then Ok(J(Num(Decimal(|elems|))))
      else if IsIndexKey(key) && DecimalValue(key) < |elems| then Ok(J(elems[DecimalValue(key)]))
      else Ok(Undefined)
    case J(Str(s)) =>
      if key == "length" then Ok(J(Num(Decimal(|s|))))
      else if IsIndexKey(key) && DecimalValue(key) < |s| then Ok(J(Str([s[DecimalValue(key)]])))
      else Ok(Undefined)
    case J(_) => Ok(Undefined)
  }

  /** `v[i]` for a numeric index: the property named by `i`'s decimal text. */
  function Index(v: Val, i: nat): Result<Val>
  {
    Get(v, Decimal(i))
  }

  /** Reading index `i` of an array gives its element, or `undefined` past the end. */
  lemma ArrayIndex(elems: seq<Json>, i: nat)
    ensures Index(J(Arr(elems)), i) == Ok(if i < |elems| then J(elems[i]) else Undefined)
  {
    DecimalRoundTrip(i);
  }

  /** The TypeError V8 raises when ToString finds neither a callable
      `toString` nor a callable `valueOf` returning a primitive. */
  const PrimitiveConversionError := "Cannot convert object to primitive value"

  /** JavaScript's ToString on a value JSON can hold, as `JSON.parse`
      applies it to a non-string argument: an array is its elements joined
      by commas (`null` elements becoming empty), an object is
      `[object Object]`. An object with an own `toString` field shadows
      `Object.prototype.toString` with a value that cannot be called, and
      its inherited `valueOf` returns the object itself, so the conversion
      throws; an array holding such an object throws while joining. */
  function ToString(v: Val): Result<string>
  {
    match v
    case Undefined => Ok("undefined")
    case J(j) => JsonToString(j)
  }

  function JsonToString(j: Json): Result<string>
  {
    match j
    case Null => Ok("null")
    case Bool(b) => Ok(if b then "true" else "false")
    case Num(repr) => Ok(repr)
    case Str(s) => Ok(s)
    case Arr(elems) =>
      var parts :- ElementStrings(elems);
      Ok(Join(parts, ','))
    case Obj(fields) => if "toString" in fields then Throw(PrimitiveConversionError) else Ok("[object Object]")
  }

  /** The strings `Array.prototype.join` puts between its commas. */
  function ElementStrings(elems: seq<Json>): Result<seq<string>>
  {
    if |elems| == 0 then Ok([])
    else
      var head :- if elems[0] == Null then Ok("") else JsonToString(elems[0]);
      var tail :- ElementStrings(elems[1..]);
      Ok([head] + tail)
  }

  /** Reference definition: somewhere in `j`, reached through arrays only,
      is an object with an own `toString` field. */
  ghost predicate ShadowsToString(j: Json)
  {
    match j
    case Obj(fields) => "toString" in fields
    case Arr(elems) => exists k :: 0 <= k < |elems| && ShadowsToString(elems[k])
    case _ => false
  }

  /** ToString of a JSON value throws exactly when the value shadows
      `toString`, and then with V8's conversion message. */
  lemma {:induction false} ToStringThrows(j: Json)
    ensures JsonToString(j).Throw? <==> ShadowsToString(j)
    ensures JsonToString(j).Throw? ==> JsonToString(j).message == PrimitiveConversionError
  {
    match j
    case Arr(elems) => ElementStringsThrow(elems);
    case _ =>
  }

  lemma {:induction false} ElementStringsThrow(elems: seq<Json>)
    ensures ElementStrings(elems).Throw? <==> exists k :: 0 <= k < |elems| && ShadowsToString(elems[k])
    ensures ElementStrings(elems).Throw? ==> ElementStrings(elems).message == PrimitiveConversionError
  {
    if |elems| > 0 {
      ToStringThrows(elems[0]);
      ElementStringsThrow(elems[1..]);
      if exists k :: 0 <= k < |elems[1..]| && ShadowsToString(elems[1..][k]) {
        var k :| 0 <= k < |elems[1..]| && ShadowsToString(elems[1..][k]);
        assert ShadowsToString(elems[k + 1]);
      }
      if exists k :: 0 <= k < |elems| && ShadowsToString(elems[k]) {
        var k :| 0 <= k < |elems| && ShadowsToString(elems[k]);
        if k > 0 {
          assert ShadowsToString(elems[1..][k - 1]);
        }
      }
    }
  }
}
