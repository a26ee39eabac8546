/** The JavaScript values the core handles (JSON values plus `undefined`),
    the language operations it applies to them (`typeof`, truthiness,
    property reads, `Number(...)`, string conversion, `Array.prototype.find`
    on a property) and the exceptions its functions throw. */
module Js {
  import opened Strings

  /** A JSON value, or `undefined`; `Undef` is also what a missing property reads as. */
  datatype Value =
    | Undef
    | Null
    | Bool(b: bool)
    | Num(n: int)
    | Str(s: string)
    | Arr(items: seq<Value>)
    | Obj(fields: map<string, Value>)

  /** One constructor per `throw` site of the core, plus the runtime's `TypeError`
      (a property read on `null`/`undefined`, a call of a method the value lacks). */
  datatype Exception =
    | TypeError
      // src/operations/helper.js, `Folder.validateAndParse`
    | FolderNotObjectOrString
    | ConstantNotFound(name: string)
    | PathNotString
      // src/operations/helper.js, `Folder.validate`
    | ParamsNotObject
    | NoParentAnchor
    | RelativePathNotString
      // src/Config.js
    | InputNotObject
    | InvalidCredentials
    | ConstantsNotArray
    | InvalidConstants
    | MissingOperations
    | OperationsNotNonEmptyArray
    | InvalidOperationType(opType: Value)
    | SourceNotObject
    | InvalidIdOrName
    | InvalidFiles
      // src/operations/index.js and src/operations.js
    | FileNotFound(key: string)
    | NotAFolder
    | DestinationNotString
    | FolderNotString
    | UnknownSourceType(sourceType: Value)

  /** A value, or the exception that was thrown instead. */
  datatype Result<+T> = Ok(value: T) | Throw(error: Exception) {
    predicate IsFailure() {
      Throw?
    }

    function PropagateFailure<U>(): Result<U>
      requires Throw?
    {
      Throw(error)
    }

    function Extract(): T
      requires Ok?
    {
      value
    }
  }

  /** `typeof v`. */
  function TypeOf(v: Value): string {
    match v
    case Undef => "undefined"
    case Null => "object"
    case Bool(_) => "boolean"
    case Num(_) => "number"
    case Str(_) => "string"
    case Arr(_) => "object"
    case Obj(_) => "object"
  }

  /** The value is `null` or `undefined`. */
  predicate IsNullish(v: Value) {
    v.Undef? || v.Null?
  }

  /** `!!v` (numbers are integers here, so NaN does not arise). */
  predicate Truthy(v: Value) {
    match v
    case Undef => false
    case Null => false
    case Bool(b) => b
    case Num(n) => n != 0
    case Str(s) => s != ""
    case Arr(_) => true
    case Obj(_) => true
  }

  /** `typeof v === 'string' && v.length`: a string with at least one character. */
  predicate NonEmptyString(v: Value) {
    v.Str? && v.s != ""
  }

  /** `typeCheck('Object', v)`: a plain object; unlike `typeof`, false for arrays and `null`. */
  predicate IsPlainObject(v: Value) {
    v.Obj?
  }

  /** `v[key]` on a value that is not `null`/`undefined`: an own property of an
      object, `undefined` otherwise (none of the property names the core reads
      is a built-in property of strings, numbers, booleans or arrays). */
  function Lookup(v: Value, key: string): Value {
    if v.Obj? && key in v.fields then v.fields[key] else Undef
  }

  /** `v.key` as JavaScript evaluates it: a `TypeError` on `null`/`undefined`. */
  function Get(v: Value, key: string): (r: Result<Value>)
    ensures r.Throw? <==> IsNullish(v)
    ensures r.Throw? ==> r.error == TypeError
    ensures r.Ok? ==> r.value == Lookup(v, key)
  {
    if IsNullish(v) then Throw(TypeError) else Ok(Lookup(v, key))
  }

  /** The result of `Number(v)`: an integer, or NaN. */
  datatype Numeric = Int(i: int) | NaN

  /** `Number(v)`. Strings are converted when they are a run of decimal digits with
      an optional leading `-`; every other string, every array and every object is NaN here. */
  function ToNumber(v: Value): (r: Numeric)
    ensures v.Num? ==> r == Int(v.n)
    ensures v.Str? ==> (r.Int? <==> IsDecimal(v.s))
  {
    match v
    case Undef => NaN
    case Null => Int(0)
    case Bool(b) => Int(if b then 1 else 0)
    case Num(n) => Int(n)
    case Str(s) => if IsDecimal(s) then Int(DecimalValue(s)) else NaN
    case Arr(_) => NaN
    case Obj(_) => NaN
  }

  /** `String(v)`, the conversion a template literal or `+` with a string applies:
      array elements are joined with `,`, `null`/`undefined` elements as empty text. */
  function ToJsString(v: Value): string
    decreases v
  {
    match v
    case Undef => "undefined"
    case Null => "null"
    case Bool(b) => if b then "true" else "false"
    case Num(n) => DecimalString(n)
    case Str(s) => s
    case Arr(items) =>
      Join(seq(|items|, i requires 0 <= i < |items| =>
        if IsNullish(items[i]) then "" else ToJsString(items[i])), ',')
    case Obj(_) => "[object Object]"
  }

  /** The number a template literal prints for `n`, read back by `Number`. */
  lemma NumberOfPrintedInteger(n: int)
    ensures ToNumber(Str(ToJsString(Num(n)))) == Int(n)
  {
    DecimalRoundTrip(n);
  }

  /** `items.find(x => x[prop] === s)` for a string `s`, as the index of the
      element found; the callback throws a `TypeError` on a `null`/`undefined`
      element it reaches. */
  function FindBy(items: seq<Value>, prop: string, s: string): (r: Result<Option<nat>>)
    ensures r.Ok? && r.value.Some? ==>
      && r.value.value < |items|
      && Get(items[r.value.value], prop) == Ok(Str(s))
      && forall j :: 0 <= j < r.value.value ==> !IsNullish(items[j]) && Lookup(items[j], prop) != Str(s)
    ensures r.Ok? && r.value.None? ==>
      forall j :: 0 <= j < |items| ==> !IsNullish(items[j]) && Lookup(items[j], prop) != Str(s)
    ensures r.Throw? ==>
      && r.error == TypeError
      && (exists k :: 0 <= k < |items| && IsNullish(items[k]) &&
            forall j :: 0 <= j < k ==> !IsNullish(items[j]) && Lookup(items[j], prop) != Str(s))
    decreases |items|
  {
    if items == [] then Ok(None)
    else
      var head :- Get(items[0], prop);
      if head == Str(s) then Ok(Some(0))
      else
        var rest :- FindBy(items[1..], prop, s);
        match rest
        case None => Ok(None)
        case Some(i) => Ok(Some(i + 1))
  }

  /** `find` stops at the first element whose property is `s` when every earlier
      element is readable and differs. */
  lemma {:induction false} FindByFirstMatch(items: seq<Value>, prop: string, s: string, i: nat)
    requires i < |items| && Lookup(items[i], prop) == Str(s)
    requires forall j :: 0 <= j < i ==> !IsNullish(items[j]) && Lookup(items[j], prop) != Str(s)
    ensures FindBy(items, prop, s) == Ok(Some(i))
    decreases i
  {
    if i > 0 {
      assert !IsNullish(items[0]) && Lookup(items[0], prop) != Str(s);
      assert forall j :: 0 <= j < i - 1 ==> items[1..][j] == items[j + 1];
      FindByFirstMatch(items[1..], prop, s, i - 1);
    }
  }

  datatype Option<+T> = None | Some(value: T)
}
