/** The actor's input parser (src/Config.js): defaults, the ordered shape checks,
    and the ordered lists of constants and typed operations, each operation's
    folder resolved by `FolderHelper.ValidateAndParse`. */
module Config {
  import opened Js
  import opened FolderHelper

  /** `OPERATIONS_TYPES` (its defining file is not part of this model): the type
      strings for upload and folder deletion, and the set of all its values. */
  datatype OperationTypes = OperationTypes(upload: string, foldersDelete: string, all: set<string>) {
    predicate WellFormed() {
      upload in all && foldersDelete in all && upload != foldersDelete && "" !in all
    }
  }

  const DefaultUploadTimeoutSecs: int := 120
  const DefaultMaxConcurrency: int := 5
  const DefaultTokensStore: string := "google-oauth-tokens"

  /** The OAuth credentials in effect: the built-in defaults, or the input's object. */
  datatype Credentials = DefaultCredentials | GivenCredentials(value: Value)

  /** One entry of the parsed operation list. */
  datatype PlannedOperation =
    | PlannedUpload(opType: string, source: Value, destination: FolderParams)
    | PlannedFolderDelete(opType: string, folder: FolderParams)

  /** The object `validateAndParseInput` returns. */
  datatype ParsedInput = ParsedInput(
    isSetupMode: Value,
    fileUploadTimeoutSecs: Numeric,
    fileUploadingMaxConcurrency: Numeric,
    googleOAuthTokensStore: Value,
    googleOAuthCredentials: Credentials,
    constants: seq<Value>,
    operations: seq<PlannedOperation>)

  /** `field ? Number(field) : fallback`. */
  function NumberOr(field: Value, fallback: int): Numeric {
    if Truthy(field) then ToNumber(field) else Int(fallback)
  }

  /** `field || fallback`. */
  function ValueOr(field: Value, fallback: Value): Value {
    if Truthy(field) then field else fallback
  }

  /** The credentials check: a truthy value must be an object with non-empty string
      `client_id`, `client_secret` and `redirect_uri`; a falsy one selects the defaults. */
  function CheckCredentials(field: Value): Result<Credentials> {
    if !Truthy(field) then Ok(DefaultCredentials)
    else if TypeOf(field) == "object"
            && NonEmptyString(Lookup(field, "client_id"))
            && NonEmptyString(Lookup(field, "client_secret"))
            && NonEmptyString(Lookup(field, "redirect_uri"))
    then Ok(GivenCredentials(field))
    else Throw(InvalidCredentials)
  }

  /** The `every` callback on one constant: an object (by `typeof`, so `null` gets as
      far as reading `name` and throws) with a string `name` and a string or
      object (by `typeof`) `value`. */
  function CheckConstant(c: Value): Result<bool> {
    if TypeOf(c) != "object" then Ok(false)
    else
      var name :- Get(c, "name");
      if !name.Str? then Ok(false)
      else
        var value := Lookup(c, "value");
        Ok(TypeOf(value) == "string" || TypeOf(value) == "object")
  }

  /** `constants.every(CheckConstant)`: stops at the first `false` or exception. */
  function CheckConstants(cs: seq<Value>): Result<bool>
    decreases |cs|
  {
    if cs == [] then Ok(true)
    else
      var ok :- CheckConstant(cs[0]);
      if !ok then Ok(false) else CheckConstants(cs[1..])
  }

  /** The `constants` field: absent gives none; otherwise an array whose every entry
      passes, copied in order. */
  function ParseConstants(input: Value): Result<seq<Value>> {
    var field := Lookup(input, "constants");
    if field.Undef? then Ok([])
    else if !field.Arr? then Throw(ConstantsNotArray)
    else
      var allValid :- CheckConstants(field.items);
      if !allValid then Throw(InvalidConstants) else Ok(field.items)
  }

  /** One iteration of the operations loop: the type check, then the upload or delete
      entry with its folder resolved against `constants`; an entry of another valid
      type adds nothing. */
  function ParseOperation(op: Value, types: OperationTypes, constants: seq<Value>): Result<seq<PlannedOperation>> {
    var opType :- Get(op, "type");
    if !Truthy(opType) || !(opType.Str? && opType.s in types.all) then Throw(InvalidOperationType(opType))
    else if opType.s == types.upload then
      var source := Lookup(op, "source");
      if TypeOf(source) != "object" then Throw(SourceNotObject)
      else
        var idOrName :- Get(source, "idOrName");
        if !NonEmptyString(idOrName) then Throw(InvalidIdOrName)
        else
          var files := Lookup(source, "files");
          if !files.Arr? || |files.items| == 0 then Throw(InvalidFiles)
          else
            var destination :- ValidateAndParse(Lookup(op, "destination"), constants);
            Ok([PlannedUpload(opType.s, source, destination)])
    else if opType.s == types.foldersDelete then
      var folder :- ValidateAndParse(Lookup(op, "folder"), constants);
      Ok([PlannedFolderDelete(opType.s, folder)])
    else Ok([])
  }

  /** The operations loop: entries in order, stopping at the first exception. */
  function ParseOperations(ops: seq<Value>, types: OperationTypes, constants: seq<Value>): Result<seq<PlannedOperation>>
    decreases |ops|
  {
    if ops == [] then Ok([])
    else
      var head :- ParseOperation(ops[0], types, constants);
      var rest :- ParseOperations(ops[1..], types, constants);
      Ok(head + rest)
  }

  /** The part of `validateAndParseInput` that runs outside setup mode. */
  function ParsePlan(input: Value, types: OperationTypes): Result<(seq<Value>, seq<PlannedOperation>)> {
    var constants :- ParseConstants(input);
    var field := Lookup(input, "operations");
    if !Truthy(field) then Throw(MissingOperations)
    else if !field.Arr? || |field.items| == 0 then Throw(OperationsNotNonEmptyArray)
    else
      var operations :- ParseOperations(field.items, types, constants);
      Ok((constants, operations))
  }

  /** `validateAndParseInput(input)`. */
  function ParseInput(input: Value, types: OperationTypes): Result<ParsedInput> {
    if TypeOf(input) != "object" then Throw(InputNotObject)
    else
      var setupField :- Get(input, "isSetupMode");
      var isSetupMode := ValueOr(setupField, Bool(false));
      var timeout := NumberOr(Lookup(input, "fileUploadTimeoutSecs"), DefaultUploadTimeoutSecs);
      var concurrency := NumberOr(Lookup(input, "fileUploadingMaxConcurrency"), DefaultMaxConcurrency);
      var tokensStore := ValueOr(Lookup(input, "googleOAuthTokensStore"), Str(DefaultTokensStore));
      var credentials :- CheckCredentials(Lookup(input, "googleOAuthCredentials"));
      if Truthy(isSetupMode) then
        Ok(ParsedInput(isSetupMode, timeout, concurrency, tokensStore, credentials, [], []))
      else
        var plan :- ParsePlan(input, types);
        Ok(ParsedInput(isSetupMode, timeout, concurrency, tokensStore, credentials, plan.0, plan.1))
  }

  /** `acc` followed by the operations `rest` holds, or the exception it holds. */
  function AppendTo(acc: seq<PlannedOperation>, rest: Result<seq<PlannedOperation>>): Result<seq<PlannedOperation>> {
    match rest
    case Ok(ops) => Ok(acc + ops)
    case Throw(e) => Throw(e)
  }

  lemma AppendToNothing(rest: Result<seq<PlannedOperation>>)
    ensures AppendTo([], rest) == rest
  {
    if rest.Ok? {
      assert [] + rest.value == rest.value;
    }
  }

  lemma AppendToTwice(acc: seq<PlannedOperation>, more: seq<PlannedOperation>, rest: Result<seq<PlannedOperation>>)
    ensures AppendTo(acc, AppendTo(more, rest)) == AppendTo(acc + more, rest)
  {
    if rest.Ok? {
      assert acc + (more + rest.value) == (acc + more) + rest.value;
    }
  }

  /** `constants.every(CheckConstant)` as the loop the runtime performs. */
  method EveryConstantValid(items: seq<Value>) returns (r: Result<bool>)
    ensures r == CheckConstants(items)
  {
    var allValid := true;
    var i := 0;
    while i < |items| && allValid
      invariant 0 <= i <= |items|
      invariant CheckConstants(items) == if allValid then CheckConstants(items[i..]) else Ok(false)
    {
      assert items[i..][1..] == items[i + 1..];
      var ok :- CheckConstant(items[i]);
      allValid := ok;
      i := i + 1;
    }
    if allValid {
      assert items[i..] == [];
    }
    return Ok(allValid);
  }

  /** The `constants` field checked with `every`, then pushed entry by entry. */
  method CollectConstants(input: Value) returns (r: Result<seq<Value>>)
    ensures r == ParseConstants(input)
  {
    var parsedConstants: seq<Value> := [];
    var field := Lookup(input, "constants");
    if !field.Undef? {
      if !field.Arr? {
        return Throw(ConstantsNotArray);
      }
      var items := field.items;
      var allValid :- EveryConstantValid(items);
      if !allValid {
        return Throw(InvalidConstants);
      }
      for j := 0 to |items|
        invariant parsedConstants == items[..j]
      {
        parsedConstants := parsedConstants + [items[j]];
      }
      assert items[..|items|] == items;
    }
    return Ok(parsedConstants);
  }

  /** The operations loop: for each entry in order, the type check, then the
      `switch` that pushes an upload or a deletion entry (nothing for another valid
      type); the first exception ends the loop. */
  method CollectOperations(ops: seq<Value>, types: OperationTypes, constants: seq<Value>)
    returns (r: Result<seq<PlannedOperation>>)
    ensures r == ParseOperations(ops, types, constants)
  {
    var parsedOperations: seq<PlannedOperation> := [];
    assert ops[0..] == ops;
    AppendToNothing(ParseOperations(ops, types, constants));
    for k := 0 to |ops|
      invariant ParseOperations(ops, types, constants)
                == AppendTo(parsedOperations, ParseOperations(ops[k..], types, constants))
    {
      assert ops[k..][0] == ops[k] && ops[k..][1..] == ops[k + 1..];
      ghost var before := parsedOperations;
      ghost var rest := ParseOperations(ops[k + 1..], types, constants);
      var operation := ops[k];
      var opType :- Get(operation, "type");
      if !Truthy(opType) || !(opType.Str? && opType.s in types.all) {
        return Throw(InvalidOperationType(opType));
      }
      var added: seq<PlannedOperation> := [];
      if opType.s == types.upload {
        var source := Lookup(operation, "source");
        if TypeOf(source) != "object" {
          return Throw(SourceNotObject);
        }
        var idOrName :- Get(source, "idOrName");
        if !NonEmptyString(idOrName) {
          return Throw(InvalidIdOrName);
        }
        var files := Lookup(source, "files");
        if !files.Arr? || |files.items| == 0 {
          return Throw(InvalidFiles);
        }
        var destination :- ValidateAndParse(Lookup(operation, "destination"), constants);
        added := [PlannedUpload(opType.s, source, destination)];
      } else if opType.s == types.foldersDelete {
        var folder :- ValidateAndParse(Lookup(operation, "folder"), constants);
        added := [PlannedFolderDelete(opType.s, folder)];
      }
      assert ParseOperation(ops[k], types, constants) == Ok(added);
      parsedOperations := parsedOperations + added;
      AppendToTwice(before, added, rest);
    }
    assert ops[|ops|..] == [];
    assert parsedOperations + [] == parsedOperations;
    return Ok(parsedOperations);
  }

  /** `validateAndParseInput(input)` as the source runs it: the settings field by
      field with their defaults, then, outside setup mode, the constants and the
      operations loop, each step with its early throw. */
  method ValidateAndParseInput(input: Value, types: OperationTypes) returns (r: Result<ParsedInput>)
    ensures r == ParseInput(input, types)
  {
    if TypeOf(input) != "object" {
      return Throw(InputNotObject);
    }
    var setupField :- Get(input, "isSetupMode");
    var isSetupMode := if Truthy(setupField) then setupField else Bool(false);
    var timeoutField := Lookup(input, "fileUploadTimeoutSecs");
    var timeout := if Truthy(timeoutField) then ToNumber(timeoutField) else Int(DefaultUploadTimeoutSecs);
    var concurrencyField := Lookup(input, "fileUploadingMaxConcurrency");
    var concurrency := if Truthy(concurrencyField) then ToNumber(concurrencyField) else Int(DefaultMaxConcurrency);
    var storeField := Lookup(input, "googleOAuthTokensStore");
    var tokensStore := if Truthy(storeField) then storeField else Str(DefaultTokensStore);

    var credentialsField := Lookup(input, "googleOAuthCredentials");
    if Truthy(credentialsField) {
      var isValid := TypeOf(credentialsField) == "object"
        && NonEmptyString(Lookup(credentialsField, "client_id"))
        && NonEmptyString(Lookup(credentialsField, "client_secret"))
        && NonEmptyString(Lookup(credentialsField, "redirect_uri"));
      if !isValid {
        return Throw(InvalidCredentials);
      }
    }
    var credentials := if Truthy(credentialsField) then GivenCredentials(credentialsField) else DefaultCredentials;

    var parsedOperations: seq<PlannedOperation> := [];
    var parsedConstants: seq<Value> := [];
    if !Truthy(isSetupMode) {
      parsedConstants :- CollectConstants(input);
      var operationsField := Lookup(input, "operations");
      if !Truthy(operationsField) {
        return Throw(MissingOperations);
      }
      if !operationsField.Arr? || |operationsField.items| == 0 {
        return Throw(OperationsNotNonEmptyArray);
      }
      parsedOperations :- CollectOperations(operationsField.items, types, parsedConstants);
    }
    return Ok(ParsedInput(isSetupMode, timeout, concurrency, tokensStore, credentials,
                          parsedConstants, parsedOperations));
  }

  /** The input must be an object by `typeof`: anything else is rejected with its
      own error, while `null` passes that test and throws on reading `isSetupMode`. */
  lemma InputMustBeObject(input: Value, types: OperationTypes)
    ensures TypeOf(input) != "object" ==> ParseInput(input, types) == Throw(InputNotObject)
    ensures input.Null? ==> ParseInput(input, types) == Throw(TypeError)
  {
  }

  /** A constant the `every` callback accepts, stated on its own: a plain object
      whose `name` is a string and whose `value` is a string, `null`, an array
      or an object. */
  predicate ValidConstant(c: Value) {
    && c.Obj?
    && Lookup(c, "name").Str?
    && var value := Lookup(c, "value");
       value.Str? || value.Null? || value.Arr? || value.Obj?
  }

  /** The callback accepts exactly the valid constants, and throws exactly on `null`. */
  lemma CheckConstantIff(c: Value)
    ensures CheckConstant(c) == Ok(true) <==> ValidConstant(c)
    ensures CheckConstant(c).Throw? <==> c.Null?
  {
  }

  /** `every` holds exactly when the callback accepts every constant. */
  lemma {:induction false} CheckConstantsTrueIff(cs: seq<Value>)
    ensures CheckConstants(cs) == Ok(true) <==> forall i :: 0 <= i < |cs| ==> ValidConstant(cs[i])
    decreases |cs|
  {
    if cs != [] {
      CheckConstantsTrueIff(cs[1..]);
      CheckConstantIff(cs[0]);
      assert forall i :: 1 <= i < |cs| ==> cs[i] == cs[1..][i - 1];
    }
  }

  /** `every` throws exactly when a `null` constant comes before any constant it rejects. */
  lemma {:induction false} CheckConstantsThrowIff(cs: seq<Value>)
    ensures CheckConstants(cs).Throw? <==>
      exists k :: 0 <= k < |cs| && cs[k].Null? && forall i :: 0 <= i < k ==> ValidConstant(cs[i])
    decreases |cs|
  {
    if cs != [] {
      CheckConstantsThrowIff(cs[1..]);
      CheckConstantIff(cs[0]);
      if CheckConstants(cs).Throw? && !cs[0].Null? {
        var k :| 0 <= k < |cs[1..]| && cs[1..][k].Null? && forall i :: 0 <= i < k ==> ValidConstant(cs[1..][i]);
        assert forall i :: 0 <= i < k + 1 ==> ValidConstant(cs[i]) by {
          forall i | 0 <= i < k + 1 ensures ValidConstant(cs[i]) {
            if i > 0 { assert cs[i] == cs[1..][i - 1]; }
          }
        }
        assert cs[k + 1].Null?;
      }
      if exists k :: 0 <= k < |cs| && cs[k].Null? && forall i :: 0 <= i < k ==> ValidConstant(cs[i]) {
        var k :| 0 <= k < |cs| && cs[k].Null? && forall i :: 0 <= i < k ==> ValidConstant(cs[i]);
        if k > 0 {
          assert ValidConstant(cs[0]);
          assert cs[1..][k - 1].Null?;
          assert forall i :: 0 <= i < k - 1 ==> ValidConstant(cs[1..][i]) by {
            forall i | 0 <= i < k - 1 ensures ValidConstant(cs[1..][i]) {
              assert cs[1..][i] == cs[i + 1];
            }
          }
        }
      }
    }
  }

  /** Outside setup mode the constants are the input's array, unchanged and in
      order, every entry valid; no `constants` field gives none. */
  lemma ConstantsCarriedInOrder(input: Value, types: OperationTypes)
    requires ParseInput(input, types).Ok? && !Truthy(ParseInput(input, types).value.isSetupMode)
    ensures var field := Lookup(input, "constants");
      && (field.Undef? ==> ParseInput(input, types).value.constants == [])
      && (!field.Undef? ==>
            && field.Arr?
            && ParseInput(input, types).value.constants == field.items
            && forall i :: 0 <= i < |field.items| ==> ValidConstant(field.items[i]))
  {
    var field := Lookup(input, "constants");
    if !field.Undef? {
      CheckConstantsTrueIff(field.items);
    }
  }

  /** In setup mode nothing beyond the settings and credentials is read: the input
      parses whenever it is an object with acceptable credentials, and the
      constants and operations come out empty. */
  lemma SetupModeYieldsEmptyPlan(input: Value, types: OperationTypes)
    requires input.Obj? && Truthy(Lookup(input, "isSetupMode"))
    ensures ParseInput(input, types).Ok? <==> CheckCredentials(Lookup(input, "googleOAuthCredentials")).Ok?
    ensures ParseInput(input, types).Ok? ==>
      ParseInput(input, types).value.constants == [] && ParseInput(input, types).value.operations == []
  {
  }

  /** The defaults: each setting falls back when its field is falsy (missing, `false`,
      `0`, `""` or `null`); a truthy `isSetupMode` or store is kept as given, and the
      timeout and concurrency are `Number` of a truthy field. */
  lemma DefaultsWhenFalsy(input: Value, types: OperationTypes)
    requires ParseInput(input, types).Ok?
    ensures var p := ParseInput(input, types).value;
      && (!Truthy(Lookup(input, "isSetupMode")) ==> p.isSetupMode == Bool(false))
      && (Truthy(Lookup(input, "isSetupMode")) ==> p.isSetupMode == Lookup(input, "isSetupMode"))
      && (!Truthy(Lookup(input, "fileUploadTimeoutSecs")) ==> p.fileUploadTimeoutSecs == Int(120))
      && (Truthy(Lookup(input, "fileUploadTimeoutSecs")) ==> p.fileUploadTimeoutSecs == ToNumber(Lookup(input, "fileUploadTimeoutSecs")))
      && (!Truthy(Lookup(input, "fileUploadingMaxConcurrency")) ==> p.fileUploadingMaxConcurrency == Int(5))
      && (Truthy(Lookup(input, "fileUploadingMaxConcurrency")) ==> p.fileUploadingMaxConcurrency == ToNumber(Lookup(input, "fileUploadingMaxConcurrency")))
      && (!Truthy(Lookup(input, "googleOAuthTokensStore")) ==> p.googleOAuthTokensStore == Str("google-oauth-tokens"))
      && (Truthy(Lookup(input, "googleOAuthTokensStore")) ==> p.googleOAuthTokensStore == Lookup(input, "googleOAuthTokensStore"))
  {
  }

  /** A numeric string setting is read as the number it spells. */
  lemma NumericSettingFromText(input: Value, types: OperationTypes, n: int)
    requires ParseInput(input, types).Ok?
    requires Lookup(input, "fileUploadTimeoutSecs") == Str(ToJsString(Num(n)))
    ensures ParseInput(input, types).value.fileUploadTimeoutSecs == Int(n)
  {
    NumberOfPrintedInteger(n);
  }

  /** Credentials: falsy selects the defaults; truthy ones are kept only when they are an
      object with non-empty string `client_id`, `client_secret` and `redirect_uri`, and
      otherwise an object input is rejected with `InvalidCredentials`. */
  lemma CredentialsChecked(input: Value, types: OperationTypes)
    ensures var field := Lookup(input, "googleOAuthCredentials");
      && (ParseInput(input, types).Ok? ==>
            && (ParseInput(input, types).value.googleOAuthCredentials == DefaultCredentials <==> !Truthy(field))
            && (Truthy(field) ==>
                  && ParseInput(input, types).value.googleOAuthCredentials == GivenCredentials(field)
                  && NonEmptyString(Lookup(field, "client_id"))
                  && NonEmptyString(Lookup(field, "client_secret"))
                  && NonEmptyString(Lookup(field, "redirect_uri"))))
      && (input.Obj? && CheckCredentials(field).Throw? ==>
            ParseInput(input, types) == Throw(InvalidCredentials))
  {
  }

  /** Outside setup mode the `operations` field must be truthy, then a non-empty array. */
  lemma OperationsRequired(input: Value, types: OperationTypes)
    requires input.Obj? && !Truthy(Lookup(input, "isSetupMode"))
    requires CheckCredentials(Lookup(input, "googleOAuthCredentials")).Ok? && ParseConstants(input).Ok?
    ensures !Truthy(Lookup(input, "operations")) ==> ParseInput(input, types) == Throw(MissingOperations)
    ensures Truthy(Lookup(input, "operations")) && !Lookup(input, "operations").Arr? ==>
      ParseInput(input, types) == Throw(OperationsNotNonEmptyArray)
    ensures Lookup(input, "operations") == Arr([]) ==> ParseInput(input, types) == Throw(OperationsNotNonEmptyArray)
  {
  }

  /** An entry parses only with a type from `OPERATIONS_TYPES`; any other type of a
      non-nullish entry is reported with its value. */
  lemma OperationTypeChecked(op: Value, types: OperationTypes, constants: seq<Value>)
    ensures ParseOperation(op, types, constants).Ok? ==>
      Lookup(op, "type").Str? && Lookup(op, "type").s in types.all
    ensures !IsNullish(op) && !(Lookup(op, "type").Str? && Lookup(op, "type").s in types.all) ==>
      ParseOperation(op, types, constants) == Throw(InvalidOperationType(Lookup(op, "type")))
    ensures IsNullish(op) ==> ParseOperation(op, types, constants) == Throw(TypeError)
  {
  }

  /** An upload entry that parses has an object source with a non-empty string
      `idOrName` and a non-empty `files` array, and a destination that resolves. */
  lemma UploadEntryRequirements(op: Value, types: OperationTypes, constants: seq<Value>)
    requires types.WellFormed()
    requires Lookup(op, "type") == Str(types.upload)
    ensures ParseOperation(op, types, constants).Ok? <==>
      var source := Lookup(op, "source");
      && (source.Obj? || source.Arr?)
      && NonEmptyString(Lookup(source, "idOrName"))
      && Lookup(source, "files").Arr? && |Lookup(source, "files").items| > 0
      && ValidateAndParse(Lookup(op, "destination"), constants).Ok?
  {
  }

  /** An entry of a valid type that is neither upload nor folder deletion is skipped. */
  lemma OtherTypesSkipped(op: Value, types: OperationTypes, constants: seq<Value>)
    requires types.WellFormed()
    requires Lookup(op, "type").Str? && Lookup(op, "type").s in types.all
    requires Lookup(op, "type").s != types.upload && Lookup(op, "type").s != types.foldersDelete
    ensures ParseOperation(op, types, constants) == Ok([])
  {
  }

  /** The loop completes exactly when every entry parses; otherwise it throws what
      the first failing entry throws. */
  lemma {:induction false} ParseOperationsOkIff(ops: seq<Value>, types: OperationTypes, constants: seq<Value>)
    ensures ParseOperations(ops, types, constants).Ok? <==>
      forall i :: 0 <= i < |ops| ==> ParseOperation(ops[i], types, constants).Ok?
    ensures ParseOperations(ops, types, constants).Throw? ==>
      exists k :: 0 <= k < |ops|
        && ParseOperation(ops[k], types, constants) == Throw(ParseOperations(ops, types, constants).error)
        && (forall i :: 0 <= i < k ==> ParseOperation(ops[i], types, constants).Ok?)
    decreases |ops|
  {
    if ops != [] {
      ParseOperationsOkIff(ops[1..], types, constants);
      assert forall i :: 1 <= i < |ops| ==> ops[i] == ops[1..][i - 1];
      if ParseOperation(ops[0], types, constants).Ok? && ParseOperations(ops[1..], types, constants).Throw? {
        var k :| 0 <= k < |ops[1..]|
          && ParseOperation(ops[1..][k], types, constants) == Throw(ParseOperations(ops[1..], types, constants).error)
          && (forall i :: 0 <= i < k ==> ParseOperation(ops[1..][i], types, constants).Ok?);
        assert ops[k + 1] == ops[1..][k];
        assert forall i :: 0 <= i < k + 1 ==> ParseOperation(ops[i], types, constants).Ok?;
      }
    }
  }

  /** The entry's type is one that yields a plan entry. */
  predicate PlannedType(op: Value, types: OperationTypes) {
    Lookup(op, "type") == Str(types.upload) || Lookup(op, "type") == Str(types.foldersDelete)
  }

  /** Plan entry `e` is what entry `op` asks for: its type kept, an upload's source
      passed through and its destination resolved, a deletion's folder resolved,
      against `constants`. */
  predicate PlansEntry(e: PlannedOperation, op: Value, types: OperationTypes, constants: seq<Value>) {
    && Lookup(op, "type") == Str(e.opType)
    && match e
       case PlannedUpload(t, source, destination) =>
         && t == types.upload
         && source == Lookup(op, "source")
         && ValidateAndParse(Lookup(op, "destination"), constants) == Ok(destination)
       case PlannedFolderDelete(t, folder) =>
         && t == types.foldersDelete
         && ValidateAndParse(Lookup(op, "folder"), constants) == Ok(folder)
  }

  /** When every entry is an upload or a deletion, the plan has one entry per input
      operation, in input order. */
  lemma {:induction false} PlanFollowsInputOrder(ops: seq<Value>, types: OperationTypes, constants: seq<Value>)
    requires types.WellFormed()
    requires forall i :: 0 <= i < |ops| ==> PlannedType(ops[i], types)
    requires ParseOperations(ops, types, constants).Ok?
    ensures var plan := ParseOperations(ops, types, constants).value;
      && |plan| == |ops|
      && forall i :: 0 <= i < |ops| ==> PlansEntry(plan[i], ops[i], types, constants)
    decreases |ops|
  {
    if ops != [] {
      assert PlannedType(ops[0], types);
      assert forall i :: 1 <= i < |ops| ==> ops[i] == ops[1..][i - 1];
      PlanFollowsInputOrder(ops[1..], types, constants);
      var head := ParseOperation(ops[0], types, constants).value;
      var rest := ParseOperations(ops[1..], types, constants).value;
      assert |head| == 1 && PlansEntry(head[0], ops[0], types, constants);
      var plan := ParseOperations(ops, types, constants).value;
      assert plan == head + rest;
      forall i | 0 <= i < |ops| ensures PlansEntry(plan[i], ops[i], types, constants) {
        if i > 0 {
          assert plan[i] == rest[i - 1];
        }
      }
    }
  }

  /** When `OPERATIONS_TYPES` holds only the upload and deletion types, every entry
      of a list that parses is one of the two, so the plan has one entry per
      operation, in order. */
  lemma ClosedTypesArePlanned(ops: seq<Value>, types: OperationTypes, constants: seq<Value>)
    requires types.WellFormed() && types.all == {types.upload, types.foldersDelete}
    requires ParseOperations(ops, types, constants).Ok?
    ensures forall i :: 0 <= i < |ops| ==> PlannedType(ops[i], types)
    ensures var plan := ParseOperations(ops, types, constants).value;
      && |plan| == |ops|
      && forall i :: 0 <= i < |ops| ==> PlansEntry(plan[i], ops[i], types, constants)
  {
    ParseOperationsOkIff(ops, types, constants);
    forall i | 0 <= i < |ops| ensures PlannedType(ops[i], types) {
      OperationTypeChecked(ops[i], types, constants);
    }
    PlanFollowsInputOrder(ops, types, constants);
  }

  /** Outside setup mode, an input whose every operation is an upload or a deletion
      parses to one plan entry per operation, in order, each resolved against the
      parsed constants. */
  lemma InputPlanFollowsOperations(input: Value, types: OperationTypes)
    requires types.WellFormed()
    requires ParseInput(input, types).Ok? && !Truthy(ParseInput(input, types).value.isSetupMode)
    requires var ops := Lookup(input, "operations");
      ops.Arr? && forall i :: 0 <= i < |ops.items| ==> PlannedType(ops.items[i], types)
    ensures var p := ParseInput(input, types).value;
      var ops := Lookup(input, "operations").items;
      && |p.operations| == |ops| > 0
      && forall i :: 0 <= i < |ops| ==> PlansEntry(p.operations[i], ops[i], types, p.constants)
  {
    var p := ParseInput(input, types).value;
    var ops := Lookup(input, "operations").items;
    assert ParseConstants(input) == Ok(p.constants);
    assert ParseOperations(ops, types, p.constants) == Ok(p.operations);
    PlanFollowsInputOrder(ops, types, p.constants);
  }

  /** The parsed input copied onto the `Config` object. */
  class Config {
    const input: Value
    const isSetupMode: Value
    const fileUploadTimeoutSecs: Numeric
    const fileUploadingMaxConcurrency: Numeric
    const googleOAuthTokensStore: Value
    const googleOAuthCredentials: Credentials
    const constants: seq<Value>
    const operations: seq<PlannedOperation>

    /** The parsed input the fields hold. */
    function Parsed(): ParsedInput {
      ParsedInput(isSetupMode, fileUploadTimeoutSecs, fileUploadingMaxConcurrency,
                  googleOAuthTokensStore, googleOAuthCredentials, constants, operations)
    }

    /** The key-by-key copy of the constructor. */
    constructor Copy(input: Value, parsed: ParsedInput)
      ensures this.input == input && Parsed() == parsed
    {
      this.input := input;
      isSetupMode := parsed.isSetupMode;
      fileUploadTimeoutSecs := parsed.fileUploadTimeoutSecs;
      fileUploadingMaxConcurrency := parsed.fileUploadingMaxConcurrency;
      googleOAuthTokensStore := parsed.googleOAuthTokensStore;
      googleOAuthCredentials := parsed.googleOAuthCredentials;
      constants := parsed.constants;
      operations := parsed.operations;
    }

    /** `new Config(input)`: throws what the parser throws, otherwise a fresh object
        holding the input and every parsed field. */
    static method Create(input: Value, types: OperationTypes) returns (r: Result<Config>)
      ensures r.Throw? <==> ParseInput(input, types).Throw?
      ensures r.Throw? ==> r.error == ParseInput(input, types).error
      ensures r.Ok? ==> fresh(r.value) && r.value.input == input
                        && r.value.Parsed() == ParseInput(input, types).value
    {
      var parsed := ValidateAndParseInput(input, types);
      if parsed.Throw? {
        return Throw(parsed.error);
      }
      var c := new Config.Copy(input, parsed.value);
      return Ok(c);
    }
  }
}
