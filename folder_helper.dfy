/** The `Folder` helper (src/operations/helper.js): resolution of a user's
    folder reference into folder parameters, the validation the `Folder`
    constructor applies, and the `Folder` object with its path decomposition
    and memoised display string. */
module FolderHelper {
  import opened Strings
  import opened Js

  /** The object `validateAndParse` returns; `Undef` marks a key left `undefined`. */
  datatype FolderParams = FolderParams(parentFolderId: Value, parentFolderName: Value, relativePath: Value)

  /** The folder parameters as the plain object with three keys that the code builds. */
  function AsObject(p: FolderParams): Value {
    Obj(map["parentFolderId" := p.parentFolderId,
            "parentFolderName" := p.parentFolderName,
            "relativePath" := p.relativePath])
  }

  /** The text that marks a folder string as a constant reference. */
  const ConstantsToken: string := "constants."

  /** `s.split('.')[1]`: the text between the first and the second `.`. */
  function ConstantName(s: string): string
    requires '.' in s
  {
    SplitHasSeveralPiecesIff(s, '.');
    Split(s, '.')[1]
  }

  /** The constant substitution: a string containing the token is replaced, once,
      by the `value` of the first constant whose `name` is the constant name. */
  function Substitute(folder: Value, constants: seq<Value>): Result<Value> {
    if folder.Str? && Contains(folder.s, ConstantsToken) then
      assert ConstantsToken[9] == '.';
      ContainsCharOfSub(folder.s, ConstantsToken, '.');
      var name := ConstantName(folder.s);
      var found :- FindBy(constants, "name", name);
      match found
      case None => Throw(ConstantNotFound(name))
      case Some(i) => Ok(Lookup(constants[i], "value"))
    else Ok(folder)
  }

  /** The last step of `validateAndParse`: a truthy parent id keeps the whole path as
      the relative path; otherwise the first `/`-segment names the parent folder and
      the rest, if there is a `/`, is the relative path. */
  function Anchor(parentFolderId: Value, path: string): FolderParams {
    if Truthy(parentFolderId) then FolderParams(parentFolderId, Undef, Str(path))
    else
      var parts := Split(path, '/');
      FolderParams(parentFolderId, Str(parts[0]),
                   if |parts| > 1 then Str(Join(parts[1..], '/')) else Undef)
  }

  /** `Folder.validateAndParse({ folder, constants })`. The second guard of the
      object branch re-tests `path`, which is a string by then, so it never throws
      and a non-string `parentFolderId` is carried through. */
  function ValidateAndParse(folder: Value, constants: seq<Value>): Result<FolderParams> {
    if !IsPlainObject(folder) && !folder.Str? then Throw(FolderNotObjectOrString)
    else
      var finalFolder :- Substitute(folder, constants);
      if IsPlainObject(finalFolder) then
        var path := Lookup(finalFolder, "path");
        if !path.Str? then Throw(PathNotString)
        else Ok(Anchor(Lookup(finalFolder, "parentFolderId"), path.s))
      else if finalFolder.Str? then Ok(Anchor(Undef, finalFolder.s))
      else Throw(TypeError)  // `split` is not a method of the substituted value
  }

  /** Only a value that is neither a plain object nor a string is rejected up front. */
  lemma RejectsNonObjectNonString(folder: Value, constants: seq<Value>)
    ensures ValidateAndParse(folder, constants) == Throw(FolderNotObjectOrString)
            <==> !IsPlainObject(folder) && !folder.Str?
  {
  }

  /** The constant name is the segment between the first and the second `.`. */
  lemma ConstantNameIsSecondSegment(s: string)
    requires '.' in s
    ensures var head := Split(s, '.')[0];
      && '.' !in head && '.' !in ConstantName(s)
      && head + "." + ConstantName(s) <= s
      && (|s| == |head| + 1 + |ConstantName(s)| || s[|head| + 1 + |ConstantName(s)|] == '.')
  {
    var parts := Split(s, '.');
    SplitHasSeveralPiecesIff(s, '.');
    FirstPieceIsPrefixBeforeSeparator(s, '.');
    SplitPiecesLackSeparator(s, '.');
    assert '.' !in parts[1];
    var tail := Join(parts[1..], '.');
    assert s == parts[0] + "." + tail;
    if |parts| == 2 {
      assert tail == parts[1];
    } else {
      assert tail == parts[1] + "." + Join(parts[2..], '.');
      assert s == parts[0] + "." + parts[1] + "." + Join(parts[2..], '.');
    }
  }

  /** A string holding the token is replaced by its constant's value exactly once:
      an unknown name is an error; a string value is split as a path as it stands,
      even when it holds the token again; an object value is parsed as an object;
      any other value (`null`, an array, a number) has no `split` and throws. */
  lemma ConstantSubstitutedOnce(s: string, constants: seq<Value>)
    requires Contains(s, ConstantsToken)
    ensures '.' in s
    ensures var name := ConstantName(s);
      && (FindBy(constants, "name", name) == Ok(None) ==>
            ValidateAndParse(Str(s), constants) == Throw(ConstantNotFound(name)))
      && (forall i :: FindBy(constants, "name", name) == Ok(Some(i)) ==>
            var value := Lookup(constants[i], "value");
            && (value.Str? ==> ValidateAndParse(Str(s), constants) == Ok(Anchor(Undef, value.s)))
            && (IsPlainObject(value) ==> ValidateAndParse(Str(s), constants) == ValidateAndParse(value, []))
            && (!IsPlainObject(value) && !value.Str? ==> ValidateAndParse(Str(s), constants) == Throw(TypeError)))
  {
    assert ConstantsToken[9] == '.';
    ContainsCharOfSub(s, ConstantsToken, '.');
  }

  /** A string without the token is the path itself, anchored by name. */
  lemma PlainStringIsPath(s: string, constants: seq<Value>)
    requires !Contains(s, ConstantsToken)
    ensures ValidateAndParse(Str(s), constants) == Ok(Anchor(Undef, s))
  {
  }

  /** An object folder must carry a string `path`; its `parentFolderId` is copied
      through unchanged, and a truthy one keeps the path verbatim. */
  lemma ObjectFolderParsed(folder: Value, constants: seq<Value>)
    requires IsPlainObject(folder)
    ensures var path := Lookup(folder, "path");
      && (!path.Str? ==> ValidateAndParse(folder, constants) == Throw(PathNotString))
      && (path.Str? ==> ValidateAndParse(folder, constants).Ok?
                        && ValidateAndParse(folder, constants).value.parentFolderId == Lookup(folder, "parentFolderId"))
      && (path.Str? && Truthy(Lookup(folder, "parentFolderId")) ==>
            ValidateAndParse(folder, constants)
              == Ok(FolderParams(Lookup(folder, "parentFolderId"), Undef, path)))
  {
  }

  /** Without a truthy parent id the parent name is the text before the first `/`;
      the relative path is absent exactly when there is no `/`, and otherwise name,
      `/` and relative path put back together give the path. */
  lemma NameAnchorSplitsAtFirstSlash(parentFolderId: Value, path: string)
    requires !Truthy(parentFolderId)
    ensures var p := Anchor(parentFolderId, path);
      && p.parentFolderId == parentFolderId
      && p.parentFolderName.Str? && '/' !in p.parentFolderName.s
      && (p.relativePath == Undef <==> '/' !in path)
      && (p.relativePath == Undef ==> p.parentFolderName.s == path)
      && (p.relativePath.Str? ==> p.parentFolderName.s + "/" + p.relativePath.s == path)
  {
    SplitHasSeveralPiecesIff(path, '/');
    FirstPieceIsPrefixBeforeSeparator(path, '/');
  }

  /** `Folder.validate(params)`. */
  function Validate(params: Value): Result<()> {
    if !IsPlainObject(params) then Throw(ParamsNotObject)
    else if !Lookup(params, "parentFolderId").Str? && !Lookup(params, "parentFolderName").Str? then
      Throw(NoParentAnchor)
    else if Truthy(Lookup(params, "relativePath")) && !Lookup(params, "relativePath").Str? then
      Throw(RelativePathNotString)
    else Ok(())
  }

  /** `validate` asks for one string anchor but does not forbid both. */
  lemma ValidateAcceptsBothAnchors(id: string, name: string)
    ensures Validate(Obj(map["parentFolderId" := Str(id), "parentFolderName" := Str(name)])).Ok?
  {
  }

  /** `validate` rejects what is not a plain object, and a truthy relative path that is
      not a string; a falsy one of any type passes. */
  lemma ValidateRejections(params: Value)
    ensures !IsPlainObject(params) ==> Validate(params) == Throw(ParamsNotObject)
    ensures (IsPlainObject(params) && !Lookup(params, "parentFolderId").Str? &&
             !Lookup(params, "parentFolderName").Str?) ==> Validate(params) == Throw(NoParentAnchor)
    ensures Validate(params).Ok? ==> var rel := Lookup(params, "relativePath"); !Truthy(rel) || rel.Str?
  {
  }

  /** The result of `validateAndParse` passes `validate` exactly when its parent id
      is a string or falsy: a truthy non-string id leaves no string anchor. */
  lemma ResolvedParamsValidateIff(folder: Value, constants: seq<Value>)
    requires ValidateAndParse(folder, constants).Ok?
    ensures var p := ValidateAndParse(folder, constants).value;
      Validate(AsObject(p)).Ok? <==> !Truthy(p.parentFolderId) || p.parentFolderId.Str?
  {
    var finalFolder := Substitute(folder, constants).value;
    var id, path;
    if IsPlainObject(finalFolder) {
      id, path := Lookup(finalFolder, "parentFolderId"), Lookup(finalFolder, "path").s;
    } else {
      id, path := Undef, finalFolder.s;
    }
    assert ValidateAndParse(folder, constants).value == Anchor(id, path);
    if !Truthy(id) {
      NameAnchorSplitsAtFirstSlash(id, path);
    }
  }

  /** A non-string parent id passes resolution and is then refused by `validate`. */
  lemma NumericParentIdPassesResolutionOnly()
    ensures var folder := Obj(map["path" := Str("a"), "parentFolderId" := Num(5)]);
      && ValidateAndParse(folder, []) == Ok(FolderParams(Num(5), Undef, Str("a")))
      && Validate(AsObject(FolderParams(Num(5), Undef, Str("a")))) == Throw(NoParentAnchor)
  {
    var folder := Obj(map["path" := Str("a"), "parentFolderId" := Num(5)]);
    assert Lookup(folder, "path") == Str("a");
    assert Lookup(folder, "parentFolderId") == Num(5);
  }

  /** The display string `{<name>::<id>}/<relative>`: the name when truthy, `::id` when
      the id is truthy, `/relative` when the relative path is truthy. */
  function DisplayString(name: Value, id: Value, relative: Value): string {
    "{" + (if Truthy(name) then ToJsString(name) else "")
        + (if Truthy(id) then "::" + ToJsString(id) else "")
        + "}" + (if Truthy(relative) then "/" + ToJsString(relative) else "")
  }

  /** A display string is never empty, so once stored it is truthy. */
  lemma DisplayStringIsTruthy(name: Value, id: Value, relative: Value)
    ensures Truthy(Str(DisplayString(name, id, relative)))
  {
  }

  /** A path anchored by name displays as the parent name in braces followed by the
      rest of the path; removing the braces gives back the path. */
  lemma DisplayOfNameAnchoredPath(path: string)
    requires '/' in path
    ensures var p := Anchor(Undef, path);
      && p.relativePath.Str?
      && (p.relativePath.s != "" ==>
            DisplayString(p.parentFolderName, p.parentFolderId, p.relativePath)
              == "{" + p.parentFolderName.s + "}" + "/" + p.relativePath.s)
      && p.parentFolderName.s + "/" + p.relativePath.s == path
  {
    NameAnchorSplitsAtFirstSlash(Undef, path);
  }

  /** One entry of `getFolders`: `id` is `Undef` on the non-root entries, which have no such key. */
  datatype FolderEntry = FolderEntry(id: Value, name: Value, root: bool)

  /** A value that either is a `Folder` instance or is not. */
  datatype FolderArg = FolderInstance(folder: Folder) | OtherValue(value: Value)

  /** A `Folder`: the properties copied from its parameters, and the display-string cache. */
  class Folder {
    /** `this.params`; a `params` key of the argument overwrites it when the keys are copied. */
    const params: Value
    /** The own properties copied from the constructor's argument. */
    const props: map<string, Value>
    /** `this.folderAsString`: set from the argument's key of that name, then by `toString`. */
    var folderAsString: Value

    /** The object invariant: the copied properties passed `validate`. */
    ghost predicate Valid() {
      Validate(Obj(props)).Ok?
    }

    function ParentFolderId(): Value {
      Lookup(Obj(props), "parentFolderId")
    }

    function ParentFolderName(): Value {
      Lookup(Obj(props), "parentFolderName")
    }

    function RelativePath(): Value {
      Lookup(Obj(props), "relativePath")
    }

    /** The `/`-segments of a truthy relative path; none when it is falsy. */
    function Segments(): seq<string>
      requires Valid()
    {
      if Truthy(RelativePath()) then Split(RelativePath().s, '/') else []
    }

    /** The field copy of the constructor, after validation has passed. */
    constructor Copy(fields: map<string, Value>)
      ensures props == fields
      ensures params == (if "params" in fields then fields["params"] else Obj(fields))
      ensures folderAsString == Lookup(Obj(fields), "folderAsString")
    {
      props := fields;
      params := if "params" in fields then fields["params"] else Obj(fields);
      folderAsString := Lookup(Obj(fields), "folderAsString");
    }

    /** `new Folder(params)`: throws what `validate` throws, otherwise a fresh folder
        holding the parameters' properties. */
    static method Create(params: Value) returns (r: Result<Folder>)
      ensures r.Throw? <==> Validate(params).Throw?
      ensures r.Throw? ==> r.error == Validate(params).error
      ensures r.Ok? ==> && fresh(r.value) && r.value.Valid()
                        && Obj(r.value.props) == params
                        && r.value.folderAsString == Lookup(params, "folderAsString")
    {
      var checked := Validate(params);
      if checked.Throw? {
        return Throw(checked.error);
      }
      var f := new Folder.Copy(params.fields);
      return Ok(f);
    }

    /** `getFolders()`: the root entry with the parent id and name, then one non-root
        entry per `/`-segment of a truthy relative path, in order; the non-root names
        joined with `/` give the relative path back. */
    method GetFolders() returns (folders: seq<FolderEntry>)
      requires Valid()
      ensures |folders| == 1 + |Segments()|
      ensures folders[0] == FolderEntry(ParentFolderId(), ParentFolderName(), true)
      ensures forall i :: 0 <= i < |Segments()| ==>
                folders[i + 1] == FolderEntry(Undef, Str(Segments()[i]), false)
      ensures Truthy(RelativePath()) ==>
                Join(seq(|folders| - 1, i requires 0 <= i < |folders| - 1 => ToJsString(folders[i + 1].name)), '/')
                  == RelativePath().s
    {
      folders := [FolderEntry(ParentFolderId(), ParentFolderName(), true)];
      if Truthy(RelativePath()) {
        var segments := Split(RelativePath().s, '/');
        for i := 0 to |segments|
          invariant |folders| == 1 + i
          invariant folders[0] == FolderEntry(ParentFolderId(), ParentFolderName(), true)
          invariant forall k :: 0 <= k < i ==> folders[k + 1] == FolderEntry(Undef, Str(segments[k]), false)
        {
          folders := folders + [FolderEntry(Undef, Str(segments[i]), false)];
        }
        JoinSplit(RelativePath().s, '/');
        assert seq(|folders| - 1, i requires 0 <= i < |folders| - 1 => ToJsString(folders[i + 1].name)) == segments;
      }
    }

    /** The display string of this folder's current properties. */
    function Display(): string {
      DisplayString(ParentFolderName(), ParentFolderId(), RelativePath())
    }

    /** `toString()`: a truthy cached string is returned as it is; otherwise the display
        string is computed, stored in the cache and returned, and from then on the
        cache is truthy, so every later call returns that same stored value. */
    method ToString() returns (r: Value)
      modifies this`folderAsString
      ensures Truthy(old(folderAsString)) ==> r == old(folderAsString) && folderAsString == old(folderAsString)
      ensures !Truthy(old(folderAsString)) ==> r == Str(Display()) && folderAsString == r
      ensures Truthy(folderAsString)
    {
      if Truthy(folderAsString) {
        return folderAsString;
      }
      DisplayStringIsTruthy(ParentFolderName(), ParentFolderId(), RelativePath());
      folderAsString := Str(Display());
      r := folderAsString;
    }
  }
}
