/** The older operation objects of src/operations.js: a files provider whose
    `forceCloud` is always false and whose `getFileName` reads `options`
    unguarded, `CopyFilesOperation` (destination guard, source-type dispatch,
    sequential copies) and a `DeleteFolderOperation` on a path string that
    treats a 404 "File not found" answer as a folder already gone. */
module LegacyOperations {
  import opened Strings
  import opened Js
  import opened Services
  import Operations

  const KeyValueStoreSourceType: string := "key-value-store"
  const FileNotFoundMessage: string := "File not found"

  /** `getFileName(key)` of this provider: as in src/operations/index.js, except that
      `file.options.resource` is read without checking `options` first. */
  function FileName(files: Value, key: string): (r: Result<Value>)
    ensures !files.Arr? ==> r == Throw(TypeError)
    ensures files.Arr? && Operations.NoFileWithKey(files.items, key) ==> r == Throw(FileNotFound(key))
    ensures r.Ok? ==> Truthy(r.value) || r.value == Str(key)
    ensures r.Throw? ==> r.error == TypeError || r.error == FileNotFound(key)
    ensures forall i ::
      (files.Arr? && Operations.FirstFileWithKey(files.items, key, i) && IsNullish(Lookup(files.items[i], "options")))
        ==> r == Throw(TypeError)
  {
    if !files.Arr? then Throw(TypeError)
    else
      var found := FindBy(files.items, "key", key);
      if found.Throw? then Throw(found.error)
      else if found.value.None? then Throw(FileNotFound(key))
      else
        var file := files.items[found.value.value];
        assert Operations.FirstFileWithKey(files.items, key, found.value.value);
        var resource :- Get(Lookup(file, "options"), "resource");
        if Truthy(resource) && Truthy(Lookup(resource, "name")) then Ok(Lookup(resource, "name"))
        else if Truthy(Lookup(file, "name")) then Ok(Lookup(file, "name"))
        else Ok(Lookup(file, "key"))
  }

  /** The two `getFileName`s agree whenever the file found has an `options` value;
      when it has none, only the older one throws. */
  lemma FileNameAgreesWithCurrent(files: seq<Value>, key: string, i: nat)
    requires Operations.FirstFileWithKey(files, key, i)
    ensures !IsNullish(Lookup(files[i], "options")) ==>
      FileName(Arr(files), key) == Operations.FileName(Arr(files), key)
    ensures IsNullish(Lookup(files[i], "options")) ==>
      FileName(Arr(files), key) == Throw(TypeError) && Operations.FileName(Arr(files), key).Ok?
  {
    FindByFirstMatch(files, "key", key, i);
  }

  class KeyValueStoreFilesProvider {
    const id: Value
    const forceCloud: Value
    const files: Value
    var kvStore: KeyValueStore?

    /** `new KeyValueStoreFilesProvider(id, forceCloud, files)`: the `forceCloud`
        argument is ignored and the field is always `false`. */
    constructor(id: Value, forceCloud: Value, files: Value)
      ensures this.id == id && this.files == files
      ensures this.forceCloud == Bool(false)
      ensures kvStore == null
    {
      this.id := id;
      this.forceCloud := Bool(false);
      this.files := files;
      kvStore := null;
    }
  }

  /** The values `for (const file of files)` visits: an array's elements, a string's
      characters; any other value is not iterable. */
  function Iterate(v: Value): (r: Result<seq<Value>>)
    ensures r.Throw? <==> !(v.Arr? || v.Str?)
    ensures r.Throw? ==> r.error == TypeError
    ensures v.Arr? ==> r == Ok(v.items)
    ensures v.Str? ==> r.Ok? && |r.value| == |v.s| && forall i :: 0 <= i < |v.s| ==> r.value[i] == Str([v.s[i]])
  {
    match v
    case Arr(items) => Ok(items)
    case Str(s) => Ok(seq(|s|, i requires 0 <= i < |s| => Str([s[i]])))
    case _ => Throw(TypeError)
  }

  /** `calls` are one `copyFile` per file, in order, all into `folderId`. */
  ghost predicate CopiedEach(calls: seq<DriveCall>, files: seq<Value>, folderId: Value) {
    && |calls| == |files|
    && forall i :: 0 <= i < |calls| ==> calls[i] == CopyFileCall(files[i], folderId, calls[i].response)
  }

  /** The `for ... of` loop of `execute`: each copy awaited before the next. */
  method CopyEach(drive: DriveService, files: seq<Value>, folderId: Value)
    modifies drive
    ensures |drive.calls| == |old(drive.calls)| + |files|
    ensures drive.calls[..|old(drive.calls)|] == old(drive.calls)
    ensures CopiedEach(drive.calls[|old(drive.calls)|..], files, folderId)
  {
    ghost var start := |drive.calls|;
    for i := 0 to |files|
      invariant |drive.calls| == start + i
      invariant drive.calls[..start] == old(drive.calls)
      invariant CopiedEach(drive.calls[start..], files[..i], folderId)
    {
      ghost var before := drive.calls[start..];
      var response := drive.CopyFile(files[i], folderId);
      assert drive.calls[start..] == before + [CopyFileCall(files[i], folderId, response)];
    }
    assert files[..|files|] == files;
  }

  /** `const { inCloud: forceCloud = false } = source`. */
  function InCloudOption(source: Value): Value {
    if Lookup(source, "inCloud").Undef? then Bool(false) else Lookup(source, "inCloud")
  }

  class CopyFilesOperation {
    const source: Value
    const destination: string
    /** `this._filesProvider`. */
    var filesProviderCache: KeyValueStoreFilesProvider?

    /** A cached provider was built from this operation's source. */
    ghost predicate Valid()
      reads this
    {
      filesProviderCache != null ==>
        && Lookup(source, "type") == Str(KeyValueStoreSourceType)
        && filesProviderCache.id == Lookup(source, "id")
        && filesProviderCache.files == Lookup(source, "files")
    }

    constructor Copy(source: Value, destination: string)
      ensures this.source == source && this.destination == destination
      ensures filesProviderCache == null
    {
      this.source := source;
      this.destination := destination;
      filesProviderCache := null;
    }

    /** `new CopyFilesOperation(source, destination)`: the destination must be a
        non-empty string; the source is not checked. */
    static method Create(source: Value, destination: Value) returns (r: Result<CopyFilesOperation>)
      ensures r.Throw? <==> !NonEmptyString(destination)
      ensures r.Throw? ==> r.error == DestinationNotString
      ensures r.Ok? ==>
        && fresh(r.value) && r.value.Valid()
        && r.value.source == source && Str(r.value.destination) == destination
        && r.value.filesProviderCache == null
    {
      if !Truthy(destination) || TypeOf(destination) != "string" || destination == Str("") {
        return Throw(DestinationNotString);
      }
      var op := new CopyFilesOperation.Copy(source, destination.s);
      return Ok(op);
    }

    /** `filesProvider()`: a cached provider is returned as it is; otherwise a source
        of type `key-value-store` gets a new provider, which is cached, and any other
        type is rejected by name. */
    method FilesProvider() returns (r: Result<KeyValueStoreFilesProvider>)
      requires Valid()
      modifies this`filesProviderCache
      ensures Valid()
      ensures old(filesProviderCache) != null ==>
        r == Ok(old(filesProviderCache)) && filesProviderCache == old(filesProviderCache)
      ensures old(filesProviderCache) == null ==>
        && (IsNullish(source) ==> r == Throw(TypeError))
        && (!IsNullish(source) && Lookup(source, "type") != Str(KeyValueStoreSourceType) ==>
              r == Throw(UnknownSourceType(Lookup(source, "type"))))
        && (r.Throw? <==> Lookup(source, "type") != Str(KeyValueStoreSourceType))
        && (r.Throw? ==> filesProviderCache == null)
        && (r.Ok? ==>
              && Lookup(source, "type") == Str(KeyValueStoreSourceType)
              && fresh(r.value) && filesProviderCache == r.value
              && r.value.forceCloud == Bool(false) && r.value.kvStore == null)
      ensures r.Ok? ==> r.value.files == Lookup(source, "files") && r.value.id == Lookup(source, "id")
    {
      if filesProviderCache != null {
        return Ok(filesProviderCache);
      }
      if IsNullish(source) {
        return Throw(TypeError);
      }
      var sourceType := Lookup(source, "type");
      if sourceType != Str(KeyValueStoreSourceType) {
        return Throw(UnknownSourceType(sourceType));
      }
      var provider := new KeyValueStoreFilesProvider(Lookup(source, "id"), InCloudOption(source), Lookup(source, "files"));
      filesProviderCache := provider;
      return Ok(provider);
    }

    /** `execute(driveService)`: `createFolder` on the destination path, its
        `folderId`, the provider, then one `copyFile` per file, in order, each into
        that folder id. */
    method Execute(drive: DriveService) returns (r: Result<()>)
      requires Valid()
      modifies this`filesProviderCache, drive
      ensures Valid()
      ensures old(filesProviderCache) != null ==> filesProviderCache == old(filesProviderCache)
      ensures r.Ok? ==> filesProviderCache != null
      ensures |drive.calls| > |old(drive.calls)|
      ensures drive.calls[..|old(drive.calls)|] == old(drive.calls)
      ensures var created := drive.calls[|old(drive.calls)|];
        && created == CreateFolderCall(FolderPathString(destination), created.response)
        && (IsNullish(created.response) ==> r == Throw(TypeError) && filesProviderCache == old(filesProviderCache))
        && (!IsNullish(created.response) && old(filesProviderCache) == null ==>
              (filesProviderCache != null <==> Lookup(source, "type") == Str(KeyValueStoreSourceType)))
        && (r.Throw? ==> |drive.calls| == |old(drive.calls)| + 1)
        && (r.Throw? <==>
              || IsNullish(created.response)
              || Lookup(source, "type") != Str(KeyValueStoreSourceType)
              || Iterate(Lookup(source, "files")).Throw?)
        && (r.Throw? ==> r.error == TypeError || r.error == UnknownSourceType(Lookup(source, "type")))
        && (r.Ok? ==>
              && Lookup(source, "type") == Str(KeyValueStoreSourceType)
              && Iterate(Lookup(source, "files")).Ok?
              && CopiedEach(drive.calls[|old(drive.calls)| + 1..], Iterate(Lookup(source, "files")).value,
                            Lookup(created.response, "folderId")))
    {
      var created := drive.CreateFolder(FolderPathString(destination));
      ghost var afterCreate := drive.calls;
      var folderId :- Get(created, "folderId");
      var provider :- FilesProvider();
      var files :- Iterate(provider.files);
      CopyEach(drive, files, folderId);
      assert drive.calls[..|afterCreate|] == afterCreate;
      assert drive.calls[|old(drive.calls)| + 1..] == drive.calls[|afterCreate|..];
      return Ok(());
    }
  }

  /** `res.code === 404 && res.message.includes('File not found')`: reading a
      property of a `null`/`undefined` response or message throws, as does a
      message with no `includes` (neither a string nor an array). */
  function IsFileNotFound(res: Value): (r: Result<bool>)
    ensures IsNullish(res) ==> r == Throw(TypeError)
    ensures !IsNullish(res) && Lookup(res, "code") != Num(404) ==> r == Ok(false)
    ensures r == Ok(true) ==> Lookup(res, "code") == Num(404)
    ensures Lookup(res, "code") == Num(404) && Lookup(res, "message").Str? ==>
      r == Ok(Contains(Lookup(res, "message").s, FileNotFoundMessage))
    ensures r.Throw? ==> r.error == TypeError
  {
    var code :- Get(res, "code");
    if code != Num(404) then Ok(false)
    else
      match Lookup(res, "message")
      case Str(s) => Ok(Contains(s, FileNotFoundMessage))
      case Arr(items) => Ok(Str(FileNotFoundMessage) in items)
      case _ => Throw(TypeError)
  }

  /** A 404 whose message mentions "File not found" anywhere is recognised. */
  lemma NotFoundAnswerRecognised(res: Value, before: string, after: string)
    requires Lookup(res, "code") == Num(404)
    requires Lookup(res, "message") == Str(before + FileNotFoundMessage + after)
    ensures IsFileNotFound(res) == Ok(true)
  {
    var s := before + FileNotFoundMessage + after;
    assert OccursAt(s, FileNotFoundMessage, |before|) by {
      assert s[|before|..|before| + |FileNotFoundMessage|] == FileNotFoundMessage;
    }
    ContainsIff(s, FileNotFoundMessage);
  }

  /** A message that lacks one of the characters of "File not found" is never taken
      as "already gone". */
  lemma OtherMessagesAreDeletions(res: Value, c: char)
    requires Lookup(res, "message").Str? && c in FileNotFoundMessage && c !in Lookup(res, "message").s
    ensures IsFileNotFound(res) == Ok(false)
  {
    if Contains(Lookup(res, "message").s, FileNotFoundMessage) {
      ContainsCharOfSub(Lookup(res, "message").s, FileNotFoundMessage, c);
    }
  }

  /** What the older `execute` ends with: no folder under that path, a deletion, or
      a deletion answered by 404 "File not found", logged as already gone. */
  datatype DeleteOutcome = FolderMissing | Deleted(response: Value) | AlreadyGone(response: Value)

  /** The outcome once a folder was deleted and the `deleteFolder` response is known. */
  function Outcome(response: Value): (r: Result<DeleteOutcome>)
    ensures r.Throw? <==> IsFileNotFound(response).Throw?
    ensures r.Ok? ==> !r.value.FolderMissing? && r.value.response == response
    ensures r.Ok? ==> (r.value.AlreadyGone? <==> IsFileNotFound(response) == Ok(true))
  {
    var gone :- IsFileNotFound(response);
    if gone then Ok(AlreadyGone(response)) else Ok(Deleted(response))
  }

  class DeleteFolderOperation {
    const folder: string

    constructor Copy(folder: string)
      ensures this.folder == folder
    {
      this.folder := folder;
    }

    /** `new DeleteFolderOperation(folder)`: the folder must be a non-empty string. */
    static method Create(folder: Value) returns (r: Result<DeleteFolderOperation>)
      ensures r.Throw? <==> !NonEmptyString(folder)
      ensures r.Throw? ==> r.error == FolderNotString
      ensures r.Ok? ==> fresh(r.value) && Str(r.value.folder) == folder
    {
      if !Truthy(folder) || TypeOf(folder) != "string" || folder == Str("") {
        return Throw(FolderNotString);
      }
      var op := new DeleteFolderOperation.Copy(folder.s);
      return Ok(op);
    }

    /** `execute(driveService)`: `getFolderInfo` on the path; a falsy `folderId` ends
        it with no further call; otherwise exactly one `deleteFolder` with that id,
        whose 404 "File not found" answer is an outcome, not an error. */
    method Execute(drive: DriveService) returns (r: Result<DeleteOutcome>)
      modifies drive
      ensures |drive.calls| > |old(drive.calls)|
      ensures drive.calls[..|old(drive.calls)|] == old(drive.calls)
      ensures var info := drive.calls[|old(drive.calls)|];
        var folderId := Lookup(info.response, "folderId");
        && info == GetFolderInfoCall(FolderPathString(folder), info.response)
        && (IsNullish(info.response) ==> r == Throw(TypeError) && |drive.calls| == |old(drive.calls)| + 1)
        && (!IsNullish(info.response) && !Truthy(folderId) ==>
              r == Ok(FolderMissing) && |drive.calls| == |old(drive.calls)| + 1)
        && (Truthy(folderId) ==>
              && |drive.calls| == |old(drive.calls)| + 2
              && var deleted := drive.calls[|old(drive.calls)| + 1];
                 && deleted == DeleteFolderCall(folderId, deleted.response)
                 && r == Outcome(deleted.response))
    {
      var info := drive.GetFolderInfo(FolderPathString(folder));
      var folderId :- Get(info, "folderId");
      if !Truthy(folderId) {
        return Ok(FolderMissing);
      }
      var response := drive.DeleteFolder(folderId);
      r := Outcome(response);
    }
  }
}
