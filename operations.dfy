/** The operation objects of src/operations/index.js: the key-value-store files
    provider (file lookup by key, display-name precedence, the open-once
    `init`), `UploadOperation` (constructor guard, memoised provider, upload and
    result recording) and `DeleteFolderOperation` (constructor guard, delete
    only a folder that was found). */
module Operations {
  import opened Js
  import opened FolderHelper
  import opened Services
  import Config

  /** `files[i]` is the entry `files.find(f => f.key === key)` stops at: it carries
      the key, and every earlier entry is readable and carries another key. */
  predicate FirstFileWithKey(files: seq<Value>, key: string, i: int) {
    && 0 <= i < |files|
    && Lookup(files[i], "key") == Str(key)
    && forall j :: 0 <= j < i ==> !IsNullish(files[j]) && Lookup(files[j], "key") != Str(key)
  }

  /** No entry carries the key, and every entry is readable. */
  predicate NoFileWithKey(files: seq<Value>, key: string) {
    forall j :: 0 <= j < |files| ==> !IsNullish(files[j]) && Lookup(files[j], "key") != Str(key)
  }

  /** `file.options && file.options.resource && file.options.resource.name`, as a value. */
  function ResourceName(file: Value): Value {
    var options := Lookup(file, "options");
    if !Truthy(options) then options
    else
      var resource := Lookup(options, "resource");
      if !Truthy(resource) then resource else Lookup(resource, "name")
  }

  /** The name a found file is shown under: a truthy resource name, else a truthy
      `name`, else the `key`. */
  function DisplayName(file: Value): Value {
    if Truthy(ResourceName(file)) then ResourceName(file)
    else if Truthy(Lookup(file, "name")) then Lookup(file, "name")
    else Lookup(file, "key")
  }

  /** `getFileName(key)` on the provider's `files`: a `TypeError` when `files` has no
      `find` or the search reaches a `null`/`undefined` entry, `FileNotFound` when no
      entry carries the key, otherwise the display name of the first entry with it,
      which is truthy or is the key itself. */
  function FileName(files: Value, key: string): (r: Result<Value>)
    ensures !files.Arr? ==> r == Throw(TypeError)
    ensures files.Arr? && NoFileWithKey(files.items, key) ==> r == Throw(FileNotFound(key))
    ensures r.Ok? ==> files.Arr? && exists i :: FirstFileWithKey(files.items, key, i) && r.value == DisplayName(files.items[i])
    ensures r.Ok? ==> Truthy(r.value) || r.value == Str(key)
    ensures r.Throw? ==> r.error == TypeError || r.error == FileNotFound(key)
  {
    if !files.Arr? then Throw(TypeError)
    else
      var found := FindBy(files.items, "key", key);
      if found.Throw? then Throw(found.error)
      else if found.value.None? then Throw(FileNotFound(key))
      else
        var i := found.value.value;
        assert FirstFileWithKey(files.items, key, i);
        Ok(DisplayName(files.items[i]))
  }

  /** The name precedence for the file the key finds: a truthy `options.resource.name`
      wins, then a truthy `name`, then the key. */
  lemma FileNamePrecedence(files: seq<Value>, key: string, i: int)
    requires FirstFileWithKey(files, key, i)
    ensures var file := files[i];
      var options := Lookup(file, "options");
      var resource := Lookup(options, "resource");
      && (Truthy(options) && Truthy(resource) && Truthy(Lookup(resource, "name")) ==>
            FileName(Arr(files), key) == Ok(Lookup(resource, "name")))
      && (!Truthy(ResourceName(file)) && Truthy(Lookup(file, "name")) ==>
            FileName(Arr(files), key) == Ok(Lookup(file, "name")))
      && (!Truthy(ResourceName(file)) && !Truthy(Lookup(file, "name")) ==>
            FileName(Arr(files), key) == Ok(Str(key)))
  {
    FindByFirstMatch(files, "key", key, i);
  }

  /** With several entries under one key, the first one names the file; entries
      after it are never examined. */
  lemma FirstFileWins(before: seq<Value>, file: Value, after: seq<Value>, key: string)
    requires NoFileWithKey(before, key)
    requires Lookup(file, "key") == Str(key)
    ensures FileName(Arr(before + [file] + after), key) == Ok(DisplayName(file))
  {
    var files := before + [file] + after;
    assert files[|before|] == file;
    assert FirstFileWithKey(files, key, |before|);
    FileNamePrecedence(files, key, |before|);
  }

  /** `{ id, forceCloud = false, files }` destructured: the default applies only to
      an `undefined` option. */
  function ForceCloudOption(source: Value): Value {
    if Lookup(source, "forceCloud").Undef? then Bool(false) else Lookup(source, "forceCloud")
  }

  class KeyValueStoreFilesProvider {
    const id: Value
    const forceCloud: Value
    const files: Value
    var kvStore: KeyValueStore?

    /** The field assignments of the constructor. */
    constructor Copy(id: Value, forceCloud: Value, files: Value)
      ensures this.id == id && this.forceCloud == forceCloud && this.files == files
      ensures kvStore == null
    {
      this.id := id;
      this.forceCloud := forceCloud;
      this.files := files;
      kvStore := null;
    }

    /** `init()`: opens the store only when none is held; once one is held, calling
        again changes nothing. */
    method Init(sdk: ApifySdk)
      modifies this`kvStore, sdk
      ensures kvStore != null
      ensures old(kvStore) != null ==> kvStore == old(kvStore) && unchanged(sdk)
      ensures old(kvStore) == null ==>
        && fresh(kvStore) && kvStore.id == id
        && sdk.storesOpened == old(sdk.storesOpened) + [(id, forceCloud)]
        && sdk.saved == old(sdk.saved)
    {
      if kvStore != null {
        return;
      }
      kvStore := sdk.OpenKeyValueStore(id, forceCloud);
    }

    /** `new KeyValueStoreFilesProvider(source)`: destructuring a `null`/`undefined`
        source throws; otherwise the fields are copied and `init` opens the store. */
    static method Create(source: Value, sdk: ApifySdk) returns (r: Result<KeyValueStoreFilesProvider>)
      modifies sdk
      ensures r.Throw? <==> IsNullish(source)
      ensures r.Throw? ==> r.error == TypeError && unchanged(sdk)
      ensures r.Ok? ==>
        && fresh(r.value) && fresh(r.value.kvStore)
        && r.value.id == Lookup(source, "id")
        && r.value.forceCloud == ForceCloudOption(source)
        && r.value.files == Lookup(source, "files")
        && sdk.storesOpened == old(sdk.storesOpened) + [(Lookup(source, "id"), ForceCloudOption(source))]
        && sdk.saved == old(sdk.saved)
    {
      if IsNullish(source) {
        return Throw(TypeError);
      }
      var provider := new KeyValueStoreFilesProvider.Copy(Lookup(source, "id"), ForceCloudOption(source), Lookup(source, "files"));
      provider.Init(sdk);
      return Ok(provider);
    }
  }

  /** The parser checks `source.idOrName`, while the provider reads `source.id`
      from the same object (assuming the plan entry's source reaches `new
      UploadOperation` unchanged, which the code between them does not show): a
      source that passes with `idOrName` and no `id` gets a provider whose id is
      `undefined`, and the store is opened under `undefined`. */
  method ProviderForIdOrNameSource(op: Value, types: Config.OperationTypes, constants: seq<Value>, sdk: ApifySdk)
      returns (planned: Config.PlannedOperation, provider: KeyValueStoreFilesProvider)
    requires types.WellFormed()
    requires Lookup(op, "type") == Str(types.upload)
    requires Config.ParseOperation(op, types, constants).Ok?
    requires Lookup(Lookup(op, "source"), "id") == Undef
    modifies sdk
    ensures Config.ParseOperation(op, types, constants).value == [planned]
    ensures planned.PlannedUpload? && NonEmptyString(Lookup(planned.source, "idOrName"))
    ensures provider.id == Undef && provider.files == Lookup(planned.source, "files")
    ensures sdk.storesOpened == old(sdk.storesOpened) + [(Undef, ForceCloudOption(planned.source))]
  {
    Config.UploadEntryRequirements(op, types, constants);
    planned := Config.ParseOperation(op, types, constants).value[0];
    var created := KeyValueStoreFilesProvider.Create(planned.source, sdk);
    provider := created.value;
  }

  /** The entry `uploadedFiles` gets for a file whose upload returned `response`. */
  function UploadRecord(file: Value, response: Value): Value {
    Obj(map["file" := file,
            "status" := Lookup(response, "status"),
            "statusText" := Lookup(response, "statusText"),
            "data" := Lookup(response, "data")])
  }

  /** The records the upload handler pushes for a log of calls, in order: one per
      upload whose response could be destructured. */
  function Recorded(calls: seq<DriveCall>): seq<Value>
    decreases |calls|
  {
    if calls == [] then []
    else
      var last := calls[|calls| - 1];
      Recorded(calls[..|calls| - 1])
        + if last.UploadFileCall? && !IsNullish(last.response) then [UploadRecord(last.file, last.response)] else []
  }

  /** Every record pairs a file with the response of an upload of that file, and
      records follow the order of the uploads. */
  lemma {:induction false} RecordedPairsFilesWithResponses(calls: seq<DriveCall>)
    ensures |Recorded(calls)| <= |calls|
    ensures forall k :: 0 <= k < |Recorded(calls)| ==>
      exists i :: 0 <= i < |calls| && calls[i].UploadFileCall? && !IsNullish(calls[i].response)
                  && Recorded(calls)[k] == UploadRecord(calls[i].file, calls[i].response)
    decreases |calls|
  {
    if calls != [] {
      var prefix := calls[..|calls| - 1];
      RecordedPairsFilesWithResponses(prefix);
      var r := Recorded(calls);
      forall k | 0 <= k < |r|
        ensures exists i :: 0 <= i < |calls| && calls[i].UploadFileCall? && !IsNullish(calls[i].response)
                            && r[k] == UploadRecord(calls[i].file, calls[i].response)
      {
        if k < |Recorded(prefix)| {
          var i :| 0 <= i < |prefix| && prefix[i].UploadFileCall? && !IsNullish(prefix[i].response)
                   && Recorded(prefix)[k] == UploadRecord(prefix[i].file, prefix[i].response);
          assert calls[i] == prefix[i];
        } else {
          assert calls[|calls| - 1].UploadFileCall?;
        }
      }
    }
  }

  /** When every upload returns a response, there is exactly one record per upload,
      in upload order. */
  lemma {:induction false} RecordedWhenAllRespond(calls: seq<DriveCall>)
    requires forall i :: 0 <= i < |calls| ==> calls[i].UploadFileCall? && !IsNullish(calls[i].response)
    ensures |Recorded(calls)| == |calls|
    ensures forall i :: 0 <= i < |calls| ==> Recorded(calls)[i] == UploadRecord(calls[i].file, calls[i].response)
    decreases |calls|
  {
    if calls != [] {
      var prefix := calls[..|calls| - 1];
      assert forall i :: 0 <= i < |prefix| ==> prefix[i] == calls[i];
      RecordedWhenAllRespond(prefix);
    }
  }

  /** `calls` are one `uploadFile` per entry of `files`, in order, all into `folderId`. */
  ghost predicate UploadedEach(calls: seq<DriveCall>, files: seq<Value>, folderId: Value) {
    && |calls| == |files|
    && forall i :: 0 <= i < |calls| ==> calls[i] == UploadFileCall(files[i], folderId, calls[i].response)
  }

  /** The request list is built by reading `file.key` of every entry. */
  predicate KeysReadable(files: Value) {
    files.Arr? && forall i :: 0 <= i < |files.items| ==> !IsNullish(files.items[i])
  }

  /** The crawler's handler run for each file in list order: upload into `folderId`,
      then push a record when the response can be destructured. */
  method UploadEach(drive: DriveService, files: seq<Value>, folderId: Value) returns (records: seq<Value>)
    modifies drive
    ensures |drive.calls| == |old(drive.calls)| + |files|
    ensures drive.calls[..|old(drive.calls)|] == old(drive.calls)
    ensures UploadedEach(drive.calls[|old(drive.calls)|..], files, folderId)
    ensures records == Recorded(drive.calls[|old(drive.calls)|..])
  {
    records := [];
    ghost var start := |drive.calls|;
    for i := 0 to |files|
      invariant |drive.calls| == start + i
      invariant drive.calls[..start] == old(drive.calls)
      invariant UploadedEach(drive.calls[start..], files[..i], folderId)
      invariant records == Recorded(drive.calls[start..])
    {
      ghost var before := drive.calls[start..];
      var response := drive.UploadFile(files[i], folderId);
      assert drive.calls[start..] == before + [UploadFileCall(files[i], folderId, response)];
      UploadedOneMore(before, files, i, folderId, response);
      if !IsNullish(response) {
        records := records + [UploadRecord(files[i], response)];
      }
    }
    assert files[..|files|] == files;
  }

  /** One more upload, of the next file, extends the uploads of a prefix of `files`. */
  lemma UploadedOneMore(calls: seq<DriveCall>, files: seq<Value>, i: int, folderId: Value, response: Value)
    requires 0 <= i < |files| && UploadedEach(calls, files[..i], folderId)
    ensures UploadedEach(calls + [UploadFileCall(files[i], folderId, response)], files[..i + 1], folderId)
  {
  }

  /** The request list, the crawler run and the saved records of `execute`: reading
      the key of a `null`/`undefined` entry, or mapping a non-array, throws before
      any upload; otherwise one upload per file, in list order, then the records
      saved under `UPLOAD`. */
  method RunUploads(drive: DriveService, sdk: ApifySdk, files: Value, folderId: Value) returns (r: Result<()>)
    modifies drive, sdk
    ensures sdk.storesOpened == old(sdk.storesOpened)
    ensures r.Throw? <==> !KeysReadable(files)
    ensures r.Throw? ==> r.error == TypeError && drive.calls == old(drive.calls) && sdk.saved == old(sdk.saved)
    ensures r.Ok? ==>
      && |drive.calls| >= |old(drive.calls)|
      && drive.calls[..|old(drive.calls)|] == old(drive.calls)
      && UploadedEach(drive.calls[|old(drive.calls)|..], files.items, folderId)
      && sdk.saved == old(sdk.saved) + [("UPLOAD", Arr(Recorded(drive.calls[|old(drive.calls)|..])))]
  {
    if !KeysReadable(files) {
      return Throw(TypeError);
    }
    var records := UploadEach(drive, files.items, folderId);
    sdk.SetValue("UPLOAD", Arr(records));
    return Ok(());
  }

  class UploadOperation {
    const source: Value
    const destination: Folder
    /** `this._filesProvider`. */
    var filesProviderCache: KeyValueStoreFilesProvider?

    /** A cached provider was built from this operation's source. */
    ghost predicate Valid()
      reads this
    {
      filesProviderCache != null ==>
        && filesProviderCache.id == Lookup(source, "id")
        && filesProviderCache.forceCloud == ForceCloudOption(source)
        && filesProviderCache.files == Lookup(source, "files")
    }

    /** What `filesProvider()` leaves, from a cache `cache0` and the stores `stores0`
        opened before it: a cached provider stays and nothing is opened; without one,
        a `null`/`undefined` source leaves the cache empty and opens nothing, and any
        other source is cached after opening its store once. */
    ghost predicate ProviderStep(cache0: KeyValueStoreFilesProvider?, stores0: seq<(Value, Value)>, sdk: ApifySdk)
      reads this, sdk
    {
      && (cache0 != null ==> filesProviderCache == cache0 && sdk.storesOpened == stores0)
      && (cache0 == null && IsNullish(source) ==> filesProviderCache == null && sdk.storesOpened == stores0)
      && (cache0 == null && !IsNullish(source) ==>
            filesProviderCache != null && sdk.storesOpened == stores0 + [(Lookup(source, "id"), ForceCloudOption(source))])
    }

    constructor Copy(source: Value, destination: Folder)
      ensures this.source == source && this.destination == destination
      ensures filesProviderCache == null
    {
      this.source := source;
      this.destination := destination;
      filesProviderCache := null;
    }

    /** `new UploadOperation({ source, destination })`: a destination that is not a
        `Folder` is rejected; otherwise both are stored unchanged. */
    static method Create(source: Value, destination: FolderArg) returns (r: Result<UploadOperation>)
      ensures r.Throw? <==> destination.OtherValue?
      ensures r.Throw? ==> r.error == NotAFolder
      ensures r.Ok? ==>
        && fresh(r.value) && r.value.Valid()
        && r.value.source == source && r.value.destination == destination.folder
        && r.value.filesProviderCache == null
    {
      if destination.OtherValue? {
        return Throw(NotAFolder);
      }
      var op := new UploadOperation.Copy(source, destination.folder);
      return Ok(op);
    }

    /** `filesProvider()`: the first successful call builds the provider from the
        source and caches it; every later call returns that same object and opens
        nothing. */
    method FilesProvider(sdk: ApifySdk) returns (r: Result<KeyValueStoreFilesProvider>)
      requires Valid()
      modifies this`filesProviderCache, sdk
      ensures Valid()
      ensures ProviderStep(old(filesProviderCache), old(sdk.storesOpened), sdk)
      ensures old(filesProviderCache) != null ==>
        r == Ok(old(filesProviderCache)) && filesProviderCache == old(filesProviderCache) && unchanged(sdk)
      ensures old(filesProviderCache) == null ==>
        && (r.Throw? <==> IsNullish(source))
        && (r.Throw? ==> r.error == TypeError && filesProviderCache == null && unchanged(sdk))
        && (r.Ok? ==>
              && fresh(r.value) && filesProviderCache == r.value
              && sdk.storesOpened == old(sdk.storesOpened) + [(Lookup(source, "id"), ForceCloudOption(source))]
              && sdk.saved == old(sdk.saved))
      ensures r.Ok? ==> r.value.files == Lookup(source, "files")
    {
      if filesProviderCache != null {
        return Ok(filesProviderCache);
      }
      var created :- KeyValueStoreFilesProvider.Create(source, sdk);
      filesProviderCache := created;
      return Ok(created);
    }

    /** What `execute` leaves after its log line, from the call log `calls0`, the
        cached provider `cache0`, the opened stores `stores0` and the saved records
        `saved0` before it: `createFolder` on the destination, then either a
        `TypeError` with no further call and nothing saved, or one upload per file
        into the new folder id and the records saved under `UPLOAD`; a provider is
        built, and its store opened, only when none was cached and the
        `createFolder` response was readable. */
    ghost predicate Executed(calls0: seq<DriveCall>, cache0: KeyValueStoreFilesProvider?,
                             stores0: seq<(Value, Value)>, saved0: seq<(string, Value)>,
                             drive: DriveService, sdk: ApifySdk, r: Result<()>)
      reads this, drive, sdk
    {
      && |drive.calls| > |calls0|
      && drive.calls[..|calls0|] == calls0
      && (cache0 != null ==> filesProviderCache == cache0 && sdk.storesOpened == stores0)
      && (r.Ok? ==> filesProviderCache != null)
      && var created := drive.calls[|calls0|];
         && created == CreateFolderCall(FolderObject(destination), created.response)
         && (r.Throw? <==>
               || IsNullish(created.response)
               || (cache0 == null && IsNullish(source))
               || !KeysReadable(Lookup(source, "files")))
         && (r.Throw? ==> r.error == TypeError && sdk.saved == saved0 && |drive.calls| == |calls0| + 1)
         && (IsNullish(created.response) ==> filesProviderCache == cache0 && sdk.storesOpened == stores0)
         && (!IsNullish(created.response) ==> ProviderStep(cache0, stores0, sdk))
         && (r.Ok? ==>
               && UploadedEach(drive.calls[|calls0| + 1..], Lookup(source, "files").items,
                               Lookup(created.response, "folderId"))
               && sdk.saved == saved0 + [("UPLOAD", Arr(Recorded(drive.calls[|calls0| + 1..])))])
    }

    /** `execute(driveService)` after its log line: `createFolder` on the
        destination, its `folderId`, the provider, then the uploads and the saved
        records. */
    method CreateFolderAndUpload(drive: DriveService, sdk: ApifySdk) returns (r: Result<()>)
      requires Valid()
      modifies this`filesProviderCache, drive, sdk
      ensures Valid()
      ensures Executed(old(drive.calls), old(filesProviderCache), old(sdk.storesOpened), old(sdk.saved), drive, sdk, r)
    {
      var created := drive.CreateFolder(FolderObject(destination));
      ghost var afterCreate := drive.calls;
      var folderId :- Get(created, "folderId");
      ghost var cache0, stores0 := filesProviderCache, sdk.storesOpened;
      var provider :- FilesProvider(sdk);
      assert ProviderStep(cache0, stores0, sdk);
      r := RunUploads(drive, sdk, provider.files, folderId);
      assert drive.calls[..|afterCreate|] == afterCreate;
      assert drive.calls[|old(drive.calls)| + 1..] == drive.calls[|afterCreate|..];
    }

    /** `execute(driveService)`: the log line converts the destination to a string,
        filling its cache; the rest is as `Executed` states. It throws a `TypeError`
        exactly when the `createFolder` response, the source (when no provider is
        cached yet) or a file entry is `null`/`undefined`, or the files are not an
        array. */
    method Execute(drive: DriveService, sdk: ApifySdk) returns (r: Result<()>)
      requires Valid()
      modifies this`filesProviderCache, destination`folderAsString, drive, sdk
      ensures Valid()
      ensures Truthy(old(destination.folderAsString)) ==> destination.folderAsString == old(destination.folderAsString)
      ensures !Truthy(old(destination.folderAsString)) ==> destination.folderAsString == Str(destination.Display())
      ensures Executed(old(drive.calls), old(filesProviderCache), old(sdk.storesOpened), old(sdk.saved), drive, sdk, r)
    {
      var logged := destination.ToString();
      r := CreateFolderAndUpload(drive, sdk);
    }
  }

  /** The folder id `execute` deletes, read from the `getFolderInfo` response:
      destructuring `null`/`undefined` throws, and a falsy id means the folder does
      not exist and nothing is deleted. */
  function FolderToDelete(info: Value): (r: Result<Option<Value>>)
    ensures r.Throw? <==> IsNullish(info)
    ensures r.Throw? ==> r.error == TypeError
    ensures r.Ok? ==> (r.value.Some? <==> Truthy(Lookup(info, "folderId")))
    ensures r.Ok? && r.value.Some? ==> r.value.value == Lookup(info, "folderId")
  {
    var folderId :- Get(info, "folderId");
    if Truthy(folderId) then Ok(Some(folderId)) else Ok(None)
  }

  class DeleteFolderOperation {
    const folder: Folder

    constructor Copy(folder: Folder)
      ensures this.folder == folder
    {
      this.folder := folder;
    }

    /** `new DeleteFolderOperation({ folder })`: a value that is not a `Folder` is rejected. */
    static method Create(folder: FolderArg) returns (r: Result<DeleteFolderOperation>)
      ensures r.Throw? <==> folder.OtherValue?
      ensures r.Throw? ==> r.error == NotAFolder
      ensures r.Ok? ==> fresh(r.value) && r.value.folder == folder.folder
    {
      if folder.OtherValue? {
        return Throw(NotAFolder);
      }
      var op := new DeleteFolderOperation.Copy(folder.folder);
      return Ok(op);
    }

    /** `execute(driveService)`: `getFolderInfo` on the folder, then `deleteFolder`
        exactly once with the id found when it is truthy, and no other call. */
    method Execute(drive: DriveService) returns (r: Result<()>)
      modifies folder`folderAsString, drive
      ensures Truthy(old(folder.folderAsString)) ==> folder.folderAsString == old(folder.folderAsString)
      ensures !Truthy(old(folder.folderAsString)) ==> folder.folderAsString == Str(folder.Display())
      ensures |drive.calls| > |old(drive.calls)|
      ensures drive.calls[..|old(drive.calls)|] == old(drive.calls)
      ensures var info := drive.calls[|old(drive.calls)|];
        && info == GetFolderInfoCall(FolderObject(folder), info.response)
        && (r.Throw? <==> FolderToDelete(info.response).Throw?)
        && (r.Throw? ==> r.error == TypeError && |drive.calls| == |old(drive.calls)| + 1)
        && (FolderToDelete(info.response) == Ok(None) ==> |drive.calls| == |old(drive.calls)| + 1)
        && (forall id :: FolderToDelete(info.response) == Ok(Some(id)) ==>
              && |drive.calls| == |old(drive.calls)| + 2
              && drive.calls[|old(drive.calls)| + 1] == DeleteFolderCall(id, drive.calls[|old(drive.calls)| + 1].response))
    {
      var logged := folder.ToString();
      var info := drive.GetFolderInfo(FolderObject(folder));
      var toDelete :- FolderToDelete(info);
      if toDelete.Some? {
        var response := drive.DeleteFolder(toDelete.value);
      }
      return Ok(());
    }
  }
}
