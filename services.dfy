/** The collaborators the operations call: the Google Drive service (its
    defining file is not part of this model) and the platform SDK's key-value
    store functions. Each keeps a ghost log of the calls made on it, with the
    response it gave; a response can be any value. */
module Services {
  import opened Js
  import opened FolderHelper

  /** The folder argument of `createFolder`/`getFolderInfo`: a `Folder` object
      (src/operations/index.js) or a path string (src/operations.js). */
  datatype FolderRef = FolderObject(folder: Folder) | FolderPathString(path: string)

  /** One call on the Drive service, with the response it returned. The files
      provider passed to `uploadFile` and `copyFile` is not recorded. */
  datatype DriveCall =
    | CreateFolderCall(folder: FolderRef, response: Value)
    | GetFolderInfoCall(folder: FolderRef, response: Value)
    | DeleteFolderCall(folderId: Value, response: Value)
    | UploadFileCall(file: Value, folderId: Value, response: Value)
    | CopyFileCall(file: Value, folderId: Value, response: Value)

  class DriveService {
    ghost var calls: seq<DriveCall>

    constructor()
      ensures calls == []
    {
      calls := [];
    }

    method CreateFolder(folder: FolderRef) returns (response: Value)
      modifies this
      ensures calls == old(calls) + [CreateFolderCall(folder, response)]
    {
      response :| true;
      calls := calls + [CreateFolderCall(folder, response)];
    }

    method GetFolderInfo(folder: FolderRef) returns (response: Value)
      modifies this
      ensures calls == old(calls) + [GetFolderInfoCall(folder, response)]
    {
      response :| true;
      calls := calls + [GetFolderInfoCall(folder, response)];
    }

    method DeleteFolder(folderId: Value) returns (response: Value)
      modifies this
      ensures calls == old(calls) + [DeleteFolderCall(folderId, response)]
    {
      response :| true;
      calls := calls + [DeleteFolderCall(folderId, response)];
    }

    method UploadFile(file: Value, folderId: Value) returns (response: Value)
      modifies this
      ensures calls == old(calls) + [UploadFileCall(file, folderId, response)]
    {
      response :| true;
      calls := calls + [UploadFileCall(file, folderId, response)];
    }

    method CopyFile(file: Value, folderId: Value) returns (response: Value)
      modifies this
      ensures calls == old(calls) + [CopyFileCall(file, folderId, response)]
    {
      response :| true;
      calls := calls + [CopyFileCall(file, folderId, response)];
    }
  }

  /** An opened key-value store. */
  class KeyValueStore {
    const id: Value

    constructor(id: Value)
      ensures this.id == id
    {
      this.id := id;
    }
  }

  /** `Apify.openKeyValueStore` and `Apify.setValue`, with the stores opened (id and
      `forceCloud` option) and the records saved to the default store. */
  class ApifySdk {
    ghost var storesOpened: seq<(Value, Value)>
    ghost var saved: seq<(string, Value)>

    constructor()
      ensures storesOpened == [] && saved == []
    {
      storesOpened := [];
      saved := [];
    }

    method OpenKeyValueStore(id: Value, forceCloud: Value) returns (store: KeyValueStore)
      modifies this
      ensures fresh(store) && store.id == id
      ensures storesOpened == old(storesOpened) + [(id, forceCloud)] && saved == old(saved)
    {
      store := new KeyValueStore(id);
      storesOpened := storesOpened + [(id, forceCloud)];
    }

    method SetValue(key: string, value: Value)
      modifies this
      ensures saved == old(saved) + [(key, value)] && storesOpened == old(storesOpened)
    {
      saved := saved + [(key, value)];
    }
  }
}
