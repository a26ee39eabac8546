# actor-google-drive core, in Dafny

This project models the logic of the Google Drive actor. The actor reads a JSON input and turns it into an ordered plan of Drive operations:

- uploads of files held in a key-value store into a Drive folder;
- deletions of Drive folders.

Each operation's folder reference is resolved into folder parameters. The operations then run against the Drive service.

The model is laid out in one module per source file, plus the runtime and the collaborators it relies on:

| Dafny file | module | source |
|---|---|---|
| `strings.dfy` | `Strings` | the runtime's `split`, `join`, `includes` and decimal conversions the core relies on |
| `js.dfy` | `Js` | JSON values plus `undefined`, `typeof`, truthiness, property reads that throw on `null`/`undefined`, `Number(...)`, string conversion, `find` on a property, and one exception constructor per `throw` site |
| `folder_helper.dfy` | `FolderHelper` | `src/operations/helper.js` |
| `config.dfy` | `Config` | `src/Config.js` |
| `services.dfy` | `Services` | the Drive service and the platform's key-value store, as collaborators with ghost call logs |
| `operations.dfy` | `Operations` | `src/operations/index.js` |
| `legacy_operations.dfy` | `LegacyOperations` | `src/operations.js` |

Each file of the source keeps its own form:

- **Folder reference resolution** (`Folder.validateAndParse`) is a pure function. It returns `Result`, which is either `Ok` or `Throw` of the exception the source throws.
- **`Folder`** is a class. Its copied properties are constant; `folderAsString` is the field that `toString` memoises into. `getFolders` is a loop that pushes one entry per path segment.
- **`validateAndParseInput`** is an imperative method: the settings field by field, an `every` loop over the constants, a copy loop, and the operations loop with its early throws. It is proved equal to the specification function `Config.ParseInput`, and the properties of the parser are lemmas about that function.
- **The operation objects** are classes. Their constructors are modelled as `Create` factories returning `Result`, because a JavaScript constructor can throw. The memoised `_filesProvider` is a nullable field. The `execute` methods are call sequences against a `DriveService` whose ghost `calls` log records every call and the response it gave. A response can be any value, so every contract holds whatever the service answers; no call fails (see "## Left out").

Two places where the source does something other than its evident intent are modelled as written:

- `src/operations/helper.js:77` tests `finalFolder.path` a second time instead of `parentFolderId`. That guard never fires, so a truthy non-string `parentFolderId` passes resolution. `FolderHelper.NumericParentIdPassesResolutionOnly` shows such a result being refused later by `validate`.
- `src/Config.js` requires `source.idOrName`. The provider in `src/operations/index.js` instead destructures `id` from its source. Whether that source is the parsed entry's object depends on the code that builds the operations, which is not part of this model; assuming it is, `Operations.ProviderForIdOrNameSource` shows that a source with `idOrName` and no `id` gets a provider whose id is `undefined`, and the store is opened under `undefined`.

`OPERATIONS_TYPES` comes from a file that is not part of this model. It is a parameter, `Config.OperationTypes`: the upload type, the folder-deletion type and the set of all type strings. `WellFormed()` asks that the two types are distinct, non-empty members of that set.

## Model

| member | source | states |
|---|---|---|
| Js.FindBy | src/operations/helper.js:60 | `find` on a property: the index found is the first element whose property is the string, all earlier elements being readable and different; `None` means no element has it; a `TypeError` means a `null`/`undefined` element came before any match |
| Js.FindByFirstMatch | src/operations/index.js:30 | when an element carries the property value and every earlier one is readable and different, `find` returns exactly that element |
| Js.ToNumber | src/Config.js:49-55 | `Number(n)` of a number is `n`; a string converts to an integer exactly when it is a run of decimal digits with an optional leading `-` |
| FolderHelper.ValidateAndParse | src/operations/helper.js:53-97 | `Folder.validateAndParse` as a function: the up-front type check, constant substitution, the object branch and the anchor split; its properties are stated by `RejectsNonObjectNonString`, `ConstantSubstitutedOnce`, `PlainStringIsPath`, `ObjectFolderParsed`, `NameAnchorSplitsAtFirstSlash` and `ResolvedParamsValidateIff` |
| FolderHelper.RejectsNonObjectNonString | src/operations/helper.js:54-56 | resolution fails with the up-front error exactly when the folder is neither a plain object nor a string |
| FolderHelper.ConstantNameIsSecondSegment | src/operations/helper.js:59 | the constant name contains no `.`, follows the first `.`, and is followed in the string by a `.` or the end |
| FolderHelper.ConstantSubstitutedOnce | src/operations/helper.js:58-92 | an unknown constant name is an error naming it; a found constant's string value is split as a path and never scanned again for the token; an object value is parsed as an object; any other value (`null`, an array) throws a `TypeError` when split |
| FolderHelper.PlainStringIsPath | src/operations/helper.js:84-93 | a string without the token is itself the path, anchored by its first segment |
| FolderHelper.ObjectFolderParsed | src/operations/helper.js:73-85 | an object folder without a string `path` is an error; otherwise its `parentFolderId` is copied through unchanged, and a truthy one keeps the path verbatim with no parent name |
| FolderHelper.NameAnchorSplitsAtFirstSlash | src/operations/helper.js:86-93 | without a truthy parent id: the parent name has no `/`, the relative path is absent exactly when the path has no `/`, and name + `/` + relative path == path |
| FolderHelper.Validate | src/operations/helper.js:12-24 | `Folder.validate` as a function returning the exception it throws; its properties are stated by `ValidateRejections`, `ValidateAcceptsBothAnchors` and `ResolvedParamsValidateIff` |
| FolderHelper.ValidateAcceptsBothAnchors | src/operations/helper.js:16-18 | `validate` accepts parameters that carry both a parent id and a parent name |
| FolderHelper.ValidateRejections | src/operations/helper.js:12-21 | `validate` rejects non-plain-objects and parameters with no string anchor, and passes only a relative path that is falsy or a string |
| FolderHelper.ResolvedParamsValidateIff | src/operations/helper.js:77-81 | a resolved folder passes `validate` exactly when its parent id is falsy or a string |
| FolderHelper.NumericParentIdPassesResolutionOnly | src/operations/helper.js:77-79 | `{path: "a", parentFolderId: 5}` resolves, and the result fails `validate` |
| FolderHelper.DisplayStringIsTruthy | src/operations/helper.js:46-49 | the display string is never empty, so once stored it is truthy |
| FolderHelper.DisplayOfNameAnchoredPath | src/operations/helper.js:44-51 | a path anchored by name displays as `{name}/rest`, and name + `/` + rest is the path |
| FolderHelper.Folder.Copy | src/operations/helper.js:6-9 | the new folder's properties are the parameters' keys, `params` is the argument unless a `params` key overwrites it, and `folderAsString` is the argument's key of that name |
| FolderHelper.Folder.Create | src/operations/helper.js:4-10 | `new Folder(params)` throws what `validate` throws; otherwise it is a fresh valid folder holding the parameters' properties |
| FolderHelper.Folder.GetFolders | src/operations/helper.js:26-42 | one root entry with the parent id and name, then one non-root entry per `/`-segment of a truthy relative path, in order (length 1 + segment count); the segment names joined with `/` give the relative path back |
| FolderHelper.Folder.ToString | src/operations/helper.js:44-51 | a truthy cached string is returned unchanged; otherwise the display string is computed, stored and returned, and the cache is truthy afterwards, so every later call returns the same stored value |
| Config.ParseInput | src/Config.js:28-148 | `validateAndParseInput` as a function, which `ValidateAndParseInput` is proved to equal; its properties are stated by `InputMustBeObject`, `SetupModeYieldsEmptyPlan`, `DefaultsWhenFalsy`, `NumericSettingFromText`, `CredentialsChecked`, `OperationsRequired`, `ConstantsCarriedInOrder` and `InputPlanFollowsOperations` |
| Config.ParseOperation | src/Config.js:99-140 | one iteration of the operations loop as a function; its properties are stated by `OperationTypeChecked`, `UploadEntryRequirements`, `OtherTypesSkipped` and, over the whole loop, `ParseOperationsOkIff` and `PlanFollowsInputOrder` |
| Config.EveryConstantValid | src/Config.js:78-82 | the `every` loop returns exactly the specification's verdict, stopping at the first rejected constant or exception |
| Config.CollectConstants | src/Config.js:74-89 | the constants branch: `ConstantsNotArray` or `InvalidConstants` as specified, otherwise the input's constants pushed in order |
| Config.CollectOperations | src/Config.js:98-141 | the operations loop, with its type check and `switch` inline, yields the specified plan, or the first exception |
| Config.ValidateAndParseInput | src/Config.js:28-148 | the imperative parser returns exactly `ParseInput(input)` |
| Config.InputMustBeObject | src/Config.js:44-47 | an input that is not an object by `typeof` is `InputNotObject`; `null` passes that test and throws a `TypeError` on reading `isSetupMode` |
| Config.CheckConstantIff | src/Config.js:78-82 | the callback accepts exactly a plain object with a string `name` and a string, `null`, array or object `value`, and throws exactly on `null` |
| Config.CheckConstantsTrueIff | src/Config.js:78-85 | constants are accepted all-or-nothing: `every` holds exactly when every constant is valid |
| Config.CheckConstantsThrowIff | src/Config.js:78-82 | `every` throws exactly when a `null` constant comes before any invalid one |
| Config.ConstantsCarriedInOrder | src/Config.js:74-89 | outside setup mode the parsed constants are the input array, unchanged and in order, every entry valid; an absent field gives none |
| Config.SetupModeYieldsEmptyPlan | src/Config.js:71-145 | with a truthy `isSetupMode`, an object input parses exactly when its credentials are acceptable, and the constants and operations are empty whatever the input holds |
| Config.DefaultsWhenFalsy | src/Config.js:31-57 | a falsy field gives its default (false, 120, 5, `google-oauth-tokens`); a truthy timeout or concurrency is `Number` of the field; a truthy `isSetupMode` or store is kept as given |
| Config.NumericSettingFromText | src/Config.js:49-51 | a timeout given as the decimal text of `n` is read as `n` |
| Config.CredentialsChecked | src/Config.js:60-69 | falsy credentials select the defaults; truthy ones are kept only with non-empty string `client_id`, `client_secret` and `redirect_uri`; for an object input, any credentials the check refuses (a non-object, or a missing or empty one of the three) give `InvalidCredentials` |
| Config.OperationsRequired | src/Config.js:91-96 | outside setup mode a falsy `operations` is `MissingOperations`; a truthy non-array or an empty array is `OperationsNotNonEmptyArray` |
| Config.OperationTypeChecked | src/Config.js:99-103 | an entry parses only with a type from `OPERATIONS_TYPES`; any other type is reported with its value; a `null`/`undefined` entry throws a `TypeError` |
| Config.UploadEntryRequirements | src/Config.js:106-126 | an upload entry parses exactly when its source is an object with a non-empty string `idOrName` and a non-empty `files` array, and its destination resolves |
| Config.OtherTypesSkipped | src/Config.js:104-140 | a valid type other than upload and deletion adds nothing to the plan |
| Config.ParseOperationsOkIff | src/Config.js:98-141 | the loop completes exactly when every entry parses; otherwise it throws what the first failing entry throws |
| Config.PlanFollowsInputOrder | src/Config.js:98-141 | with only upload and deletion entries: one plan entry per input entry, in order, each keeping its type, an upload's source unchanged, and its folder resolved against the constants |
| Config.ClosedTypesArePlanned | src/Config.js:98-141 | when the type set holds only the upload and deletion types, a list that parses has only those two, and the plan has one entry per operation, in order, each planning its entry |
| Config.InputPlanFollowsOperations | src/Config.js:71-145 | the same, from a whole parsed input, against the parsed constants |
| Config.Config.Copy | src/Config.js:21-25 | the object holds the input and every parsed field |
| Config.Config.Create | src/Config.js:20-26 | `new Config(input)` throws what the parser throws, otherwise holds the input and the parsed fields |
| Operations.DisplayName | src/operations/index.js:32-38 | the name a found file is shown under; its precedence is stated by `FileNamePrecedence` and `FileName` |
| Operations.FileName | src/operations/index.js:29-40 | `TypeError` when `files` is not an array or a `null` entry is reached; `FileNotFound(key)` when no entry has the key; otherwise the display name of the first entry with the key, which is truthy or the key itself |
| Operations.FileNamePrecedence | src/operations/index.js:32-39 | a truthy `options.resource.name` wins, then a truthy `name`, then the key |
| Operations.FirstFileWins | src/operations/index.js:30-31 | when several entries share a key, the first one names the file |
| Operations.KeyValueStoreFilesProvider.Copy | src/operations/index.js:11-14 | the fields are the arguments, and no store is held |
| Operations.KeyValueStoreFilesProvider.Init | src/operations/index.js:18-21 | the store is opened, with the provider's id and `forceCloud`, only when none is held; with one held, nothing changes |
| Operations.KeyValueStoreFilesProvider.Create | src/operations/index.js:10-16 | a `null`/`undefined` source throws; otherwise id, files and `forceCloud` (default false only when undefined) are copied and the store is opened once |
| Operations.ProviderForIdOrNameSource | src/operations/index.js:10-12 | an upload entry accepted for its `idOrName` with no `id` key gives a provider whose id is `undefined`, and the store is opened under `undefined` with the entry's `forceCloud` |
| Operations.RecordedPairsFilesWithResponses | src/operations/index.js:101-105 | every record pairs a file with the `status`, `statusText` and `data` of the upload response for that file; there are never more records than uploads |
| Operations.RecordedWhenAllRespond | src/operations/index.js:96-105 | when every upload returns a response, there is exactly one record per upload, in order |
| Operations.UploadEach | src/operations/index.js:97-110 | one `uploadFile` per file, in order, into the given folder id, and the records of those calls |
| Operations.UploadOperation.Copy | src/operations/index.js:70-71 | the source and destination are the arguments, and no provider is cached |
| Operations.UploadOperation.Create | src/operations/index.js:64-72 | a destination that is not a `Folder` is rejected; otherwise source and destination are stored unchanged |
| Operations.RunUploads | src/operations/index.js:92-112 | an entry whose key cannot be read throws before any upload, and nothing is saved; otherwise one `uploadFile` per file, in order, into the folder id, then the records of exactly those calls saved under `UPLOAD`; no store is opened |
| Operations.UploadOperation.FilesProvider | src/operations/index.js:74-78 | the first successful call builds and caches the provider from the source; later calls return the same object and open nothing |
| Operations.UploadOperation.CreateFolderAndUpload | src/operations/index.js:88-112 | everything after the log line: the call log, the saved records, the throw conditions and the provider and store effects, as the predicate `Executed` states |
| Operations.UploadOperation.Execute | src/operations/index.js:85-113 | the log line fills the destination's string cache; then, as the predicate `Executed` states: `createFolder` on the destination, then one upload per file into the folder id it returned, and the records saved under `UPLOAD`; it throws a `TypeError` exactly when the response, the source, the files array or a file entry cannot be read; a throw leaves only the `createFolder` call in the log and saves nothing; a cached provider is kept and opens nothing; otherwise a provider is built and its store opened once exactly when the response and the source are readable; after success a provider is cached |
| Operations.FolderToDelete | src/operations/index.js:127-132 | the id to delete is the response's `folderId` exactly when it is truthy; a `null`/`undefined` response throws |
| Operations.DeleteFolderOperation.Copy | src/operations/index.js:119 | the folder is the argument |
| Operations.DeleteFolderOperation.Create | src/operations/index.js:117-123 | a value that is not a `Folder` is rejected |
| Operations.DeleteFolderOperation.Execute | src/operations/index.js:125-133 | `getFolderInfo` on the folder, then exactly one `deleteFolder` with the found id when it is truthy, and no other call |
| LegacyOperations.FileName | src/operations.js:29-40 | as the current lookup, except that a found file whose `options` is `null`/`undefined` throws a `TypeError` |
| LegacyOperations.FileNameAgreesWithCurrent | src/operations.js:33-38 | both lookups agree when the found file has an `options` value; without one, only the older lookup throws |
| LegacyOperations.KeyValueStoreFilesProvider.constructor | src/operations.js:11-16 | the `forceCloud` argument is ignored: the field is always false |
| LegacyOperations.Iterate | src/operations.js:73 | `for ... of` visits an array's elements or a string's characters; other values are not iterable |
| LegacyOperations.CopyEach | src/operations.js:73-75 | one `copyFile` per file, sequentially, in list order, all into the same folder id |
| LegacyOperations.CopyFilesOperation.Copy | src/operations.js:48-49 | the source and destination are the arguments, and no provider is cached |
| LegacyOperations.CopyFilesOperation.Create | src/operations.js:44-51 | a destination that is not a non-empty string is rejected |
| LegacyOperations.CopyFilesOperation.FilesProvider | src/operations.js:53-66 | only source type `key-value-store` gives a provider, which is cached and returned on every later call; any other type is an error naming it |
| LegacyOperations.CopyFilesOperation.Execute | src/operations.js:68-76 | `createFolder` on the path, then one `copyFile` per file, in order, into its folder id; throws exactly when the response is `null`/`undefined`, the source type is not `key-value-store`, or the files are not iterable; a throw leaves only the `createFolder` call in the log; the provider cache is kept when set and set after success |
| LegacyOperations.IsFileNotFound | src/operations.js:93 | a non-404 code is not "already gone"; a 404 with a string message is "already gone" exactly when the message contains `File not found`; a `null`/`undefined` response throws |
| LegacyOperations.NotFoundAnswerRecognised | src/operations.js:93 | a 404 whose message contains `File not found` anywhere is recognised |
| LegacyOperations.OtherMessagesAreDeletions | src/operations.js:93 | a message lacking a character of `File not found` is never taken as "already gone" |
| LegacyOperations.Outcome | src/operations.js:91-94 | a deletion is "already gone" exactly when its response is a 404 `File not found` |
| LegacyOperations.DeleteFolderOperation.Copy | src/operations.js:83 | the folder path is the argument |
| LegacyOperations.DeleteFolderOperation.Create | src/operations.js:80-85 | a folder that is not a non-empty string is rejected |
| LegacyOperations.DeleteFolderOperation.Execute | src/operations.js:87-95 | `getFolderInfo` on the path; a falsy `folderId` ends with no further call; otherwise exactly one `deleteFolder` with that id, whose 404 `File not found` answer is an outcome, not an error |

## Left out

- Operations.UploadOperation.Execute: the crawler's concurrency, its per-request timeout and its retries are not modelled. Files are uploaded one at a time, once each, in list order, so records come in list order rather than completion order. A handler that cannot destructure the response records nothing. The request list's de-duplication of entries with the same key is not modelled either.
- Operations.FileName: the key is a string; the source compares with `===` against any value.
- Js.ToNumber: only integers are modelled. A string converts only when it is a run of decimal digits with an optional leading `-`; a leading `+`, whitespace, fractions, exponents and hexadecimal give NaN here. Arrays and objects give NaN.
- `getFileBuffer` and `getFileData` of `src/operations/index.js`, and `getFileStream` and `init` of `src/operations.js`: these read file contents and sniff their type through foreign libraries.
- The `await` of `init` in the provider constructor: the model opens the store when the constructor runs, so there is no window in which `kvStore` is still `null`.
- The Drive service (`createFolder`, `getFolderInfo`, `deleteFolder`, `uploadFile`, `copyFile`) and `OPERATIONS_TYPES` are defined in files that are not part of this model. The service is a class with a call log whose responses can be any value; the files provider passed to `uploadFile` and `copyFile` is not recorded.
- The default OAuth credentials read from constants and from the process environment: the model records only that the defaults were selected.
- Console output is not modelled, with two exceptions. The `toString` call that a log message makes on a `Folder` is kept, because it fills the folder's cache. `LegacyOperations.DeleteFolderOperation.Execute` returns a `DeleteOutcome` (`FolderMissing`, `Deleted`, `AlreadyGone`) that records which branch ran and so which `console.log` line of `src/operations.js:90` or `:93` would print. The source's `execute` returns `undefined` in every case.
- A `Folder` parameter key that shadows a method of the class (`validate`, `toString`, ...) would replace the method; the model keeps methods and properties apart.
- Operations.UploadOperation.Execute, Operations.DeleteFolderOperation.Execute, LegacyOperations.CopyFilesOperation.Execute, LegacyOperations.DeleteFolderOperation.Execute: no Drive service or SDK call fails here. In the source a rejected `createFolder`, `getFolderInfo`, `deleteFolder`, `copyFile` or `Apify.setValue` propagates out of `execute`, and in the older copy loop it also skips the remaining files. A rejected `uploadFile` does not: it runs inside the crawler's request handler (`src/operations/index.js:97-108`), which retries the request, leaves no record after the last retry, and lets the operation continue to `setValue`; the model's uploads always answer. Their "throws exactly when" clauses cover only the exceptions the core itself raises.
- Operations.UploadOperation.Create and Operations.DeleteFolderOperation.Create: the argument object is always present. `new UploadOperation()` or `new DeleteFolderOperation()` with a `null`/`undefined` argument throws a `TypeError` while destructuring it (`src/operations/index.js:64`, `:117`); the model takes the two destructured properties as separate arguments.
- `src/main.js` and `src/utils.js` are not part of this model: the first starts the process and the second wraps a buffer in a stream.
