# Project CRUD layer of ProjectManager, in Dafny

This project models the data layer of an iOS task manager. A *Project* has an
id, a title, a description, a date and a status (todo, doing, done). The layer
has five parts:

- **`DefaultProjectRepository`**: the public facade. It owns the in-memory
  list of projects. Every create, update and delete goes to the local
  CoreData store and then changes the list, and each change of the list
  pushes the whole list to a replay-latest `BehaviorSubject`.
- **`DefaultProjectStorage`**: a near-duplicate of the repository whose
  initial list and subject are injected.
- **`DefaultCoreDataStorage`**: the local store adapter. It keeps managed
  `ProjectEntity` records written from an untyped field map with a partial
  merge. Its fetch is ordered by date, latest first, and `setup` decodes the
  records into projects, filling in defaults.
- **The Firestore decoder**: `Project.init?(data:)` validates a remote
  document, and the collection fetch drops the documents that fail it.
- **`DetailViewModel`**: the detail screen. It has three modes (add, read,
  edit), an editable flag, and a right button that submits the edited
  project.

Modules, one per source file or component:

| module | file | models |
|---|---|---|
| `Wrappers` | wrappers.dfy | `Optional` and the outcome of a `Single` |
| `Domain` | project.dfy | `Project`, `ProjectState`, lookup by id |
| `Broadcast` | broadcast.dfy | the `BehaviorSubject<[Project]>`: latest value plus a ghost log of `onNext` calls |
| `LocalStore` | core_data_storage.dfy | `DefaultCoreDataStorage` |
| `Repository` | project_repository.dfy | `DefaultProjectRepository` |
| `Storage` | project_storage.dfy | `DefaultProjectStorage` |
| `Remote` | firestore_storage.dfy | the decoding half of `DefaultFirestoreStorage` |
| `Detail` | detail_view_model.dfy | `DetailViewModel` |

Modelling choices and assumptions:

- A UUID is a `bv128`. A `Date` is an integer: an abstract, totally ordered
  instant.
- `UUID(uuidString:)` and `Timestamp.dateValue()` are passed in as function
  parameters. So are the wall-clock read `Date()` in `setup` (the `now`
  parameter), whether a CoreData fetch request fails (the `fetchFailed`
  parameter), and the answer of the detail screen's use case (the `reply`
  of `Receive`).
- `Project`'s `==` is not shown in the source. It is taken to compare ids,
  because that is the only reading under which `firstIndex(where: { $0 == item })`
  can find the element an update replaces. `Domain.FirstIndexOf` models both
  this lookup and `first(where: { $0.id == id })`.
- `ProjectState`'s raw values are taken to be 0, 1 and 2 in declaration order.
- A managed object carries its object identity (`objectId`). This lets a
  delete remove that one object even when two records hold the same values.
  A newly inserted object starts with nil title, body and date and status 0.
  Its id comes from the map, which `insert` requires.
- The fetch orders records by date, latest first, with nil dates last (the
  store orders NULL below every value). Among equal dates the model keeps the
  stored order. The store itself promises no order there.
- The loop over `entity.attributesByName.keys` visits the attribute names in
  the fixed order id, title, body, date, status. The names are distinct, so
  the order does not change the result.
- The initialiser of `DefaultProjectRepository` ignores its `storage`
  parameter and uses `DefaultCoreDataStorage.shared`. The model has one
  local store and passes it in. The initialiser calls `setup()` twice: once
  for the list and once for the subject's first value, and the two agree
  only when both calls see the same clock and fetch outcome. The model
  keeps both loads.
- `DefaultProjectStorage` uses `CoreDataStorage.shared`. That class is not
  part of this model; it is taken to be the same local store.
- A failed store load or commit terminates the process (`fatalError`); no
  operation returns a persistence error. The model leaves those paths out
  and treats a commit as a step that cannot fail.

## Model

| member | source | states |
|---|---|---|
| `Domain.RawValue` | ProjectManager/ProjectManager/Sources/Data/Repositories/DefaultProjectRepository.swift:27 | `status.rawValue`: an ordinal from 0 to 2, with todo at 0 and done at 2 and no two states sharing one |
| `Domain.StateFromRawValue` | ProjectManager/ProjectManager/Sources/Data/Storages/DefaultCoreDataStorage.swift:41 | `ProjectState(rawValue:)` succeeds exactly on the ordinals 0 to 2 |
| `Domain.RawValueRoundTrip` | ProjectManager/ProjectManager/Sources/Data/Repositories/DefaultProjectRepository.swift:27 | a state survives the trip through its raw value; a raw value that decodes is the raw value of its state |
| `Domain.FirstIndexOf` | ProjectManager/ProjectManager/Sources/Data/Repositories/DefaultProjectRepository.swift:82 | None exactly when no element has the id; otherwise an index holding the id with no earlier element holding it |
| `Domain.AppendFresh` | ProjectManager/ProjectManager/Sources/Data/Repositories/DefaultProjectRepository.swift:30 | appending a project whose id is new keeps ids unique, and a lookup of that id finds the appended element |
| `Domain.ReplaceKeepsIds` | ProjectManager/ProjectManager/Sources/Data/Repositories/DefaultProjectRepository.swift:50 | replacing the first element with the item's id keeps the length and unique ids, and a later lookup finds the same index |
| `Domain.RemoveUniqueLeavesNone` | ProjectManager/ProjectManager/Sources/Data/Repositories/DefaultProjectRepository.swift:58-69 | with unique ids, after the matching element is removed no element has that id, and ids stay unique |
| `Broadcast.ProjectSubject.constructor` | ProjectManager/ProjectManager/Sources/Data/Repositories/DefaultProjectRepository.swift:16 | the initial value is held and is not a publication |
| `Broadcast.ProjectSubject.OnNext` | ProjectManager/ProjectManager/Sources/Data/Repositories/DefaultProjectRepository.swift:7 | the slot becomes the snapshot and the log grows by exactly that snapshot |
| `Broadcast.ProjectSubject.Subscribe` | ProjectManager/ProjectManager/Sources/Data/Repositories/DefaultProjectRepository.swift:10 | a new subscriber first receives the latest value, which is the last publication once there has been one |
| `LocalStore.SetValue` | ProjectManager/ProjectManager/Sources/Data/Storages/DefaultCoreDataStorage.swift:78 | `setValue(_:forKey:)` on one attribute: that attribute reads back as the value, every other key reads as before, the object identity is kept |
| `LocalStore.Merged` | ProjectManager/ProjectManager/Sources/Data/Storages/DefaultCoreDataStorage.swift:74-81 | the merge of `update(_:items:)` in closed form: the object identity is kept and every key the map lacks reads as before |
| `LocalStore.MergedAttribute` | ProjectManager/ProjectManager/Sources/Data/Storages/DefaultCoreDataStorage.swift:74-81 | after the merge every attribute named in the map holds the map's value, every attribute not named keeps its value, and the object identity is kept |
| `LocalStore.MergeIgnoresOtherKeys` | ProjectManager/ProjectManager/Sources/Data/Storages/DefaultCoreDataStorage.swift:75-80 | two maps that agree on the attribute names give the same merge: keys that name no attribute are ignored |
| `LocalStore.MergedNothing` | ProjectManager/ProjectManager/Sources/Data/Storages/DefaultCoreDataStorage.swift:76-80 | a map naming no attribute leaves the object unchanged |
| `LocalStore.MergedOverAll` | ProjectManager/ProjectManager/Sources/Data/Storages/DefaultCoreDataStorage.swift:76-80 | doing `setValue` for each attribute name in turn gives the attribute-wise merge |
| `LocalStore.MergeObject` | ProjectManager/ProjectManager/Sources/Data/Storages/DefaultCoreDataStorage.swift:74-81 | the `for key in keys` loop yields the merge, and reports a change exactly when the map names some attribute |
| `LocalStore.Fields` | ProjectManager/ProjectManager/Sources/Data/Repositories/DefaultProjectRepository.swift:22-28 | the field map built from a project holds values of the type of every attribute it names |
| `LocalStore.NewObject` | ProjectManager/ProjectManager/Sources/Data/Storages/DefaultCoreDataStorage.swift:51-54 | the object `insert` creates: the next object identity and the map's id; an attribute the map does not name stays nil, and the status stays 0 |
| `LocalStore.Decode` | ProjectManager/ProjectManager/Sources/Data/Storages/DefaultCoreDataStorage.swift:36-42 | the id is kept; a nil title or body becomes "", a nil date becomes `now`, and an ordinal outside 0 to 2 becomes todo |
| `LocalStore.FieldsOverwriteAll` | ProjectManager/ProjectManager/Sources/Data/Repositories/DefaultProjectRepository.swift:42-49 | merging a project's field map into any record yields a record that decodes to that project |
| `LocalStore.FieldsRoundTrip` | ProjectManager/ProjectManager/Sources/Data/Storages/DefaultCoreDataStorage.swift:36-42 | a project encoded to fields, inserted as a fresh object and decoded is the same project, whatever `now` is |
| `LocalStore.DecodeAll` | ProjectManager/ProjectManager/Sources/Data/Storages/DefaultCoreDataStorage.swift:35-44 | one project per record, same length and same order |
| `LocalStore.WithId` | ProjectManager/ProjectManager/Sources/Data/Repositories/DefaultProjectRepository.swift:61 | the id predicate keeps exactly the records with that id and no more records than there were |
| `LocalStore.InsertByDate` | ProjectManager/ProjectManager/Sources/Data/Storages/DefaultCoreDataStorage.swift:61 | inserting into a date-descending list keeps it date-descending and adds exactly that record |
| `LocalStore.SortByDate` | ProjectManager/ProjectManager/Sources/Data/Storages/DefaultCoreDataStorage.swift:61 | the default order is date descending and a permutation of the records |
| `LocalStore.UpdateTarget` | ProjectManager/ProjectManager/Sources/Data/Storages/DefaultCoreDataStorage.swift:95-99 | a merge target exists only when the map has a UUID id, and it is a record with that id |
| `LocalStore.ProjectUpdated` | ProjectManager/ProjectManager/Sources/Data/Storages/DefaultCoreDataStorage.swift:91-100 | the records after `updateProject`: same length, same object identities, and only a record with the map's UUID id may differ |
| `LocalStore.FetchedById` | ProjectManager/ProjectManager/Sources/Data/Storages/DefaultCoreDataStorage.swift:97 | a fetch by id finds something exactly when some record has the id, and finds only such records |
| `LocalStore.DeleteTarget` | ProjectManager/ProjectManager/Sources/Data/Repositories/DefaultProjectRepository.swift:60-62 | the record a facade's delete resolves is a stored record with the id; there is none exactly when the fetch fails or no record has the id |
| `LocalStore.HeadIsLatest` | ProjectManager/ProjectManager/Sources/Data/Storages/DefaultCoreDataStorage.swift:61 | the first of a date-descending sequence is at least as late as every element |
| `LocalStore.FetchedHeadIsLatest` | ProjectManager/ProjectManager/Sources/Data/Storages/DefaultCoreDataStorage.swift:58-66 | the first record of a fetch by id is at least as late as every stored record with that id |
| `LocalStore.UpdateTargetIsLatest` | ProjectManager/ProjectManager/Sources/Data/Storages/DefaultCoreDataStorage.swift:97 | when several records share the map's id, `updateProject` merges into the latest-dated of them |
| `LocalStore.DeleteTargetIsLatest` | ProjectManager/ProjectManager/Sources/Data/Repositories/DefaultProjectRepository.swift:60-62 | when several records share the id, a facade's delete removes the latest-dated of them |
| `LocalStore.UpdateTargetNone` | ProjectManager/ProjectManager/Sources/Data/Storages/DefaultCoreDataStorage.swift:95-99 | `updateProject` is a no-op exactly when "id" is missing or not a UUID, the fetch fails, or no record has that id |
| `LocalStore.UpdateTargetUnique` | ProjectManager/ProjectManager/Sources/Data/Storages/DefaultCoreDataStorage.swift:97 | with at most one record per id, the merge target is the record with the map's id |
| `LocalStore.DefaultCoreDataStorage.constructor` | ProjectManager/ProjectManager/Sources/Data/Storages/DefaultCoreDataStorage.swift:8-16 | the loaded store's records, all committed, with no pending changes |
| `LocalStore.DefaultCoreDataStorage.SaveContext` | ProjectManager/ProjectManager/Sources/Data/Storages/DefaultCoreDataStorage.swift:18-28 | commits the context's records when there are changes; with none, nothing changes |
| `LocalStore.DefaultCoreDataStorage.UpdateObject` | ProjectManager/ProjectManager/Sources/Data/Storages/DefaultCoreDataStorage.swift:74-82 | only the record at the given position becomes its merge, and the result is committed |
| `LocalStore.DefaultCoreDataStorage.Insert` | ProjectManager/ProjectManager/Sources/Data/Storages/DefaultCoreDataStorage.swift:51-55 | exactly one new record holding the merged map is appended, existing records untouched, committed |
| `LocalStore.DefaultCoreDataStorage.Fetch` | ProjectManager/ProjectManager/Sources/Data/Storages/DefaultCoreDataStorage.swift:57-72 | None exactly when the request fails; otherwise the matching records, date descending, a permutation of the matches |
| `LocalStore.DefaultCoreDataStorage.FetchFirst` | ProjectManager/ProjectManager/Sources/Data/Repositories/DefaultProjectRepository.swift:60-62 | the `.first` of the fetch for an id is `DeleteTarget`: none when the fetch fails or finds nothing |
| `LocalStore.DefaultCoreDataStorage.Delete` | ProjectManager/ProjectManager/Sources/Data/Storages/DefaultCoreDataStorage.swift:84-89 | removes exactly the given record, keeps the others in order, commits |
| `LocalStore.DefaultCoreDataStorage.UpdateProject` | ProjectManager/ProjectManager/Sources/Data/Storages/DefaultCoreDataStorage.swift:91-100 | merges into the target record only, or changes nothing when there is no target |
| `LocalStore.DefaultCoreDataStorage.Setup` | ProjectManager/ProjectManager/Sources/Data/Storages/DefaultCoreDataStorage.swift:30-46 | returns `Loaded` of the records: a failed fetch gives []; otherwise one decoded project per record, in fetch order |
| `LocalStore.InsertedIsLoaded` | ProjectManager/ProjectManager/Sources/Data/Storages/DefaultCoreDataStorage.swift:51-55 | a project inserted into the store is among what the next `setup` loads |
| `LocalStore.Loaded` | ProjectManager/ProjectManager/Sources/Data/Storages/DefaultCoreDataStorage.swift:30-46 | what one `setup()` call returns: nothing when the fetch fails, otherwise one project per record, each the decoding of a stored record |
| `Repository.DefaultProjectRepository.constructor` | ProjectManager/ProjectManager/Sources/Data/Repositories/DefaultProjectRepository.swift:13-17 | the list and the subject's initial value come from two `setup()` calls, nothing is published, and they agree when the two calls agree |
| `Repository.DefaultProjectRepository.SetProjects` | ProjectManager/ProjectManager/Sources/Data/Repositories/DefaultProjectRepository.swift:5-9 | every assignment to the list publishes it exactly once |
| `Repository.DefaultProjectRepository.Create` | ProjectManager/ProjectManager/Sources/Data/Repositories/DefaultProjectRepository.swift:21-32 | succeeds with the item; the list is the old list plus the item; one record is inserted; one publication; the slot equals the list |
| `Repository.DefaultProjectRepository.Update` | ProjectManager/ProjectManager/Sources/Data/Repositories/DefaultProjectRepository.swift:34-55 | no item or no match: `notFound`, and list, store and subject unchanged; otherwise only the first matching index is replaced, the store gets `updateProject`, one publication |
| `Repository.DefaultProjectRepository.Delete` | ProjectManager/ProjectManager/Sources/Data/Repositories/DefaultProjectRepository.swift:57-74 | succeeds exactly when there is an item, a list match and a store record; failure changes nothing; success removes that element and that record, keeps the rest in order, publishes once |
| `Repository.DefaultProjectRepository.Locate` | ProjectManager/ProjectManager/Sources/Data/Repositories/DefaultProjectRepository.swift:58-62 | the guards of `delete`: a position and a record exactly when there is an item, a list match and a store record, and then the first list match and `DeleteTarget` |
| `Repository.DefaultProjectRepository.RemoveBoth` | ProjectManager/ProjectManager/Sources/Data/Repositories/DefaultProjectRepository.swift:68-69 | `delete` of the store record, then `remove(at:)` of the element: both lists lose exactly that entry, keep the rest in order, and the list is published once |
| `Repository.DefaultProjectRepository.FetchAll` | ProjectManager/ProjectManager/Sources/Data/Repositories/DefaultProjectRepository.swift:76-78 | every call returns the same subject |
| `Repository.DefaultProjectRepository.FetchById` | ProjectManager/ProjectManager/Sources/Data/Repositories/DefaultProjectRepository.swift:80-89 | `notFound` exactly when no element has the id; otherwise the first element with it; reads only |
| `Repository.DeleteTwice` | ProjectManager/ProjectManager/Sources/Data/Repositories/DefaultProjectRepository.swift:58-69 | with unique ids, a delete that succeeds is followed by a delete of the same item that fails with `notFound` |
| `Repository.CreateThenFetch` | ProjectManager/ProjectManager/Sources/Data/Repositories/DefaultProjectRepository.swift:80-89 | after creating a project with a new id, looking it up returns it, and a second lookup returns the same |
| `Storage.DefaultProjectStorage.constructor` | ProjectManager/ProjectManager/Sources/Data/Storages/DefaultProjectStorage.swift:12-18 | the list and the subject are exactly the injected arguments; nothing is published |
| `Storage.DefaultProjectStorage.SetProjects` | ProjectManager/ProjectManager/Sources/Data/Storages/DefaultProjectStorage.swift:5-9 | every assignment to the list publishes it exactly once |
| `Storage.DefaultProjectStorage.Create` | ProjectManager/ProjectManager/Sources/Data/Storages/DefaultProjectStorage.swift:22-33 | appends the item, inserts one record, returns the item, one publication |
| `Storage.DefaultProjectStorage.Update` | ProjectManager/ProjectManager/Sources/Data/Storages/DefaultProjectStorage.swift:35-56 | `notFound` with no state change for no item or no match; otherwise only the matching index changes |
| `Storage.DefaultProjectStorage.Delete` | ProjectManager/ProjectManager/Sources/Data/Storages/DefaultProjectStorage.swift:58-75 | needs a list match and a store record; on success the list loses exactly that element, the rest keep their order |
| `Storage.DefaultProjectStorage.Locate` | ProjectManager/ProjectManager/Sources/Data/Storages/DefaultProjectStorage.swift:59-63 | the guards of `delete`: a position and a record exactly when there is an item, a list match and a store record, and then the first list match and `DeleteTarget` |
| `Storage.DefaultProjectStorage.RemoveBoth` | ProjectManager/ProjectManager/Sources/Data/Storages/DefaultProjectStorage.swift:69-70 | `delete` of the store record, then `remove(at:)` of the element: both lists lose exactly that entry, keep the rest in order, and the list is published once |
| `Storage.DefaultProjectStorage.FetchAll` | ProjectManager/ProjectManager/Sources/Data/Storages/DefaultProjectStorage.swift:77-79 | every call returns the injected subject |
| `Storage.DefaultProjectStorage.FetchById` | ProjectManager/ProjectManager/Sources/Data/Storages/DefaultProjectStorage.swift:81-90 | reads only; `notFound` exactly when no element has the id |
| `Remote.DecodeProject` | ProjectManager/ProjectManager/Sources/Data/Storages/DefaultFirestoreStorage.swift:54-70 | `Project.init?(data:)`: a decoded project comes only from a well-formed document, with the parsed id and `body` as the description |
| `Remote.RejectsBadId` | ProjectManager/ProjectManager/Sources/Data/Storages/DefaultFirestoreStorage.swift:55-56 | no id, an id that is not a string, or one that is not a UUID string: the document is rejected |
| `Remote.RejectsMistypedFields` | ProjectManager/ProjectManager/Sources/Data/Storages/DefaultFirestoreStorage.swift:57-60 | title or body not a string, date not a timestamp, or status not an integer: the document is rejected |
| `Remote.RejectsUnknownStatus` | ProjectManager/ProjectManager/Sources/Data/Storages/DefaultFirestoreStorage.swift:61 | an integer status that is not a state's raw value: the document is rejected |
| `Remote.DecodeSucceedsOnWellFormed` | ProjectManager/ProjectManager/Sources/Data/Storages/DefaultFirestoreStorage.swift:54-70 | decoding succeeds exactly on well-formed documents, with the parsed id, title, body as description, the timestamp's date and the parsed state |
| `Remote.DecodedOne` | ProjectManager/ProjectManager/Sources/Data/Storages/DefaultFirestoreStorage.swift:44 | one document's part of the `compactMap`: at most one project, none exactly when the document does not decode, otherwise its decoding |
| `Remote.DecodeDocuments` | ProjectManager/ProjectManager/Sources/Data/Storages/DefaultFirestoreStorage.swift:44 | the `compactMap` gives no more projects than there are documents |
| `Remote.DecodeDocumentsExact` | ProjectManager/ProjectManager/Sources/Data/Storages/DefaultFirestoreStorage.swift:44 | each decoded project decodes from one of the documents, and every decodable document's project is there |
| `Remote.DecodeDocumentsAppend` | ProjectManager/ProjectManager/Sources/Data/Storages/DefaultFirestoreStorage.swift:44 | decoding keeps document order: the decoding of a concatenation is the concatenation of the decodings |
| `Remote.FetchResult` | ProjectManager/ProjectManager/Sources/Data/Storages/DefaultFirestoreStorage.swift:36-46 | the `getDocuments` callback: it fails exactly when an error is reported, and with that error |
| `Remote.FetchDropsInvalid` | ProjectManager/ProjectManager/Sources/Data/Storages/DefaultFirestoreStorage.swift:36-46 | the fetch fails only on a reported error; a missing snapshot gives []; invalid documents are dropped, not failed on |
| `Detail.LeftBarButtonText` | ProjectManager/ProjectManager/Sources/Presentation/Detail/ViewModel/DetailViewModel.swift:101 | "Cancel" exactly in add mode, "Edit" otherwise |
| `Detail.EditedProject` | ProjectManager/ProjectManager/Sources/Presentation/Detail/ViewModel/DetailViewModel.swift:65-71 | the `newProject` the right button builds keeps the original's id and status |
| `Detail.EditedProjectFields` | ProjectManager/ProjectManager/Sources/Presentation/Detail/ViewModel/DetailViewModel.swift:65-71 | the submitted project keeps the id and status; each of title, description and date is the last edit or the original's value |
| `Detail.DetailViewModel.constructor` | ProjectManager/ProjectManager/Sources/Presentation/Detail/ViewModel/DetailViewModel.swift:17-22 | keeps the project and mode; the screen is editable exactly in add mode |
| `Detail.DetailViewModel.Transform` | ProjectManager/ProjectManager/Sources/Presentation/Detail/ViewModel/DetailViewModel.swift:41-45 | fresh relays, editable exactly in add mode, and the outputs shown to the view |
| `Detail.DetailViewModel.ChangeTitle` | ProjectManager/ProjectManager/Sources/Presentation/Detail/ViewModel/DetailViewModel.swift:47-50 | the title relay holds the latest text, nil included; nothing else changes |
| `Detail.DetailViewModel.ChangeDate` | ProjectManager/ProjectManager/Sources/Presentation/Detail/ViewModel/DetailViewModel.swift:52-55 | the date relay holds the picked date; nothing else changes |
| `Detail.DetailViewModel.ChangeDescription` | ProjectManager/ProjectManager/Sources/Presentation/Detail/ViewModel/DetailViewModel.swift:57-60 | the description relay holds the latest text; nothing else changes |
| `Detail.DetailViewModel.TapLeft` | ProjectManager/ProjectManager/Sources/Presentation/Detail/ViewModel/DetailViewModel.swift:82-94 | read becomes edit (editable), edit becomes read (not editable), add only dismisses; never editable while reading |
| `Detail.DetailViewModel.TapRight` | ProjectManager/ProjectManager/Sources/Presentation/Detail/ViewModel/DetailViewModel.swift:62-80 | always dismisses; when editable, an update in edit mode and a create otherwise, with the edited project; when not editable, no call |
| `Detail.DetailViewModel.Receive` | ProjectManager/ProjectManager/Sources/Presentation/Detail/ViewModel/DetailViewModel.swift:73-77 | the stored project becomes the returned one on success and is unchanged on failure |

## Left out

- RxSwift plumbing (`Single.create`, `Completable`, `Disposables`,
  `DisposeBag`, relay subscriptions): results are return values and the
  subject is a slot with a publication log. Live subscribers and what they
  receive later are represented only by that log.
- Threads and concurrent calls: the source is single-threaded and no
  concurrency is modelled.
- `NSPersistentCloudKitContainer` loading and the `fatalError` paths of
  store loading and `saveContext`: they end the process.
- `NSFetchRequest` and `NSPredicate` internals: the fetch is an id filter
  plus a date sort. The `entityName` and `sortDescriptors` parameters are
  always left at their defaults by the callers, so only the defaults are
  modelled.
- `LocalStore.DefaultCoreDataStorage.Insert`: requires the map to hold a UUID under "id" and values of the attributes' types. CoreData would otherwise fail at save, and that path ends the process.
- `LocalStore.DefaultCoreDataStorage.UpdateProject`: requires values of the attributes' types under every key but "id", for the same reason. A missing or mistyped id is modelled, as a no-op.
- `fetch(id:)` returns a lazy `Single.create`, so the source reads
  `projects` when the result is subscribed to. The model reads it when the
  method is called.
- `LocalStore.DefaultCoreDataStorage.Setup`: the source reads `Date()` once for each record with a nil date; the model uses one `now` for the whole call.
- The Firestore network calls (`setData`, `delete`, `getDocuments`) and
  `Firestore.firestore()`: foreign I/O. `Project.dictionary` is not shown,
  so no remote encode and no remote round trip are modelled.
- `Remote.DecodeProject`: an integral floating-point number or a boolean
  would also pass `as? Int` through `NSNumber` bridging. All non-integer
  field types are one `OtherField` case, so that case is not modelled.
- `UUID(uuidString:)`, `Timestamp.dateValue()` and `Date()` are parameters,
  not definitions.
- The navigation title `status.rawValue`: it uses the raw value as a string,
  which does not agree with the integer raw values the storage files use.
- The coordinator's `dismiss` is a returned flag. The `print` of a failed
  use-case call and the observable outputs after `transform` are not
  modelled.
- `ProjectCell` (cell configuration and date formatting) and the
  `FirestoreStorage` protocol (an interface only).
