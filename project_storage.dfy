/** `DefaultProjectStorage`: the same facade as `DefaultProjectRepository`,
    with its initial list and its subject injected, and `StorageError`. The
    store it names, `CoreDataStorage.shared`, is not part of this model; it is
    taken to be the local store with the same operations. */
module Storage {
  import opened Wrappers
  import opened Domain
  import opened LocalStore
  import opened Broadcast

  datatype StorageError = NotFound

  class DefaultProjectStorage {
    var projects: seq<Project>
    const projectStore: ProjectSubject
    /** The store the storage writes to: always `CoreDataStorage.shared`. */
    const coreData: DefaultCoreDataStorage

    /** The subject the storage was given may hold anything until the
        first mutation; after each successful one it holds the list. */
    ghost predicate Valid()
      reads this, projectStore, coreData
    {
      coreData.Valid() && projectStore.Valid()
    }

    /** `init(projects:projectStore:)`: the list and the subject are exactly
        the arguments (the defaults, two `setup()` calls, are evaluated by the
        caller); nothing is published. */
    constructor (projects: seq<Project>, projectStore: ProjectSubject, shared: DefaultCoreDataStorage)
      requires shared.Valid() && projectStore.Valid()
      ensures Valid()
      ensures this.projects == projects && this.projectStore == projectStore && coreData == shared
      ensures unchanged(projectStore) && unchanged(shared)
    {
      this.projects := projects;
      this.projectStore := projectStore;
      coreData := shared;
    }

    /** The `didSet` of `projects`: assign, then push the whole list. */
    method SetProjects(ps: seq<Project>)
      requires projectStore.Valid()
      modifies this, projectStore
      ensures projectStore.Valid()
      ensures projects == ps && projectStore.value == ps
      ensures projectStore.published == old(projectStore.published) + [ps]
    {
      projects := ps;
      projectStore.OnNext(projects);
    }

    /** `create`: inserts the record, appends the item, publishes once and
        succeeds with the item. No id collision check is made. */
    method Create(item: Project) returns (r: Result<Project, StorageError>)
      requires Valid()
      modifies this, projectStore, coreData
      ensures Valid()
      ensures r == Success(item)
      ensures projects == old(projects) + [item] && projectStore.value == projects
      ensures coreData.records == old(coreData.records) + [NewObject(old(coreData.nextObjectId), Fields(item))]
      ensures projectStore.published == old(projectStore.published) + [projects]
    {
      coreData.Insert(Fields(item));
      SetProjects(projects + [item]);
      r := Success(item);
    }

    /** `update(_:)`: fails with `notFound`, changing nothing, when there
        is no item or no element with its id; otherwise writes the record
        through `updateProject`, replaces the first element with that id,
        publishes once and succeeds with the item. */
    method Update(item: Option<Project>, fetchFailed: bool) returns (r: Result<Project, StorageError>)
      requires Valid()
      modifies this, projectStore, coreData
      ensures Valid()
      ensures item.None? || FirstIndexOf(old(projects), item.value.id).None? ==>
                && r == Failure(NotFound)
                && projects == old(projects)
                && unchanged(coreData) && unchanged(projectStore)
      ensures item.Some? && FirstIndexOf(old(projects), item.value.id).Some? ==>
                var k := FirstIndexOf(old(projects), item.value.id).value;
                && r == Success(item.value)
                && projects == old(projects)[k := item.value] && projectStore.value == projects
                && coreData.records == ProjectUpdated(old(coreData.records), Fields(item.value), fetchFailed)
                && projectStore.published == old(projectStore.published) + [projects]
    {
      if item.None? {
        return Failure(NotFound);
      }
      var index := FirstIndexOf(projects, item.value.id);
      if index.None? {
        return Failure(NotFound);
      }
      coreData.UpdateProject(Fields(item.value), fetchFailed);
      SetProjects(projects[index.value := item.value]);
      r := Success(item.value);
    }

    /** `delete`: fails with `notFound`, changing nothing, unless there is an
        item, an element with its id and a store record with its id; then
        removes that record and the element, publishes once and succeeds with
        the item. */
    method Delete(item: Option<Project>, fetchFailed: bool) returns (r: Result<Project, StorageError>)
      requires Valid()
      modifies this, projectStore, coreData
      ensures Valid()
      ensures r.Success? <==>
                && item.Some?
                && FirstIndexOf(old(projects), item.value.id).Some?
                && DeleteTarget(old(coreData.records), item.value.id, fetchFailed).Some?
      ensures r.Failure? ==>
                && r == Failure(NotFound)
                && projects == old(projects)
                && unchanged(coreData) && unchanged(projectStore)
      ensures r.Success? ==>
                var k := FirstIndexOf(old(projects), item.value.id).value;
                var j := IndexOfRecord(old(coreData.records), DeleteTarget(old(coreData.records), item.value.id, fetchFailed).value);
                && r == Success(item.value)
                && projects == old(projects)[..k] + old(projects)[k + 1..] && projectStore.value == projects
                && coreData.records == old(coreData.records)[..j] + old(coreData.records)[j + 1..]
                && projectStore.published == old(projectStore.published) + [projects]
    {
      var found := Locate(item, fetchFailed);
      if found.None? {
        return Failure(NotFound);
      }
      assert projects == old(projects) && coreData.records == old(coreData.records);
      RemoveBoth(found.value.0, found.value.1);
      r := Success(item.value);
    }

    /** The guards of `delete`: the position of the first element with the
        item's id and the first record of the store's fetch for it, or
        nothing when there is no item, no such element or no such record.
        Nothing changes. */
    method Locate(item: Option<Project>, fetchFailed: bool) returns (found: Option<(nat, Entity)>)
      ensures found.Some? <==>
                && item.Some?
                && FirstIndexOf(projects, item.value.id).Some?
                && DeleteTarget(coreData.records, item.value.id, fetchFailed).Some?
      ensures found.Some? ==>
                && Some(found.value.0) == FirstIndexOf(projects, item.value.id)
                && Some(found.value.1) == DeleteTarget(coreData.records, item.value.id, fetchFailed)
    {
      found := None;
      if item.Some? {
        var index := FirstIndexOf(projects, item.value.id);
        if index.Some? {
          var project := coreData.FetchFirst(item.value.id, fetchFailed);
          if project.Some? {
            found := Some((index.value, project.value));
          }
        }
      }
    }

    /** The success path of `delete`: the store record goes, then the list
        element at `k`, which publishes the list once. */
    method RemoveBoth(k: nat, e: Entity)
      requires Valid() && k < |projects| && e in coreData.records
      modifies this, projectStore, coreData
      ensures Valid()
      ensures projects == old(projects)[..k] + old(projects)[k + 1..] && projectStore.value == projects
      ensures var j := IndexOfRecord(old(coreData.records), e);
              coreData.records == old(coreData.records)[..j] + old(coreData.records)[j + 1..]
      ensures projectStore.published == old(projectStore.published) + [projects]
    {
      coreData.Delete(e);
      SetProjects(projects[..k] + projects[k + 1..]);
    }

    /** `fetch()`: every call returns the one subject. */
    method FetchAll() returns (subject: ProjectSubject)
      ensures subject == projectStore
    {
      subject := projectStore;
    }

    /** `fetch(id:)`: the first element with the id, or `notFound` exactly
        when there is none; nothing changes. */
    method FetchById(id: Uuid) returns (r: Result<Project, StorageError>)
      ensures r.Failure? <==> forall i :: 0 <= i < |projects| ==> projects[i].id != id
      ensures r.Failure? ==> r.error == NotFound
      ensures r.Success? ==> r.value.id == id
      ensures r.Success? ==>
                exists k :: 0 <= k < |projects| && projects[k] == r.value && forall j :: 0 <= j < k ==> projects[j].id != id
    {
      var index := FirstIndexOf(projects, id);
      if index.None? {
        return Failure(NotFound);
      }
      r := Success(projects[index.value]);
    }
  }
}
