/** The CoreData-backed local store (`DefaultCoreDataStorage`): managed
    `ProjectEntity` records, the untyped field map they are written from, the
    partial merge, the date-ordered fetch and the decoding into projects. */
module LocalStore {
  import opened Wrappers
  import opened Domain

  /** The entity's `status` attribute is an `Int16`. */
  newtype Int16 = x: int | -0x8000 <= x < 0x8000

  /** A value held in a field map (Swift's `[String: Any]`), in one of the
      types the entity's attributes take. */
  datatype Value = UuidValue(uuid: Uuid) | StringValue(text: string) | DateValue(date: Date) | IntValue(number: int)

  type Items = map<string, Value>

  /** One managed `ProjectEntity`: its object identity in the context and its
      five attributes (`id: UUID`, `title: String?`, `body: String?`,
      `date: Date?`, `status: Int16`). */
  datatype Entity = Entity(objectId: nat, id: Uuid, title: Option<string>, body: Option<string>,
                           date: Option<Date>, status: Int16)

  /** `entity.attributesByName.keys`. */
  const AttributeNames: seq<string> := ["id", "title", "body", "date", "status"]

  /** Whether `v` has the type of the attribute named `key`; a key that names
      no attribute accepts anything, since the merge never reads it. */
  predicate Fits(key: string, v: Value) {
    if key == "id" then v.UuidValue?
    else if key == "title" || key == "body" then v.StringValue?
    else if key == "date" then v.DateValue?
    else if key == "status" then v.IntValue? && -0x8000 <= v.number < 0x8000
    else true
  }

  /** The values under every key but "id" fit their attributes. */
  predicate OtherAttributesFit(items: Items) {
    forall k :: k in items && k != "id" ==> Fits(k, items[k])
  }

  /** A field map whose values CoreData accepts for the attributes they name. */
  predicate Storable(items: Items) {
    ("id" in items ==> items["id"].UuidValue?) && OtherAttributesFit(items)
  }

  /** `managedObject.value(forKey:)`: an attribute read as a field-map value,
      None for a nil attribute or a key that names no attribute. */
  function Attribute(e: Entity, key: string): Option<Value> {
    if key == "id" then Some(UuidValue(e.id))
    else if key == "title" then (if e.title.Some? then Some(StringValue(e.title.value)) else None)
    else if key == "body" then (if e.body.Some? then Some(StringValue(e.body.value)) else None)
    else if key == "date" then (if e.date.Some? then Some(DateValue(e.date.value)) else None)
    else if key == "status" then Some(IntValue(e.status as int))
    else None
  }

  /** `managedObject.setValue(v, forKey: key)` for one attribute name. */
  function SetValue(e: Entity, key: string, v: Value): (r: Entity)
    requires Fits(key, v)
    ensures r.objectId == e.objectId
    ensures key in AttributeNames ==> Attribute(r, key) == Some(v)
    ensures forall other :: other != key ==> Attribute(r, other) == Attribute(e, other)
  {
    if key == "id" then e.(id := v.uuid)
    else if key == "title" then e.(title := Some(v.text))
    else if key == "body" then e.(body := Some(v.text))
    else if key == "date" then e.(date := Some(v.date))
    else if key == "status" then e.(status := v.number as Int16)
    else e
  }

  /** The object after the partial merge of `update(_:items:)`, attribute by
      attribute: the item's value where the map has the attribute's key, the
      old value where it has not. */
  function Merged(e: Entity, items: Items): (r: Entity)
    requires Storable(items)
    ensures r.objectId == e.objectId
    ensures forall key :: key !in items ==> Attribute(r, key) == Attribute(e, key)
  {
    Entity(e.objectId,
           if "id" in items then items["id"].uuid else e.id,
           if "title" in items then Some(items["title"].text) else e.title,
           if "body" in items then Some(items["body"].text) else e.body,
           if "date" in items then Some(items["date"].date) else e.date,
           if "status" in items then items["status"].number as Int16 else e.status)
  }

  /** The partial merge, key by key: every attribute the map names now holds
      the map's value, every other attribute keeps its value, and the object's
      identity does not change. */
  lemma MergedAttribute(e: Entity, items: Items, key: string)
    requires Storable(items)
    ensures Merged(e, items).objectId == e.objectId
    ensures key in AttributeNames && key in items ==> Attribute(Merged(e, items), key) == Some(items[key])
    ensures key !in items ==> Attribute(Merged(e, items), key) == Attribute(e, key)
  {
  }

  /** Keys of the map that name no attribute are ignored: only the entries
      under attribute names decide the merge. */
  lemma MergeIgnoresOtherKeys(e: Entity, items: Items, other: Items)
    requires Storable(items) && Storable(other)
    requires forall k :: k in AttributeNames ==> (k in items <==> k in other)
    requires forall k :: k in AttributeNames && k in items ==> items[k] == other[k]
    ensures Merged(e, items) == Merged(e, other)
  {
    assert AttributeNames == ["id", "title", "body", "date", "status"];
    assert "id" in AttributeNames && "title" in AttributeNames && "body" in AttributeNames;
    assert "date" in AttributeNames && "status" in AttributeNames;
  }

  /** A map naming no attribute leaves the object as it was. */
  lemma MergedNothing(e: Entity, items: Items)
    requires Storable(items)
    requires forall i :: 0 <= i < |AttributeNames| ==> AttributeNames[i] !in items
    ensures Merged(e, items) == e
  {
    assert AttributeNames[0] == "id" && AttributeNames[1] == "title" && AttributeNames[2] == "body";
    assert AttributeNames[3] == "date" && AttributeNames[4] == "status";
  }

  /** `setValue` for each name of `keys` that the map has, in order: what the
      loop of `update(_:items:)` has done after visiting `keys`. */
  function MergedOver(e: Entity, items: Items, keys: seq<string>): Entity
    requires Storable(items)
  {
    if |keys| == 0 then e
    else
      var r := MergedOver(e, items, keys[..|keys| - 1]);
      var key := keys[|keys| - 1];
      if key in items then SetValue(r, key, items[key]) else r
  }

  /** Visiting every attribute name once is the merge. */
  lemma MergedOverAll(e: Entity, items: Items)
    requires Storable(items)
    ensures MergedOver(e, items, AttributeNames) == Merged(e, items)
  {
    var k1, k2, k3, k4 := ["id"], ["id", "title"], ["id", "title", "body"], ["id", "title", "body", "date"];
    assert k1[..0] == [] && k2[..1] == k1 && k3[..2] == k2 && k4[..3] == k3 && AttributeNames[..4] == k4;
    assert MergedOver(e, items, k1[..0]) == e;
    assert k1[|k1| - 1] == "id";
    var m1 := MergedOver(e, items, k1);
    assert m1 == if "id" in items then e.(id := items["id"].uuid) else e;
    var m2 := MergedOver(e, items, k2);
    assert m2 == if "title" in items then m1.(title := Some(items["title"].text)) else m1;
    var m3 := MergedOver(e, items, k3);
    assert m3 == if "body" in items then m2.(body := Some(items["body"].text)) else m2;
    var m4 := MergedOver(e, items, k4);
    assert m4 == if "date" in items then m3.(date := Some(items["date"].date)) else m3;
  }

  /** The `for key in keys` loop of `update(_:items:)` on one object: each
      attribute whose name the map has is overwritten. `changed` tells whether
      any `setValue` ran. */
  method MergeObject(e: Entity, items: Items) returns (r: Entity, changed: bool)
    requires Storable(items)
    ensures r == Merged(e, items)
    ensures changed <==> exists i :: 0 <= i < |AttributeNames| && AttributeNames[i] in items
  {
    r, changed := e, false;
    for i := 0 to |AttributeNames|
      invariant r == MergedOver(e, items, AttributeNames[..i])
      invariant changed <==> exists j :: 0 <= j < i && AttributeNames[j] in items
    {
      var key := AttributeNames[i];
      assert AttributeNames[..i + 1][..i] == AttributeNames[..i];
      if key in items {
        r := SetValue(r, key, items[key]);
        changed := true;
      }
    }
    assert AttributeNames[..|AttributeNames|] == AttributeNames;
    MergedOverAll(e, items);
  }

  /** The field map that `create` and `update` build from a project
      (`description` goes to `body`, the state to its raw value). */
  function Fields(p: Project): (items: Items)
    ensures Storable(items)
  {
    map["id" := UuidValue(p.id), "title" := StringValue(p.title), "body" := StringValue(p.description),
        "date" := DateValue(p.date), "status" := IntValue(RawValue(p.status))]
  }

  /** The object `insert` creates: a fresh managed object (nil optionals,
      status 0) merged with the map. Its non-optional `id` has no default; the
      map's id, which `insert` requires, is what it ends up holding. */
  function NewObject(objectId: nat, items: Items): (r: Entity)
    requires Storable(items) && "id" in items
    ensures r.objectId == objectId && r.id == items["id"].uuid
    ensures "title" !in items ==> r.title.None?
    ensures "body" !in items ==> r.body.None?
    ensures "date" !in items ==> r.date.None?
    ensures "status" !in items ==> r.status == 0
  {
    Merged(Entity(objectId, items["id"].uuid, None, None, None, 0), items)
  }

  /** One record of `setup`: nil title and body become "", a nil date becomes
      `now` (the clock read of `Date()`), and an ordinal that is not a state
      becomes `.todo`. */
  function Decode(e: Entity, now: Date): (p: Project)
    ensures p.id == e.id
    ensures p.title == (if e.title.Some? then e.title.value else "")
    ensures p.description == (if e.body.Some? then e.body.value else "")
    ensures p.date == (if e.date.Some? then e.date.value else now)
    ensures 0 <= e.status as int <= 2 ==> RawValue(p.status) == e.status as int
    ensures !(0 <= e.status as int <= 2) ==> p.status == Todo
  {
    Project(e.id, e.title.GetOr(""), e.body.GetOr(""), e.date.GetOr(now),
            StateFromRawValue(e.status as int).GetOr(Todo))
  }

  /** A project's field map names every attribute, so merging it into any
      object leaves an object that decodes to that project, whatever `now` is. */
  lemma {:induction false} FieldsOverwriteAll(e: Entity, p: Project, now: Date)
    ensures Merged(e, Fields(p)).objectId == e.objectId
    ensures Decode(Merged(e, Fields(p)), now) == p
  {
    RawValueRoundTrip(p.status, 0);
    assert Merged(e, Fields(p)).status as int == RawValue(p.status);
  }

  /** The round trip of the local store: a project written through `Fields`
      into a fresh object decodes back to itself. */
  lemma {:induction false} FieldsRoundTrip(p: Project, objectId: nat, now: Date)
    ensures NewObject(objectId, Fields(p)).objectId == objectId
    ensures Decode(NewObject(objectId, Fields(p)), now) == p
  {
    FieldsOverwriteAll(Entity(objectId, p.id, None, None, None, 0), p, now);
  }

  /** `Decode` over a list of records, in their order. */
  function DecodeAll(rs: seq<Entity>, now: Date): (ps: seq<Project>)
    ensures |ps| == |rs|
    ensures forall i :: 0 <= i < |rs| ==> ps[i] == Decode(rs[i], now)
  {
    seq(|rs|, i requires 0 <= i < |rs| => Decode(rs[i], now))
  }

  // ---------------------------------------------------------------------------
  // Fetch requests: an id predicate and the default sort (date descending)

  /** `NSPredicate(format: "id == %@", id)`: the records with that id, in order. */
  function WithId(rs: seq<Entity>, id: Uuid): (r: seq<Entity>)
    ensures |r| <= |rs|
    ensures forall e :: e in r <==> e in rs && e.id == id
    ensures multiset(r) <= multiset(rs)
  {
    if |rs| == 0 then []
    else
      assert rs == [rs[0]] + rs[1..];
      if rs[0].id == id then [rs[0]] + WithId(rs[1..], id)
      else WithId(rs[1..], id)
  }

  /** The records a fetch request with an optional id predicate matches. */
  function Matching(rs: seq<Entity>, filter: Option<Uuid>): seq<Entity> {
    match filter
    case None => rs
    case Some(id) => WithId(rs, id)
  }

  /** The date order of `NSSortDescriptor(key: "date", ascending: false)`:
      later dates first; a nil date compares below every date (the store's
      ordering of NULL), so it sorts last. */
  predicate LaterOrSame(a: Entity, b: Entity) {
    match (a.date, b.date)
    case (Some(x), Some(y)) => x >= y
    case (Some(_), None) => true
    case (None, Some(_)) => false
    case (None, None) => true
  }

  ghost predicate ByDateDescending(rs: seq<Entity>) {
    forall i :: 0 <= i < |rs| - 1 ==> LaterOrSame(rs[i], rs[i + 1])
  }

  /** Inserts `e` into date-descending `rs` before the first record that is
      not later than it. */
  function InsertByDate(e: Entity, rs: seq<Entity>): (r: seq<Entity>)
    requires ByDateDescending(rs)
    ensures ByDateDescending(r)
    ensures multiset(r) == multiset(rs) + multiset{e}
    ensures r[0] == e || (|rs| > 0 && r[0] == rs[0])
  {
    if |rs| == 0 then [e]
    else if LaterOrSame(e, rs[0]) then [e] + rs
    else
      assert ByDateDescending(rs[1..]);
      assert rs == [rs[0]] + rs[1..];
      [rs[0]] + InsertByDate(e, rs[1..])
  }

  /** The order a fetch with the default sort descriptor returns: by date,
      latest first. The store does not promise an order among records with
      equal dates; this model keeps their stored order. */
  function SortByDate(rs: seq<Entity>): (r: seq<Entity>)
    ensures ByDateDescending(r)
    ensures multiset(r) == multiset(rs)
    ensures |r| == |rs|
  {
    if |rs| == 0 then []
    else
      assert rs == [rs[0]] + rs[1..];
      InsertByDate(rs[0], SortByDate(rs[1..]))
  }

  /** The first record of a date-descending list is at least as late as
      every record in it. */
  lemma {:induction false} HeadIsLatest(s: seq<Entity>)
    requires ByDateDescending(s) && |s| > 0
    ensures forall x :: x in s ==> LaterOrSame(s[0], x)
  {
    if |s| > 1 {
      assert ByDateDescending(s[1..]);
      HeadIsLatest(s[1..]);
      assert LaterOrSame(s[0], s[1]);
      assert forall x :: x in s ==> x == s[0] || x in s[1..];
    }
  }

  /** What a successful default fetch with an optional id predicate returns. */
  function Fetched(rs: seq<Entity>, filter: Option<Uuid>): seq<Entity> {
    SortByDate(Matching(rs, filter))
  }

  /** No two records share a managed object. */
  ghost predicate DistinctObjects(rs: seq<Entity>) {
    forall i, j :: 0 <= i < j < |rs| ==> rs[i].objectId != rs[j].objectId
  }

  /** The position of the first occurrence of `e`. */
  function IndexOfRecord(rs: seq<Entity>, e: Entity): (k: nat)
    requires e in rs
    ensures k < |rs| && rs[k] == e
    ensures forall j :: 0 <= j < k ==> rs[j] != e
  {
    if rs[0] == e then 0
    else 1 + IndexOfRecord(rs[1..], e)
  }

  /** The record `updateProject` merges into: the first of the fetch for the
      map's id, when the map has a UUID under "id", the fetch succeeds and
      finds a record. */
  function UpdateTarget(rs: seq<Entity>, items: Items, fetchFailed: bool): (k: Option<nat>)
    ensures k.Some? ==> k.value < |rs| && "id" in items && items["id"].UuidValue?
                        && rs[k.value].id == items["id"].uuid
  {
    if "id" in items && items["id"].UuidValue? && !fetchFailed then
      FetchedById(rs, items["id"].uuid);
      var found := Fetched(rs, Some(items["id"].uuid));
      if |found| == 0 then None
      else
        assert found[0] in found;
        Some(IndexOfRecord(rs, found[0]))
    else None
  }

  /** The records after `updateProject(items:)`. */
  function ProjectUpdated(rs: seq<Entity>, items: Items, fetchFailed: bool): (r: seq<Entity>)
    requires OtherAttributesFit(items)
    ensures |r| == |rs|
    ensures forall i :: 0 <= i < |rs| ==> r[i].objectId == rs[i].objectId
    ensures forall i :: 0 <= i < |rs| && r[i] != rs[i] ==>
              "id" in items && items["id"].UuidValue? && rs[i].id == items["id"].uuid
  {
    var target := UpdateTarget(rs, items, fetchFailed);
    if target.None? then rs
    else
      var k := target.value;
      var merged := Merged(rs[k], items);
      assert merged.objectId == rs[k].objectId;
      assert forall i :: 0 <= i < |rs| && i != k ==> rs[k := merged][i] == rs[i];
      rs[k := merged]
  }

  /** The list `setup()` returns for a store holding `rs`, given the clock's
      reading for nil dates and whether the fetch request fails. */
  function Loaded(rs: seq<Entity>, now: Date, fetchFailed: bool): (ps: seq<Project>)
    ensures fetchFailed ==> ps == []
    ensures !fetchFailed ==> |ps| == |rs|
    ensures !fetchFailed ==> forall i :: 0 <= i < |ps| ==> exists e :: e in rs && ps[i] == Decode(e, now)
  {
    if fetchFailed then []
    else
      var sorted := SortByDate(rs);
      assert forall i :: 0 <= i < |sorted| ==> sorted[i] in multiset(sorted) && sorted[i] in rs;
      DecodeAll(sorted, now)
  }

  /** A fetch for `id` finds something exactly when some record has that id,
      and finds only such records. */
  lemma FetchedById(rs: seq<Entity>, id: Uuid)
    ensures |Fetched(rs, Some(id))| > 0 <==> exists i :: 0 <= i < |rs| && rs[i].id == id
    ensures forall e :: e in Fetched(rs, Some(id)) ==> e in rs && e.id == id
  {
    var found := Fetched(rs, Some(id));
    assert multiset(found) == multiset(WithId(rs, id));
    forall e | e in found ensures e in rs && e.id == id {
      assert e in multiset(found);
    }
    if exists i :: 0 <= i < |rs| && rs[i].id == id {
      var i :| 0 <= i < |rs| && rs[i].id == id;
      assert rs[i] in WithId(rs, id);
      assert rs[i] in multiset(found);
    }
  }

  /** `.first` of a fetch for `id` is the latest-dated record with that id. */
  lemma FetchedHeadIsLatest(rs: seq<Entity>, id: Uuid)
    requires |Fetched(rs, Some(id))| > 0
    ensures forall i :: 0 <= i < |rs| && rs[i].id == id ==> LaterOrSame(Fetched(rs, Some(id))[0], rs[i])
  {
    var found := Fetched(rs, Some(id));
    HeadIsLatest(found);
    forall i | 0 <= i < |rs| && rs[i].id == id
      ensures LaterOrSame(found[0], rs[i])
    {
      assert rs[i] in WithId(rs, id);
      assert rs[i] in multiset(found);
    }
  }

  /** The record `delete` in a facade resolves for `id`: the first of the
      fetch, when the fetch succeeds and finds one. */
  function DeleteTarget(rs: seq<Entity>, id: Uuid, fetchFailed: bool): (r: Option<Entity>)
    ensures r.Some? ==> r.value in rs && r.value.id == id
    ensures r.None? <==> fetchFailed || forall i :: 0 <= i < |rs| ==> rs[i].id != id
  {
    FetchedById(rs, id);
    var found := Fetched(rs, Some(id));
    if fetchFailed || |found| == 0 then None else Some(found[0])
  }

  /** Where several records share the map's id, `updateProject` merges into
      the latest-dated of them, the `.first` of the date-descending fetch. */
  lemma UpdateTargetIsLatest(rs: seq<Entity>, items: Items, fetchFailed: bool)
    requires UpdateTarget(rs, items, fetchFailed).Some?
    ensures forall i :: 0 <= i < |rs| && rs[i].id == items["id"].uuid ==>
              LaterOrSame(rs[UpdateTarget(rs, items, fetchFailed).value], rs[i])
  {
    FetchedById(rs, items["id"].uuid);
    FetchedHeadIsLatest(rs, items["id"].uuid);
  }

  /** Where several records share the id, a facade's `delete` removes the
      latest-dated of them, the `.first` of the date-descending fetch. */
  lemma DeleteTargetIsLatest(rs: seq<Entity>, id: Uuid, fetchFailed: bool)
    requires DeleteTarget(rs, id, fetchFailed).Some?
    ensures forall i :: 0 <= i < |rs| && rs[i].id == id ==> LaterOrSame(DeleteTarget(rs, id, fetchFailed).value, rs[i])
  {
    FetchedHeadIsLatest(rs, id);
  }

  /** `updateProject` is a silent no-op exactly when the map has no UUID
      under "id", the fetch fails, or no record has that id. */
  lemma UpdateTargetNone(rs: seq<Entity>, items: Items, fetchFailed: bool)
    ensures UpdateTarget(rs, items, fetchFailed).None? <==>
              "id" !in items || !items["id"].UuidValue? || fetchFailed
              || forall i :: 0 <= i < |rs| ==> rs[i].id != items["id"].uuid
  {
    if "id" in items && items["id"].UuidValue? {
      FetchedById(rs, items["id"].uuid);
    }
  }

  /** With at most one record per id, the target of `updateProject` is the
      record with the map's id. */
  lemma UpdateTargetUnique(rs: seq<Entity>, items: Items, fetchFailed: bool, i: nat)
    requires forall a, b :: 0 <= a < b < |rs| ==> rs[a].id != rs[b].id
    requires UpdateTarget(rs, items, fetchFailed).Some?
    requires i < |rs| && rs[i].id == items["id"].uuid
    ensures UpdateTarget(rs, items, fetchFailed) == Some(i)
  {
  }

  /** The largest managed-object number in use, plus one. */
  function NextObjectId(rs: seq<Entity>): (n: nat)
    ensures forall i :: 0 <= i < |rs| ==> rs[i].objectId < n
  {
    if |rs| == 0 then 0
    else
      var rest := NextObjectId(rs[1..]);
      assert forall i :: 1 <= i < |rs| ==> rs[i] == rs[1..][i - 1];
      if rs[0].objectId + 1 > rest then rs[0].objectId + 1 else rest
  }

  /** `DefaultCoreDataStorage.shared`: the view context over the persistent
      store. `records` are the context's objects, `persisted` what the last
      save wrote, `hasChanges` the context's flag. */
  class DefaultCoreDataStorage {
    var records: seq<Entity>
    var persisted: seq<Entity>
    var hasChanges: bool
    var nextObjectId: nat

    ghost predicate Valid()
      reads this
    {
      && (forall i :: 0 <= i < |records| ==> records[i].objectId < nextObjectId)
      && DistinctObjects(records)
      && (!hasChanges ==> persisted == records)
    }

    /** The container's loaded store, holding `stored`. */
    constructor (stored: seq<Entity>)
      requires DistinctObjects(stored)
      ensures Valid()
      ensures records == stored && persisted == stored && !hasChanges
    {
      records := stored;
      persisted := stored;
      hasChanges := false;
      nextObjectId := NextObjectId(stored);
    }

    /** `saveContext`: commits only when the context has changes; with none it
        leaves everything as it was. Commit failures end the process and are
        not modelled. */
    method SaveContext()
      requires Valid()
      modifies this
      ensures Valid() && !hasChanges
      ensures records == old(records) && persisted == records && nextObjectId == old(nextObjectId)
      ensures !old(hasChanges) ==> unchanged(this)
    {
      if hasChanges {
        persisted := records;
        hasChanges := false;
      }
    }

    /** `update(_:items:)` on the object at position `k`, then `saveContext`. */
    method UpdateObject(k: nat, items: Items)
      requires Valid() && k < |records| && Storable(items)
      modifies this
      ensures Valid() && !hasChanges && persisted == records && nextObjectId == old(nextObjectId)
      ensures records == old(records)[k := Merged(old(records)[k], items)]
    {
      var merged, changed := MergeObject(records[k], items);
      if !changed {
        MergedNothing(records[k], items);
      }
      records := records[k := merged];
      hasChanges := hasChanges || changed;
      SaveContext();
    }

    /** `insert(items:)`: one new object holding the merged map, appended;
        every existing record is untouched. */
    method Insert(items: Items)
      requires Valid() && Storable(items) && "id" in items
      modifies this
      ensures Valid() && !hasChanges && persisted == records
      ensures records == old(records) + [NewObject(old(nextObjectId), items)]
    {
      var blank := Entity(nextObjectId, items["id"].uuid, None, None, None, 0);
      records := records + [blank];
      nextObjectId := nextObjectId + 1;
      hasChanges := true;
      UpdateObject(|records| - 1, items);
    }

    /** `fetch(predicate:)` with the default sort: None when the request
        fails, otherwise the matching records, latest date first. */
    method Fetch(filter: Option<Uuid>, fetchFailed: bool) returns (r: Option<seq<Entity>>)
      ensures fetchFailed <==> r.None?
      ensures r.Some? ==> ByDateDescending(r.value) && multiset(r.value) == multiset(Matching(records, filter))
      ensures r.Some? ==> r.value == Fetched(records, filter)
    {
      if fetchFailed {
        r := None;
      } else {
        r := Some(Fetched(records, filter));
      }
    }

    /** `fetch(predicate: NSPredicate(format: "id == %@", id))?.first`, as a
        facade's `delete` asks it: the latest-dated record with the id, or
        None when the request fails or finds nothing. */
    method FetchFirst(id: Uuid, fetchFailed: bool) returns (r: Option<Entity>)
      ensures r == DeleteTarget(records, id, fetchFailed)
    {
      var found := Fetch(Some(id), fetchFailed);
      if found.None? || |found.value| == 0 {
        r := None;
      } else {
        r := Some(found.value[0]);
      }
    }

    /** `delete(_:)`: removes exactly the given object and keeps the order of
        the others. */
    method Delete(e: Entity)
      requires Valid() && e in records
      modifies this
      ensures Valid() && !hasChanges && persisted == records
      ensures var k := IndexOfRecord(old(records), e);
              records == old(records)[..k] + old(records)[k + 1..]
      ensures e !in records
    {
      var k := IndexOfRecord(records, e);
      ghost var before := records;
      records := records[..k] + records[k + 1..];
      assert forall j :: 0 <= j < |records| ==> records[j] == (if j < k then before[j] else before[j + 1]);
      hasChanges := true;
      SaveContext();
    }

    /** `updateProject(items:)`: merges the map into the target record, or
        does nothing when there is none. */
    method UpdateProject(items: Items, fetchFailed: bool)
      requires Valid() && OtherAttributesFit(items)
      modifies this
      ensures Valid()
      ensures records == ProjectUpdated(old(records), items, fetchFailed)
      ensures UpdateTarget(old(records), items, fetchFailed).None? ==> unchanged(this)
      ensures UpdateTarget(old(records), items, fetchFailed).Some? ==>
                var k := UpdateTarget(old(records), items, fetchFailed).value;
                records == old(records)[k := Merged(old(records)[k], items)] && persisted == records
    {
      if "id" in items && items["id"].UuidValue? {
        var found := Fetch(Some(items["id"].uuid), fetchFailed);
        if found.Some? && |found.value| > 0 {
          var k := UpdateTarget(records, items, fetchFailed).value;
          UpdateObject(k, items);
        }
      }
    }

    /** `setup()`: one project per fetched record, in fetch order, with the
        defaults of `Decode`; a failed fetch gives the empty list. */
    method Setup(now: Date, fetchFailed: bool) returns (projects: seq<Project>)
      ensures fetchFailed ==> projects == []
      ensures !fetchFailed ==> |projects| == |records|
      ensures projects == Loaded(records, now, fetchFailed)
    {
      var data := Fetch(None, fetchFailed);
      if data.None? {
        return [];
      }
      projects := [];
      for i := 0 to |data.value|
        invariant |projects| == i
        invariant forall j :: 0 <= j < i ==> projects[j] == Decode(data.value[j], now)
      {
        projects := projects + [Decode(data.value[i], now)];
      }
    }
  }

  /** A project inserted into the store is among what the next `setup`
      loads, whatever else the store holds. */
  lemma {:induction false} InsertedIsLoaded(rs: seq<Entity>, p: Project, objectId: nat, now: Date)
    ensures p in Loaded(rs + [NewObject(objectId, Fields(p))], now, false)
  {
    var e := NewObject(objectId, Fields(p));
    var sorted := SortByDate(rs + [e]);
    assert e in multiset(rs + [e]);
    assert e in multiset(sorted);
    var k :| 0 <= k < |sorted| && sorted[k] == e;
    FieldsRoundTrip(p, objectId, now);
    assert DecodeAll(sorted, now)[k] == p;
  }
}
