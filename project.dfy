/** The Project entity and the searches over a list of projects that the
    repository and the storage facade share. */
module Domain {
  import opened Wrappers

  /** A UUID: 128 bits, compared by value. */
  type Uuid = bv128

  /** Foundation's `Date`, reduced to an abstract, totally ordered instant. */
  type Date = int

  /** `ProjectState`, an `Int`-backed enumeration; its raw values are the
      ordinals 0, 1 and 2 in declaration order. */
  datatype ProjectState = Todo | Doing | Done

  function RawValue(s: ProjectState): (raw: int)
    ensures 0 <= raw <= 2
    ensures raw == 0 <==> s == Todo
    ensures raw == 2 <==> s == Done
  {
    match s
    case Todo => 0
    case Doing => 1
    case Done => 2
  }

  /** `ProjectState(rawValue:)`: the failable initialiser. */
  function StateFromRawValue(raw: int): (r: Option<ProjectState>)
    ensures r.Some? <==> 0 <= raw <= 2
  {
    if raw == 0 then Some(Todo)
    else if raw == 1 then Some(Doing)
    else if raw == 2 then Some(Done)
    else None
  }

  /** Every state survives the trip through its raw value, and every raw value
      that decodes is the raw value of what it decodes to. */
  lemma RawValueRoundTrip(s: ProjectState, raw: int)
    ensures StateFromRawValue(RawValue(s)) == Some(s)
    ensures StateFromRawValue(raw).Some? ==> RawValue(StateFromRawValue(raw).value) == raw
  {
  }

  datatype Project = Project(id: Uuid, title: string, description: string, date: Date, status: ProjectState)

  /** The index of the first project whose id is `id` (`first(where: { $0.id == id })`),
      or None when there is none. Project's `==` is not part of this model; the
      lookups by `firstIndex(where: { $0 == item })` only make sense when it
      compares ids, so they are modelled by this function too. */
  function FirstIndexOf(ps: seq<Project>, id: Uuid): (r: Option<nat>)
    ensures r.None? <==> forall i :: 0 <= i < |ps| ==> ps[i].id != id
    ensures r.Some? ==> r.value < |ps| && ps[r.value].id == id
    ensures r.Some? ==> forall j :: 0 <= j < r.value ==> ps[j].id != id
  {
    if |ps| == 0 then None
    else if ps[0].id == id then Some(0)
    else
      match FirstIndexOf(ps[1..], id)
      case None => None
      case Some(k) => Some(k + 1)
  }

  /** Ids are unique. Nothing in the code enforces it (`create` appends
      without a check), so it is a premise of the lemmas below, not of the
      methods. */
  ghost predicate UniqueIds(ps: seq<Project>) {
    forall i, j :: 0 <= i < j < |ps| ==> ps[i].id != ps[j].id
  }

  /** Appending a project whose id is new keeps ids unique, and a lookup of
      that id then finds the appended element. */
  lemma {:induction false} AppendFresh(ps: seq<Project>, p: Project)
    requires UniqueIds(ps)
    requires FirstIndexOf(ps, p.id).None?
    ensures UniqueIds(ps + [p])
    ensures FirstIndexOf(ps + [p], p.id) == Some(|ps|)
  {
    var qs := ps + [p];
    assert qs[|ps|] == p;
    forall i, j | 0 <= i < j < |qs| ensures qs[i].id != qs[j].id {
      if j == |ps| {
        assert qs[i] == ps[i];
      } else {
        assert qs[i] == ps[i] && qs[j] == ps[j];
      }
    }
    forall j | 0 <= j < |ps| ensures qs[j].id != p.id {
      assert qs[j] == ps[j];
    }
  }

  /** Replacing the element at the first index of `item.id` by `item` keeps
      ids unique, and a later lookup of that id returns the same index. */
  lemma ReplaceKeepsIds(ps: seq<Project>, item: Project)
    requires FirstIndexOf(ps, item.id).Some?
    ensures UniqueIds(ps) ==> UniqueIds(ps[FirstIndexOf(ps, item.id).value := item])
    ensures FirstIndexOf(ps[FirstIndexOf(ps, item.id).value := item], item.id) == FirstIndexOf(ps, item.id)
    ensures |ps[FirstIndexOf(ps, item.id).value := item]| == |ps|
  {
    var k := FirstIndexOf(ps, item.id).value;
    var qs := ps[k := item];
    assert forall j :: 0 <= j < |qs| && j != k ==> qs[j] == ps[j];
    var r := FirstIndexOf(qs, item.id);
    assert qs[k].id == item.id;
    assert r.value <= k;
  }

  /** With unique ids, once the first element carrying `id` is removed no
      element carries it any more; this is why a second delete of the same
      item fails. */
  lemma RemoveUniqueLeavesNone(ps: seq<Project>, id: Uuid)
    requires UniqueIds(ps)
    requires FirstIndexOf(ps, id).Some?
    ensures var k := FirstIndexOf(ps, id).value;
            FirstIndexOf(ps[..k] + ps[k + 1..], id).None? && UniqueIds(ps[..k] + ps[k + 1..])
  {
    var k := FirstIndexOf(ps, id).value;
    var qs := ps[..k] + ps[k + 1..];
    RemovedAt(ps, k, qs);
    assert forall j :: 0 <= j < |qs| ==> qs[j].id != id;
    assert UniqueIds(qs);
  }

  /** Where the elements of `ps` with position `k` removed come from. */
  lemma RemovedAt(ps: seq<Project>, k: nat, qs: seq<Project>)
    requires k < |ps| && qs == ps[..k] + ps[k + 1..]
    ensures |qs| == |ps| - 1
    ensures forall j :: 0 <= j < k ==> qs[j] == ps[j]
    ensures forall j :: k <= j < |qs| ==> qs[j] == ps[j + 1]
  {
  }
}
