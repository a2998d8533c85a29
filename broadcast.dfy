/** RxSwift's `BehaviorSubject<[Project]>` as the repository uses it: one slot
    holding the latest collection, replayed to every new subscriber, and the
    log of every `onNext` it has received. */
module Broadcast {
  import opened Domain

  class ProjectSubject {
    /** The latest value: what a subscriber receives first. */
    var value: seq<Project>
    /** Every collection published with `onNext`, oldest first. */
    ghost var published: seq<seq<Project>>

    /** The slot always holds the last publication, once there has been one. */
    ghost predicate Valid()
      reads this
    {
      published != [] ==> value == published[|published| - 1]
    }

    /** `BehaviorSubject(value:)`: the initial value is not a publication. */
    constructor (initial: seq<Project>)
      ensures Valid()
      ensures value == initial && published == []
    {
      value := initial;
      published := [];
    }

    /** `onNext`: replace the slot and notify every live subscriber. */
    method OnNext(snapshot: seq<Project>)
      modifies this
      ensures Valid()
      ensures value == snapshot
      ensures published == old(published) + [snapshot]
    {
      value := snapshot;
      published := published + [snapshot];
    }

    /** `subscribe`: the first element a new subscriber receives is the latest
        value, which is the last publication once there has been one. */
    method Subscribe() returns (first: seq<Project>)
      requires Valid()
      ensures first == value
      ensures published != [] ==> first == published[|published| - 1]
    {
      first := value;
    }
  }
}
