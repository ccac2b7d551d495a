/** The User and Notification records and their collections. The User and
    Notification schema files are not part of this model: the fields here are
    the ones the routes read and write, and no schema constraint of theirs is
    modelled. */
module Accounts {
  import opened Common
  import opened Seqs

  /** A user, without the password hash and the role (the role is checked by
      the authorization middleware, which is not part of this model). */
  datatype User = User(
    id: Id,
    username: string,
    email: string,
    avatar: Option<string>,
    bookmarks: seq<Id>,
    notifyNewReleases: bool,
    notifyUpdates: bool)

  datatype Notification = Notification(
    id: Id,
    user: Id,
    title: Option<string>,
    message: Option<string>,
    kind: Option<string>,
    relatedGame: Option<Id>,
    read: bool)

  function UserIndex(users: seq<User>, id: Id): (r: Option<nat>)
    ensures r.Some? ==> r.value < |users| && users[r.value].id == id
    ensures r.None? ==> forall k :: 0 <= k < |users| ==> users[k].id != id
  {
    Find(users, (u: User) => u.id == id)
  }

  ghost predicate DistinctIds(users: seq<User>) {
    forall i, j :: 0 <= i < j < |users| ==> users[i].id != users[j].id
  }

  /** The User collection, in insertion order. Accounts are created by the
      registration route, which is not part of this model. */
  class UserCollection {
    var users: seq<User>

    ghost predicate Valid()
      reads this
    {
      DistinctIds(users)
    }

    constructor (initial: seq<User>)
      requires DistinctIds(initial)
      ensures Valid() && users == initial
    {
      users := initial;
    }
  }

  ghost predicate IdsIncreasing(notifications: seq<Notification>, nextId: Id) {
    && (forall k :: 0 <= k < |notifications| ==> notifications[k].id < nextId)
    && (forall i, j :: 0 <= i < j < |notifications| ==> notifications[i].id < notifications[j].id)
  }

  /** The Notification collection, in insertion (creation) order. */
  class NotificationCollection {
    var notifications: seq<Notification>
    var nextId: Id

    ghost predicate Valid()
      reads this
    {
      IdsIncreasing(notifications, nextId)
    }

    constructor ()
      ensures Valid() && notifications == [] && nextId == 0
    {
      notifications := [];
      nextId := 0;
    }

    /** `Notification.insertMany(batch)`: the batch is stored after the
        existing notifications, under the next fresh ids. */
    method InsertMany(batch: seq<Notification>) returns (inserted: nat)
      requires Valid()
      requires forall k :: 0 <= k < |batch| ==> batch[k].id == nextId + k
      modifies this
      ensures Valid()
      ensures notifications == old(notifications) + batch
      ensures nextId == old(nextId) + |batch|
      ensures inserted == |batch|
    {
      notifications := notifications + batch;
      nextId := nextId + |batch|;
      inserted := |batch|;
    }
  }
}
