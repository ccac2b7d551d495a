/** `POST /notifications/broadcast`: an administrator sends one notification
    to every user who opted in to its kind. */
module NotificationsRoutes {
  import opened Common
  import opened Seqs
  import opened Accounts

  /** The preference a broadcast of this type consults: new releases for
      `new_release`, general updates for anything else, a missing type
      included. */
  predicate Selected(u: User, kind: Option<string>) {
    if kind == Some("new_release") then u.notifyNewReleases else u.notifyUpdates
  }

  function Chosen(kind: Option<string>): User -> bool {
    (u: User) => Selected(u, kind)
  }

  /** The users the broadcast goes to, in store order (see `RecipientsSplits`). */
  function Recipients(users: seq<User>, kind: Option<string>): (r: seq<User>)
    ensures forall k :: 0 <= k < |r| ==> Selected(r[k], kind) && r[k] in users
    ensures forall k :: 0 <= k < |users| && Selected(users[k], kind) ==> users[k] in r
  {
    Filter(users, Chosen(kind))
  }

  /** The selection keeps store order: the recipients among a concatenation
      are those of each part, one after the other, and a single user is a
      recipient exactly when selected. */
  lemma RecipientsSplits(a: seq<User>, b: seq<User>, u: User, kind: Option<string>)
    ensures Recipients(a + b, kind) == Recipients(a, kind) + Recipients(b, kind)
    ensures Recipients([u], kind) == if Selected(u, kind) then [u] else []
  {
    FilterConcat(a, b, Chosen(kind));
    FilterAppend([], u, Chosen(kind));
    assert [] + [u] == [u];
  }

  /** `users.map(u => ({ user: u._id, title, message, type, relatedGame }))`,
      under the ids the store hands out from `nextId` on. */
  function FanOut(recipients: seq<User>, nextId: Id, title: Option<string>, message: Option<string>,
                  kind: Option<string>, relatedGame: Option<Id>): (r: seq<Notification>)
    ensures |r| == |recipients|
    ensures forall k :: 0 <= k < |r| ==>
              r[k] == Notification(nextId + k, recipients[k].id, title, message, kind, relatedGame, false)
  {
    seq(|recipients|, k requires 0 <= k < |recipients| =>
      Notification(nextId + k, recipients[k].id, title, message, kind, relatedGame, false))
  }

  /** `POST /notifications/broadcast`: answers with the number created. */
  method Broadcast(users: UserCollection, notes: NotificationCollection, title: Option<string>,
                   message: Option<string>, kind: Option<string>, relatedGame: Option<Id>)
    returns (created: nat)
    requires notes.Valid()
    modifies notes
    ensures notes.Valid()
    ensures var batch := FanOut(Recipients(users.users, kind), old(notes.nextId), title, message, kind, relatedGame);
            notes.notifications == old(notes.notifications) + batch
    ensures created == |Recipients(users.users, kind)|
    ensures notes.nextId == old(notes.nextId) + created
  {
    var selected := Recipients(users.users, kind);
    var batch := FanOut(selected, notes.nextId, title, message, kind, relatedGame);
    created := notes.InsertMany(batch);
  }

  /** With distinct user ids, each selected user gets exactly one of the new
      notifications and an unselected user gets none. */
  lemma OnePerSelectedUser(users: seq<User>, nextId: Id, title: Option<string>, message: Option<string>,
                           kind: Option<string>, relatedGame: Option<Id>)
    requires DistinctIds(users)
    ensures var batch := FanOut(Recipients(users, kind), nextId, title, message, kind, relatedGame);
            && (forall j :: 0 <= j < |users| && Selected(users[j], kind) ==>
                  exists k :: 0 <= k < |batch| && batch[k].user == users[j].id)
            && (forall j, k :: 0 <= j < |users| && 0 <= k < |batch| && !Selected(users[j], kind) ==>
                  batch[k].user != users[j].id)
            && (forall a, b :: 0 <= a < b < |batch| ==> batch[a].user != batch[b].user)
  {
    var selected := Recipients(users, kind);
    var batch := FanOut(selected, nextId, title, message, kind, relatedGame);
    FilterPairwise(users, (u: User) => Selected(u, kind), (a: User, b: User) => a.id != b.id);
    forall j | 0 <= j < |users| && Selected(users[j], kind)
      ensures exists k :: 0 <= k < |batch| && batch[k].user == users[j].id
    {
      var k :| 0 <= k < |selected| && selected[k] == users[j];
      assert batch[k].user == users[j].id;
    }
    forall j, k | 0 <= j < |users| && 0 <= k < |batch| && !Selected(users[j], kind)
      ensures batch[k].user != users[j].id
    {
      var m :| 0 <= m < |users| && users[m] == selected[k];
      assert m != j;
    }
  }

  /** Three users of whom two opted in to new releases: a `new_release`
      broadcast creates two notifications, for those two. */
  lemma BroadcastWalkthrough(u1: User, u2: User, u3: User, nextId: Id, title: Option<string>,
                             message: Option<string>, relatedGame: Option<Id>)
    requires u1.notifyNewReleases && u2.notifyNewReleases && !u3.notifyNewReleases
    ensures var batch := FanOut(Recipients([u1, u2, u3], Some("new_release")), nextId, title, message,
                                Some("new_release"), relatedGame);
            && |batch| == 2
            && batch[0].user == u1.id && batch[1].user == u2.id
  {
    var p := (u: User) => Selected(u, Some("new_release"));
    assert [u1, u2, u3] == [u1, u2] + [u3];
    assert [u1, u2] == [u1] + [u2];
    FilterAppend([u1, u2], u3, p);
    FilterAppend([u1], u2, p);
    FilterAppend([], u1, p);
    assert [] + [u1] == [u1];
  }
}
