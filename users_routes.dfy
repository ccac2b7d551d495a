/** The signed-in user's routes: the bookmark toggle, the profile patch with
    its normalisation and uniqueness checks, the password-change input checks,
    the notification inbox and marking one notification read. */
module UsersRoutes {
  import opened Common
  import opened Text
  import opened Seqs
  import opened Accounts

  // ---------------------------------------------------------------------------
  // Bookmarks

  ghost predicate NoDup(s: seq<Id>) {
    forall i, j :: 0 <= i < j < |s| ==> s[i] != s[j]
  }

  /** `s.indexOf(x)`, with `None` for -1. */
  function IndexOf(s: seq<Id>, x: Id): (r: Option<nat>)
    ensures r.Some? ==> r.value < |s| && s[r.value] == x && x !in s[..r.value]
    ensures r.None? <==> x !in s
  {
    var r := Find(s, (y: Id) => y == x);
    assert r.Some? ==> x !in s[..r.value] by {
      if r.Some? {
        assert forall k :: 0 <= k < r.value ==> s[..r.value][k] == s[k];
      }
    }
    r
  }

  /** The list after the toggle: the first occurrence of `x` spliced out when
      there is one, `x` pushed at the end otherwise. */
  function Toggled(s: seq<Id>, x: Id): (r: seq<Id>)
    ensures |r| == if x in s then |s| - 1 else |s| + 1
    ensures x !in s ==> r == s + [x]
  {
    match IndexOf(s, x)
    case None => s + [x]
    case Some(i) => s[..i] + s[i + 1..]
  }

  /** The test "is not `x`". */
  function Unlike(x: Id): Id -> bool {
    (y: Id) => y != x
  }

  /** The ids other than `x`, in their order. */
  function OtherThan(s: seq<Id>, x: Id): (r: seq<Id>)
    ensures x !in r
    ensures forall k :: 0 <= k < |r| ==> r[k] in s
    ensures forall k :: 0 <= k < |s| && s[k] != x ==> s[k] in r
  {
    var r := Filter(s, Unlike(x));
    assert forall k :: 0 <= k < |r| ==> r[k] != x;
    r
  }

  /** `OtherThan` keeps the order: the ids of a concatenation are those of
      each part, one after the other, and a single id is kept exactly when it
      is not `x`. */
  lemma OtherThanSplits(a: seq<Id>, b: seq<Id>, y: Id, x: Id)
    ensures OtherThan(a + b, x) == OtherThan(a, x) + OtherThan(b, x)
    ensures OtherThan([y], x) == if y != x then [y] else []
  {
    FilterConcat(a, b, Unlike(x));
    FilterAppend([], y, Unlike(x));
    assert [] + [y] == [y];
  }

  /** In a list without duplicates the toggle flips membership. */
  lemma ToggleFlips(s: seq<Id>, x: Id)
    requires NoDup(s)
    ensures x in Toggled(s, x) <==> x !in s
  {
    if x in s {
      var i := IndexOf(s, x).value;
      forall k | i + 1 <= k < |s| ensures s[k] != x {
        assert s[i] == x;
      }
      assert x !in s[i + 1..];
    }
  }

  /** With duplicates the toggle still adds an absent id, but removes only
      the first occurrence of a present one. */
  lemma ToggleRemovesFirstOnly(s: seq<Id>, x: Id)
    ensures x !in s ==> x in Toggled(s, x)
    ensures x in s ==> (x in Toggled(s, x) <==> multiset(s)[x] > 1)
    ensures x in s ==> exists i :: 0 <= i < |s| && s[i] == x && x !in s[..i] && Toggled(s, x) == s[..i] + s[i + 1..]
  {
    if x in s {
      var i := IndexOf(s, x).value;
      assert s == s[..i] + [x] + s[i + 1..];
      assert multiset(s) == multiset(s[..i]) + multiset{x} + multiset(s[i + 1..]);
      assert multiset(Toggled(s, x)) == multiset(s[..i]) + multiset(s[i + 1..]);
      assert multiset(s[..i])[x] == 0;
    }
  }

  /** The toggle keeps every other id, in the same relative order. */
  lemma ToggleKeepsOthers(s: seq<Id>, x: Id)
    ensures OtherThan(Toggled(s, x), x) == OtherThan(s, x)
  {
    var p := Unlike(x);
    match IndexOf(s, x)
    case None =>
      FilterAppend(s, x, p);
    case Some(i) =>
      FilterSkip(s, i, p);
  }

  /** A list without duplicates stays without duplicates: `x` is pushed only
      when it is absent. */
  lemma ToggleKeepsNoDup(s: seq<Id>, x: Id)
    requires NoDup(s)
    ensures NoDup(Toggled(s, x))
  {
    var r := Toggled(s, x);
    match IndexOf(s, x)
    case None =>
    case Some(i) =>
      forall a, b | 0 <= a < b < |r| ensures r[a] != r[b] {
        var a' := if a < i then a else a + 1;
        var b' := if b < i then b else b + 1;
        assert r[a] == s[a'] && r[b] == s[b'];
      }
  }

  /** Toggling an absent id twice restores the list exactly. */
  lemma ToggleTwiceAbsent(s: seq<Id>, x: Id)
    requires x !in s
    ensures Toggled(Toggled(s, x), x) == s
  {
    var t := s + [x];
    var i := IndexOf(t, x).value;
    assert t[..|s|] == s;
    assert i == |s|;
    assert t[..i] + t[i + 1..] == s;
  }

  /** Toggling a present id twice moves it to the end of the list. */
  lemma ToggleTwicePresent(s: seq<Id>, x: Id)
    requires NoDup(s) && x in s
    ensures Toggled(Toggled(s, x), x) == OtherThan(s, x) + [x]
    ensures Toggled(Toggled(s, x), x) == Toggled(s, x) + [x]
  {
    var i := IndexOf(s, x).value;
    var t := Toggled(s, x);
    ToggleFlips(s, x);
    assert t == s[..i] + s[i + 1..];
    var p := Unlike(x);
    forall k | 0 <= k < |t| ensures p(t[k]) {
      var k' := if k < i then k else k + 1;
      assert t[k] == s[k'];
    }
    FilterAllOf(t, p);
    ToggleKeepsOthers(s, x);
  }

  /** Moving one element to the end keeps the set of elements. */
  lemma SplicedThenPushed(s: seq<Id>, i: nat)
    requires i < |s|
    ensures forall y :: y in s[..i] + s[i + 1..] + [s[i]] <==> y in s
  {
    var t := s[..i] + s[i + 1..] + [s[i]];
    assert s == s[..i] + [s[i]] + s[i + 1..];
    assert multiset(t) == multiset(s);
    forall y ensures y in t <==> y in s {
      assert y in t <==> y in multiset(t);
    }
  }

  /** Toggling any id twice restores the set of ids. */
  lemma ToggleTwiceSameSet(s: seq<Id>, x: Id)
    requires NoDup(s)
    ensures forall y :: y in Toggled(Toggled(s, x), x) <==> y in s
  {
    if x in s {
      ToggleTwicePresent(s, x);
      SplicedThenPushed(s, IndexOf(s, x).value);
    } else {
      ToggleTwiceAbsent(s, x);
    }
  }

  /** `POST /users/bookmarks/:gameId`: the signed-in user's bookmark list is
      toggled and saved. A user that no longer exists makes the route fail
      with a server error. The game id is not checked against the games. */
  method ToggleBookmark(users: UserCollection, me: Id, game: Id) returns (r: Result<seq<Id>>)
    requires users.Valid()
    modifies users
    ensures users.Valid()
    ensures UserIndex(old(users.users), me).None? ==> r == Err(Crash) && users.users == old(users.users)
    ensures UserIndex(old(users.users), me).Some? ==>
              var i := UserIndex(old(users.users), me).value;
              var toggled := Toggled(old(users.users)[i].bookmarks, game);
              && r == Ok(toggled)
              && users.users == old(users.users)[i := old(users.users)[i].(bookmarks := toggled)]
  {
    var found := UserIndex(users.users, me);
    if found.None? {
      return Err(Crash);
    }
    var i := found.value;
    var user := users.users[i];
    var bookmarks := user.bookmarks;
    var index := IndexOf(bookmarks, game);
    if index.Some? {
      bookmarks := bookmarks[..index.value] + bookmarks[index.value + 1..];
    } else {
      bookmarks := bookmarks + [game];
    }
    users.users := users.users[i := user.(bookmarks := bookmarks)];
    r := Ok(bookmarks);
  }

  // ---------------------------------------------------------------------------
  // Profile patch

  /** The body of `PUT /users/profile`; `None` is a field the body does not
      have. */
  datatype ProfileRequest = ProfileRequest(
    username: Option<string>,
    email: Option<string>,
    avatar: Option<string>,
    notifyNewReleases: Option<bool>,
    notifyUpdates: Option<bool>)

  /** The `update` object: `None` is a key the object does not have; an
      avatar of `Some(None)` sets the avatar to null. */
  datatype ProfileUpdate = ProfileUpdate(
    username: Option<string>,
    email: Option<string>,
    avatar: Option<Option<string>>,
    notifyNewReleases: Option<bool>,
    notifyUpdates: Option<bool>)

  /** The user after `findByIdAndUpdate(id, update)`: only the keys present
      in `update` are written. */
  function ApplyProfile(u: User, up: ProfileUpdate): (r: User)
    ensures r.id == u.id && r.bookmarks == u.bookmarks
  {
    u.(username := OrKeep(up.username, u.username),
       email := OrKeep(up.email, u.email),
       avatar := OrKeep(up.avatar, u.avatar),
       notifyNewReleases := OrKeep(up.notifyNewReleases, u.notifyNewReleases),
       notifyUpdates := OrKeep(up.notifyUpdates, u.notifyUpdates))
  }

  function OrKeep<T>(o: Option<T>, current: T): T {
    if o.Some? then o.value else current
  }

  /** The update object the route builds from the body, as a value. */
  function Normalised(req: ProfileRequest): ProfileUpdate {
    ProfileUpdate(
      if req.username.Some? then Some(Trim(req.username.value)) else None,
      if req.email.Some? then Some(Trim(Lower(req.email.value))) else None,
      if req.avatar.Some? then Some(if Trim(req.avatar.value) == [] then None else Some(Trim(req.avatar.value))) else None,
      req.notifyNewReleases,
      req.notifyUpdates)
  }

  /** A user other than `me` holds the username. */
  ghost predicate UsernameTaken(users: seq<User>, name: string, me: Id) {
    exists k :: 0 <= k < |users| && users[k].id != me && users[k].username == name
  }

  ghost predicate EmailTaken(users: seq<User>, email: string, me: Id) {
    exists k :: 0 <= k < |users| && users[k].id != me && users[k].email == email
  }

  function UsernameHolder(users: seq<User>, name: string, me: Id): (r: Option<nat>)
    ensures r.Some? <==> UsernameTaken(users, name, me)
  {
    var r := Find(users, (u: User) => u.username == name && u.id != me);
    assert r.Some? ==> users[r.value].id != me && users[r.value].username == name;
    r
  }

  function EmailHolder(users: seq<User>, email: string, me: Id): (r: Option<nat>)
    ensures r.Some? <==> EmailTaken(users, email, me)
  {
    var r := Find(users, (u: User) => u.email == email && u.id != me);
    assert r.Some? ==> users[r.value].id != me && users[r.value].email == email;
    r
  }

  /** What `PUT /users/profile` answers. A username (an email) in the body
      that is not empty is compared, once normalised, with every other
      user's; the username check comes first. A user that no longer exists
      gives a null body. */
  function ProfileOutcome(users: seq<User>, me: Id, req: ProfileRequest): (r: Result<Option<User>>)
    ensures r == Err(BadRequest("Username already taken"))
            <==> Truthy(req.username) && UsernameTaken(users, Trim(req.username.value), me)
    ensures r == Err(BadRequest("Email already in use"))
            <==> !(Truthy(req.username) && UsernameTaken(users, Trim(req.username.value), me))
                 && Truthy(req.email) && EmailTaken(users, Trim(Lower(req.email.value)), me)
    ensures r.Err? ==> r.error.BadRequest?
    ensures r.Err? <==> || (Truthy(req.username) && UsernameTaken(users, Trim(req.username.value), me))
                        || (Truthy(req.email) && EmailTaken(users, Trim(Lower(req.email.value)), me))
    ensures r == Ok(None) <==> r.Ok? && UserIndex(users, me).None?
    ensures r.Ok? && r.value.Some? ==>
              && UserIndex(users, me).Some?
              && r.value.value == ApplyProfile(users[UserIndex(users, me).value], Normalised(req))
  {
    var up := Normalised(req);
    var nameClash := Truthy(req.username) && UsernameHolder(users, up.username.value, me).Some?;
    var mailClash := Truthy(req.email) && EmailHolder(users, up.email.value, me).Some?;
    assert nameClash <==> Truthy(req.username) && UsernameTaken(users, Trim(req.username.value), me);
    assert mailClash <==> Truthy(req.email) && EmailTaken(users, Trim(Lower(req.email.value)), me);
    if nameClash then
      Err(BadRequest("Username already taken"))
    else if mailClash then
      Err(BadRequest("Email already in use"))
    else
      match UserIndex(users, me)
      case None => Ok(None)
      case Some(i) => Ok(Some(ApplyProfile(users[i], up)))
  }

  /** A patch that goes through leaves the user with a username (an email)
      no other user holds, whenever the body named one. Matching one's own
      current value is not a conflict. */
  lemma PatchedProfileUnique(users: seq<User>, me: Id, req: ProfileRequest)
    requires ProfileOutcome(users, me, req).Ok? && ProfileOutcome(users, me, req).value.Some?
    ensures var v := ProfileOutcome(users, me, req).value.value;
            && (Truthy(req.username) ==> !UsernameTaken(users, v.username, me))
            && (Truthy(req.email) ==> !EmailTaken(users, v.email, me))
  {
  }

  /** The fields of the patched profile: what the body omits is kept, the
      username is trimmed, the email lower-cased and trimmed, and an avatar
      of whitespace only becomes null. */
  lemma ProfilePatchFields(u: User, req: ProfileRequest)
    ensures var v := ApplyProfile(u, Normalised(req));
            && v.id == u.id && v.bookmarks == u.bookmarks
            && v.username == (if req.username.Some? then Trim(req.username.value) else u.username)
            && v.email == (if req.email.Some? then Trim(Lower(req.email.value)) else u.email)
            && (req.email.Some? ==> forall k :: 0 <= k < |v.email| ==> !IsUpper(v.email[k]))
            && v.avatar == (if req.avatar.None? then u.avatar
                            else if AllSpace(req.avatar.value) then None
                            else Some(Trim(req.avatar.value)))
            && v.notifyNewReleases == OrKeep(req.notifyNewReleases, u.notifyNewReleases)
            && v.notifyUpdates == OrKeep(req.notifyUpdates, u.notifyUpdates)
  {
    if req.avatar.Some? {
      TrimEmptyIffBlank(req.avatar.value);
    }
    if req.email.Some? {
      var l := Lower(req.email.value);
      var t := Trim(l);
      forall k | 0 <= k < |t| ensures !IsUpper(t[k]) {
        TrimWithin(l, k);
      }
    }
  }

  /** The characters of `Trim(s)` are characters of `s`. */
  lemma TrimWithin(s: string, k: nat)
    requires k < |Trim(s)|
    ensures Trim(s)[k] in s
  {
  }

  /** The update object of `PUT /users/profile`, filled key by key. */
  method BuildUpdate(req: ProfileRequest) returns (update: ProfileUpdate)
    ensures update == Normalised(req)
  {
    update := ProfileUpdate(None, None, None, None, None);
    if req.username.Some? {
      update := update.(username := Some(Trim(req.username.value)));
    }
    if req.email.Some? {
      update := update.(email := Some(Trim(Lower(req.email.value))));
    }
    if req.avatar.Some? {
      var trimmed := Trim(req.avatar.value);
      update := update.(avatar := Some(if trimmed == [] then None else Some(trimmed)));
    }
    if req.notifyNewReleases.Some? {
      update := update.(notifyNewReleases := req.notifyNewReleases);
    }
    if req.notifyUpdates.Some? {
      update := update.(notifyUpdates := req.notifyUpdates);
    }
  }

  /** `PUT /users/profile`: the uniqueness checks run against the other
      users, then the signed-in user's record is updated. */
  method PatchProfile(users: UserCollection, me: Id, req: ProfileRequest) returns (r: Result<Option<User>>)
    requires users.Valid()
    modifies users
    ensures users.Valid()
    ensures r == ProfileOutcome(old(users.users), me, req)
    ensures users.users == if r.Ok? && r.value.Some?
                           then old(users.users)[UserIndex(old(users.users), me).value := r.value.value]
                           else old(users.users)
  {
    var update := BuildUpdate(req);
    if Truthy(req.username) && UsernameHolder(users.users, update.username.value, me).Some? {
      return Err(BadRequest("Username already taken"));
    }
    if Truthy(req.email) && EmailHolder(users.users, update.email.value, me).Some? {
      return Err(BadRequest("Email already in use"));
    }
    var found := UserIndex(users.users, me);
    if found.None? {
      return Ok(None);
    }
    var updated := ApplyProfile(users.users[found.value], update);
    users.users := users.users[found.value := updated];
    r := Ok(Some(updated));
  }

  // ---------------------------------------------------------------------------
  // Password change

  /** What `PUT /users/password` answers. `found` says whether the signed-in
      user still exists and `matches` whether the current password matches
      the stored hash; both are consulted only after the input checks. */
  function PasswordOutcome(current: Option<string>, next: Option<string>, found: bool, matches: bool)
    : (r: Result<string>)
    ensures r == Err(BadRequest("Current password and new password required"))
            <==> !Truthy(current) || !Truthy(next)
    ensures r == Err(BadRequest("New password must be at least 6 characters"))
            <==> Truthy(current) && Truthy(next) && |next.value| < 6
    ensures r == Err(Crash) <==> Truthy(current) && Truthy(next) && |next.value| >= 6 && !found
    ensures r == Err(Unauthorized("Current password is incorrect"))
            <==> Truthy(current) && Truthy(next) && |next.value| >= 6 && found && !matches
    ensures r == Ok("Password updated")
            <==> Truthy(current) && Truthy(next) && |next.value| >= 6 && found && matches
  {
    if !Truthy(current) || !Truthy(next) then Err(BadRequest("Current password and new password required"))
    else if |next.value| < 6 then Err(BadRequest("New password must be at least 6 characters"))
    else if !found then Err(Crash)
    else if !matches then Err(Unauthorized("Current password is incorrect"))
    else Ok("Password updated")
  }

  /** The input checks decide the answer before any credential is looked at:
      when one fails, the stored user and password make no difference. */
  lemma PasswordInputChecksFirst(current: Option<string>, next: Option<string>,
                                 found1: bool, matches1: bool, found2: bool, matches2: bool)
    requires !Truthy(current) || !Truthy(next) || |next.value| < 6
    ensures PasswordOutcome(current, next, found1, matches1) == PasswordOutcome(current, next, found2, matches2)
    ensures PasswordOutcome(current, next, found1, matches1).error.BadRequest?
  {
  }

  // ---------------------------------------------------------------------------
  // Notifications

  function Owned(notifications: seq<Notification>, me: Id): (r: seq<Notification>)
    ensures forall k :: 0 <= k < |r| ==> r[k].user == me && r[k] in notifications
    ensures forall k :: 0 <= k < |notifications| && notifications[k].user == me ==> notifications[k] in r
  {
    Filter(notifications, (n: Notification) => n.user == me)
  }

  /** `GET /users/notifications`: the user's fifty newest notifications,
      newest first. */
  function Inbox(notifications: seq<Notification>, me: Id): (r: seq<Notification>)
    ensures |r| == Min(50, |Owned(notifications, me)|)
    ensures forall k :: 0 <= k < |r| ==> r[k].user == me && r[k] in notifications
    ensures forall k :: 0 <= k < |r| ==> r[k] == Owned(notifications, me)[|Owned(notifications, me)| - 1 - k]
  {
    Latest(Owned(notifications, me), 50)
  }

  /** The caller's notification with that id, if any. */
  function OwnedIndex(notifications: seq<Notification>, id: Id, me: Id): (r: Option<nat>)
    ensures r.Some? ==> r.value < |notifications| && notifications[r.value].id == id && notifications[r.value].user == me
    ensures r.None? <==> forall k :: 0 <= k < |notifications| ==> !(notifications[k].id == id && notifications[k].user == me)
  {
    Find(notifications, (n: Notification) => n.id == id && n.user == me)
  }

  /** The store after `findOneAndUpdate({ _id: id, user: me }, { read: true })`. */
  function MarkedRead(notifications: seq<Notification>, id: Id, me: Id): (r: seq<Notification>)
    ensures |r| == |notifications|
    ensures forall k :: 0 <= k < |notifications| && !(notifications[k].id == id && notifications[k].user == me)
                        ==> r[k] == notifications[k]
    ensures forall k :: 0 <= k < |notifications| && notifications[k].id == id && notifications[k].user == me
                        ==> r[k] == notifications[k].(read := true)
  {
    seq(|notifications|, k requires 0 <= k < |notifications| =>
      if notifications[k].id == id && notifications[k].user == me then notifications[k].(read := true)
      else notifications[k])
  }

  /** Marking read a second time changes nothing more. */
  lemma MarkReadIdempotent(notifications: seq<Notification>, id: Id, me: Id)
    ensures MarkedRead(MarkedRead(notifications, id, me), id, me) == MarkedRead(notifications, id, me)
    ensures OwnedIndex(MarkedRead(notifications, id, me), id, me) == OwnedIndex(notifications, id, me)
  {
    var once := MarkedRead(notifications, id, me);
    FindSameWhere(notifications, once, (n: Notification) => n.id == id && n.user == me);
  }

  /** Another user's notification is never found, whoever asks for its id. */
  lemma MarkReadOwnerOnly(notifications: seq<Notification>, i: nat, me: Id)
    requires forall a, b :: 0 <= a < b < |notifications| ==> notifications[a].id != notifications[b].id
    requires i < |notifications| && notifications[i].user != me
    ensures OwnedIndex(notifications, notifications[i].id, me).None?
    ensures MarkedRead(notifications, notifications[i].id, me) == notifications
  {
  }

  /** `PATCH /users/notifications/:id/read`: sets the flag on the caller's
      notification with that id; any other id answers not found and changes
      nothing. */
  method MarkRead(notes: NotificationCollection, id: Id, me: Id) returns (r: Result<Notification>)
    requires notes.Valid()
    modifies notes
    ensures notes.Valid() && notes.nextId == old(notes.nextId)
    ensures OwnedIndex(old(notes.notifications), id, me).None? ==>
              r == Err(NotFound("Not found")) && notes.notifications == old(notes.notifications)
    ensures OwnedIndex(old(notes.notifications), id, me).Some? ==>
              && r == Ok(old(notes.notifications)[OwnedIndex(old(notes.notifications), id, me).value].(read := true))
              && notes.notifications == MarkedRead(old(notes.notifications), id, me)
  {
    var found := OwnedIndex(notes.notifications, id, me);
    if found.None? {
      return Err(NotFound("Not found"));
    }
    r := Ok(notes.notifications[found.value].(read := true));
    notes.notifications := MarkedRead(notes.notifications, id, me);
  }
}
