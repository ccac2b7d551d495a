/** The CommunityPost schema and its collection. Posts have no edit
    operation: once stored they never change. */
module CommunityPostModel {
  import opened Common
  import opened Text

  datatype CommunityPost = CommunityPost(
    id: Id,
    game: Id,
    user: Id,
    title: string,
    content: string)

  /** The schema's constraints: game and user are required (they always are
      here), the title is required, trimmed and at most 150 characters, the
      content is required and at most 2000 characters. */
  predicate ValidPost(p: CommunityPost) {
    && p.title != [] && Trim(p.title) == p.title && |p.title| <= 150
    && p.content != [] && |p.content| <= 2000
  }

  /** `new CommunityPost({game, user, title, content})` validated: the `trim`
      setter runs on the title first, so a title of whitespace only is
      missing; a required string must not be empty. */
  function NewPost(id: Id, game: Id, user: Id, title: string, content: string): (r: Result<CommunityPost>)
    ensures r.Ok? <==> Trim(title) != [] && |Trim(title)| <= 150 && content != [] && |content| <= 2000
    ensures r.Err? ==> r.error == Validation
    ensures r.Ok? ==> ValidPost(r.value) && r.value == CommunityPost(id, game, user, Trim(title), content)
  {
    var t := Trim(title);
    if t != [] && |t| <= 150 && content != [] && |content| <= 2000 then
      TrimIdempotent(title);
      Ok(CommunityPost(id, game, user, t, content))
    else Err(Validation)
  }

  ghost predicate IdsIncreasing(posts: seq<CommunityPost>, nextId: Id) {
    && (forall k :: 0 <= k < |posts| ==> posts[k].id < nextId)
    && (forall i, j :: 0 <= i < j < |posts| ==> posts[i].id < posts[j].id)
  }

  lemma AppendKeepsValid(posts: seq<CommunityPost>, nextId: Id, p: CommunityPost)
    requires IdsIncreasing(posts, nextId) && forall k :: 0 <= k < |posts| ==> ValidPost(posts[k])
    requires ValidPost(p) && p.id == nextId
    ensures IdsIncreasing(posts + [p], nextId + 1)
    ensures forall k :: 0 <= k < |posts + [p]| ==> ValidPost((posts + [p])[k])
  {
  }

  /** The CommunityPost collection, in insertion (creation) order. */
  class PostCollection {
    var posts: seq<CommunityPost>
    var nextId: Id

    ghost predicate Valid()
      reads this
    {
      IdsIncreasing(posts, nextId) && forall k :: 0 <= k < |posts| ==> ValidPost(posts[k])
    }

    constructor ()
      ensures Valid() && posts == [] && nextId == 0
    {
      posts := [];
      nextId := 0;
    }

    /** Stores a valid post under the next id. */
    method Append(p: CommunityPost)
      requires Valid() && ValidPost(p) && p.id == nextId
      modifies this
      ensures Valid() && posts == old(posts) + [p] && nextId == old(nextId) + 1
    {
      AppendKeepsValid(posts, nextId, p);
      posts := posts + [p];
      nextId := nextId + 1;
    }

    /** `CommunityPost.create({game, user, title, content})`. */
    method Create(game: Id, user: Id, title: string, content: string) returns (r: Result<CommunityPost>)
      requires Valid()
      modifies this
      ensures Valid()
      ensures r == NewPost(old(nextId), game, user, title, content)
      ensures r.Ok? ==> posts == old(posts) + [r.value] && nextId == old(nextId) + 1
      ensures r.Err? ==> posts == old(posts) && nextId == old(nextId)
    {
      r := NewPost(nextId, game, user, title, content);
      if r.Ok? {
        Append(r.value);
      }
    }
  }
}
