/** The Review schema, its unique (game, user) index, and the collection with
    the keyed upsert the review route performs. */
module ReviewModel {
  import opened Common
  import opened Text
  import opened Seqs

  /** A stored review. The rating is a whole number of stars. */
  datatype Review = Review(
    game: Id,
    user: Id,
    rating: int,
    title: Option<string>,
    content: Option<string>)

  /** The schema's field constraints: the rating is required and within 1..5,
      the title is trimmed and at most 100 characters, the content is required
      and at most 2000 characters. */
  predicate ValidReview(r: Review) {
    && 1 <= r.rating <= 5
    && (r.title.Some? ==> Trim(r.title.value) == r.title.value && |r.title.value| <= 100)
    && Truthy(r.content)
    && |r.content.value| <= 2000
  }

  predicate SamePair(a: Review, b: Review) {
    a.game == b.game && a.user == b.user
  }

  /** The unique compound index on (game, user). */
  ghost predicate OnePerPair(reviews: seq<Review>) {
    forall i, j :: 0 <= i < j < |reviews| ==> !SamePair(reviews[i], reviews[j])
  }

  /** The position of the review `user` wrote about `game`, if any. */
  function ReviewIndex(reviews: seq<Review>, game: Id, user: Id): (r: Option<nat>)
    ensures r.Some? ==> r.value < |reviews| && reviews[r.value].game == game && reviews[r.value].user == user
    ensures r.None? ==> forall k :: 0 <= k < |reviews| ==> !(reviews[k].game == game && reviews[k].user == user)
  {
    Find(reviews, (v: Review) => v.game == game && v.user == user)
  }

  /** The reviews of one game, in store order. */
  function ReviewsOf(reviews: seq<Review>, game: Id): (r: seq<Review>)
    ensures forall k :: 0 <= k < |r| ==> r[k].game == game && r[k] in reviews
    ensures forall k :: 0 <= k < |reviews| && reviews[k].game == game ==> reviews[k] in r
  {
    Filter(reviews, (v: Review) => v.game == game)
  }

  /** The store after `findOneAndUpdate({game, user}, {rating, title, content},
      {upsert: true})`: the review for the pair is overwritten in place, or a
      new one is appended when the pair has none. The `trim` setter applies to
      the title; validators do not run on this path. */
  function Upserted(reviews: seq<Review>, game: Id, user: Id, rating: int,
                    title: Option<string>, content: Option<string>): (r: seq<Review>)
    ensures |r| == |reviews| + (if ReviewIndex(reviews, game, user).None? then 1 else 0)
    ensures forall k :: 0 <= k < |reviews| && !(reviews[k].game == game && reviews[k].user == user)
                        ==> r[k] == reviews[k]
    ensures Review(game, user, rating, TrimOpt(title), content) in r
  {
    var written := Review(game, user, rating, TrimOpt(title), content);
    match ReviewIndex(reviews, game, user)
    case None => reviews + [written]
    case Some(i) =>
      assert reviews[i := written][i] == written;
      reviews[i := written]
  }

  /** The upsert keeps the unique index satisfied. */
  lemma UpsertKeepsOnePerPair(reviews: seq<Review>, game: Id, user: Id, rating: int,
                              title: Option<string>, content: Option<string>)
    requires OnePerPair(reviews)
    ensures OnePerPair(Upserted(reviews, game, user, rating, title, content))
  {
  }

  /** After the upsert the pair has exactly the review just written. */
  lemma UpsertStoresOne(reviews: seq<Review>, game: Id, user: Id, rating: int,
                        title: Option<string>, content: Option<string>)
    requires OnePerPair(reviews)
    ensures var r := Upserted(reviews, game, user, rating, title, content);
            && ReviewIndex(r, game, user).Some?
            && r[ReviewIndex(r, game, user).value] == Review(game, user, rating, TrimOpt(title), content)
  {
    var r := Upserted(reviews, game, user, rating, title, content);
    var written := Review(game, user, rating, TrimOpt(title), content);
    UpsertKeepsOnePerPair(reviews, game, user, rating, title, content);
    var k :| 0 <= k < |r| && r[k] == written;
    var i := ReviewIndex(r, game, user).value;
    assert SamePair(r[i], r[k]);
  }

  /** A second submission for the same pair overwrites the first: the store
      is as if only the second had been made. */
  lemma ResubmitOverwrites(reviews: seq<Review>, game: Id, user: Id,
                           rating1: int, title1: Option<string>, content1: Option<string>,
                           rating2: int, title2: Option<string>, content2: Option<string>)
    requires OnePerPair(reviews)
    ensures Upserted(Upserted(reviews, game, user, rating1, title1, content1), game, user, rating2, title2, content2)
            == Upserted(reviews, game, user, rating2, title2, content2)
  {
    var once := Upserted(reviews, game, user, rating1, title1, content1);
    UpsertStoresOne(reviews, game, user, rating1, title1, content1);
    var j := ReviewIndex(once, game, user).value;
    match ReviewIndex(reviews, game, user)
    case None =>
      assert j == |reviews|;
    case Some(i) =>
      assert j == i;
  }

  /** The Review collection, in insertion order. */
  class ReviewCollection {
    var reviews: seq<Review>

    ghost predicate Valid()
      reads this
    {
      OnePerPair(reviews)
    }

    constructor ()
      ensures Valid() && reviews == []
    {
      reviews := [];
    }

    /** `Review.findOneAndUpdate({game, user}, {rating, title, content}, {new: true, upsert: true})`. */
    method FindOneAndUpsert(game: Id, user: Id, rating: int, title: Option<string>, content: Option<string>)
      returns (written: Review)
      requires Valid()
      modifies this
      ensures Valid()
      ensures reviews == Upserted(old(reviews), game, user, rating, title, content)
      ensures written == Review(game, user, rating, TrimOpt(title), content)
    {
      UpsertKeepsOnePerPair(reviews, game, user, rating, title, content);
      reviews := Upserted(reviews, game, user, rating, title, content);
      written := Review(game, user, rating, TrimOpt(title), content);
    }
  }
}
