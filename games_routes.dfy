/** The game routes: the catalogue listing with its filters, the trending and
    upcoming selections, lookup by slug or id, the review and community-post
    listings, community-post creation, and the review upsert with the
    recomputation of the game's rating aggregate. */
module GamesRoutes {
  import opened Common
  import opened Text
  import opened Seqs
  import opened GameModel
  import opened ReviewModel
  import opened CommunityPostModel

  // ---------------------------------------------------------------------------
  // Catalogue listing

  /** The query string of a listing request. `limit` is what `parseInt` made of
      the `limit` parameter, `None` when that is not a number. */
  datatype ListRequest = ListRequest(
    search: Option<string>,
    category: Option<string>,
    platform: Option<string>,
    upcoming: Option<string>,
    limit: Option<int>)

  /** The store query the route builds. */
  datatype GameQuery = GameQuery(
    isUpcoming: Option<bool>,
    search: Option<string>,
    category: Option<string>,
    platform: Option<string>)

  /** Whether game `g` is one the request asks for, read directly off the
      request. The text search is a case-insensitive regular expression over
      name and description; `hit(pattern, text)` stands for it. */
  predicate Admits(req: ListRequest, g: Game, hit: (string, string) -> bool) {
    && (req.upcoming == Some("true") ==> g.isUpcoming)
    && (req.upcoming == Some("false") ==> !g.isUpcoming)
    && (Truthy(req.search) ==> hit(req.search.value, g.name) || hit(req.search.value, g.description))
    && (Truthy(req.category) ==> g.category == req.category.value)
    && (Truthy(req.platform) ==> req.platform.value in g.platforms)
  }

  /** Whether the store matches `g` against the query. */
  predicate QueryMatches(q: GameQuery, g: Game, hit: (string, string) -> bool) {
    && (q.isUpcoming.Some? ==> g.isUpcoming == q.isUpcoming.value)
    && (q.search.Some? ==> hit(q.search.value, g.name) || hit(q.search.value, g.description))
    && (q.category.Some? ==> g.category == q.category.value)
    && (q.platform.Some? ==> q.platform.value in g.platforms)
  }

  /** `parseInt(req.query.limit) || 50`; the store reads a negative limit as
      its absolute value. */
  function EffectiveLimit(parsed: Option<int>): (n: nat)
    ensures n > 0
    ensures parsed.None? || parsed == Some(0) ==> n == 50
    ensures parsed.Some? && parsed.value != 0 ==> n == if parsed.value < 0 then -parsed.value else parsed.value
  {
    if parsed.None? || parsed.value == 0 then 50
    else if parsed.value < 0 then -parsed.value
    else parsed.value
  }

  function Admitted(games: seq<Game>, req: ListRequest, hit: (string, string) -> bool): seq<Game> {
    Filter(games, (g: Game) => Admits(req, g, hit))
  }

  /** `GET /games`, with the default sort key (newest first). */
  method ListGames(store: GameCollection, req: ListRequest, hit: (string, string) -> bool)
    returns (result: seq<Game>)
    ensures result == Latest(Admitted(store.games, req, hit), EffectiveLimit(req.limit))
    ensures |result| <= EffectiveLimit(req.limit)
    ensures forall k :: 0 <= k < |result| ==> Admits(req, result[k], hit) && result[k] in store.games
  {
    var query := GameQuery(None, None, None, None);
    if req.upcoming == Some("true") {
      query := query.(isUpcoming := Some(true));
    } else if req.upcoming == Some("false") {
      query := query.(isUpcoming := Some(false));
    }
    if Truthy(req.search) {
      query := query.(search := req.search);
    }
    if Truthy(req.category) {
      query := query.(category := req.category);
    }
    if Truthy(req.platform) {
      query := query.(platform := req.platform);
    }
    var matching := Filter(store.games, (g: Game) => QueryMatches(query, g, hit));
    FilterSame(store.games, (g: Game) => QueryMatches(query, g, hit), (g: Game) => Admits(req, g, hit));
    result := Latest(matching, EffectiveLimit(req.limit));
  }

  // ---------------------------------------------------------------------------
  // Trending and upcoming selections

  predicate TrendingEligible(g: Game) {
    g.trending && !g.isUpcoming
  }

  function Eligible(games: seq<Game>): seq<Game> {
    Filter(games, TrendingEligible)
  }

  /** The sort key of `sort({ 'rating.average': -1 })`: ascending in this
      key is descending in the average. */
  function ByAverageDescending(g: Game): int {
    -g.rating.averageTenths
  }

  /** `GET /games/trending`: trending, released games, highest average first,
      at most ten. */
  function Trending(games: seq<Game>): (r: seq<Game>)
    ensures |r| == Min(10, |Eligible(games)|)
  {
    var sorted := SortBy(Eligible(games), ByAverageDescending);
    sorted[..Min(10, |sorted|)]
  }

  /** The trending list is ordered by average, highest first. */
  lemma TrendingOrdered(games: seq<Game>)
    ensures var r := Trending(games);
            forall i, j :: 0 <= i < j < |r| ==> r[i].rating.averageTenths >= r[j].rating.averageTenths
  {
    var sorted := SortBy(Eligible(games), ByAverageDescending);
    SortedPrefix(sorted, Min(10, |sorted|), ByAverageDescending);
  }

  /** The trending list holds only trending released games, each at most as
      often as it is stored. */
  lemma TrendingFromEligible(games: seq<Game>)
    ensures var r := Trending(games);
            && multiset(r) <= multiset(Eligible(games))
            && forall k :: 0 <= k < |r| ==> r[k].trending && !r[k].isUpcoming && r[k] in games
  {
    var eligible := Eligible(games);
    var sorted := SortBy(eligible, ByAverageDescending);
    var n := Min(10, |sorted|);
    SortedPrefix(sorted, n, ByAverageDescending);
    forall k | 0 <= k < n ensures sorted[..n][k] in eligible {
      assert sorted[k] in multiset(sorted);
    }
  }

  /** No eligible game left out of the trending list has a higher average
      than any game in it. */
  lemma TrendingKeepsBest(games: seq<Game>, g: Game)
    requires g in Eligible(games) && g !in Trending(games)
    ensures forall k :: 0 <= k < |Trending(games)| ==> g.rating.averageTenths <= Trending(games)[k].rating.averageTenths
  {
    var sorted := SortBy(Eligible(games), ByAverageDescending);
    assert g in multiset(sorted);
    SortedPrefixBelow(sorted, Min(10, |sorted|), ByAverageDescending, g);
  }

  /** `GET /games/upcoming`: every upcoming game, earliest release first. */
  function Upcoming(games: seq<Game>): (r: seq<Game>)
    ensures multiset(r) == multiset(Filter(games, (g: Game) => g.isUpcoming))
    ensures forall k :: 0 <= k < |r| ==> r[k].isUpcoming && r[k] in games
    ensures forall i, j :: 0 <= i < j < |r| ==> r[i].releaseDate <= r[j].releaseDate
  {
    var upcoming := Filter(games, (g: Game) => g.isUpcoming);
    var sorted := SortBy(upcoming, (g: Game) => g.releaseDate);
    forall k | 0 <= k < |sorted| ensures sorted[k] in upcoming {
      assert sorted[k] in multiset(sorted);
    }
    sorted
  }

  // ---------------------------------------------------------------------------
  // Lookup and listings of one game's reviews and posts

  /** `GET /games/:identifier`. `asId` is the identifier read as an object id
      when it is one (24 characters that parse as an id), `None` otherwise.
      The first game in store order that matches is returned. */
  function GameByIdentifier(games: seq<Game>, identifier: string, asId: Option<Id>): (r: Result<Game>)
    ensures r.Ok? ==> && r.value in games
                      && (r.value.slug == Some(identifier) || (asId.Some? && r.value.id == asId.value))
    ensures r.Err? ==> r.error == NotFound("Game not found")
    ensures r.Err? <==> forall k :: 0 <= k < |games| ==>
              games[k].slug != Some(identifier) && (asId.None? || games[k].id != asId.value)
  {
    var found := Find(games, (g: Game) => g.slug == Some(identifier) || (asId.Some? && g.id == asId.value));
    if found.Some? then Ok(games[found.value]) else Err(NotFound("Game not found"))
  }

  /** `GET /games/:id/reviews`: the game's reviews, newest first. */
  function GameReviews(reviews: seq<Review>, game: Id): (r: seq<Review>)
    ensures |r| == |ReviewsOf(reviews, game)|
    ensures forall k :: 0 <= k < |r| ==> r[k].game == game && r[k] in reviews
    ensures multiset(r) == multiset(ReviewsOf(reviews, game))
    ensures forall k :: 0 <= k < |r| ==> r[k] == ReviewsOf(reviews, game)[|ReviewsOf(reviews, game)| - 1 - k]
  {
    ReversePermutes(ReviewsOf(reviews, game));
    Reverse(ReviewsOf(reviews, game))
  }

  function PostsOf(posts: seq<CommunityPost>, game: Id): (r: seq<CommunityPost>)
    ensures forall k :: 0 <= k < |r| ==> r[k].game == game && r[k] in posts
    ensures forall k :: 0 <= k < |posts| && posts[k].game == game ==> posts[k] in r
  {
    Filter(posts, (p: CommunityPost) => p.game == game)
  }

  /** `GET /games/:id/community`: the game's fifty newest posts, newest first. */
  function GamePosts(posts: seq<CommunityPost>, game: Id): (r: seq<CommunityPost>)
    ensures |r| == Min(50, |PostsOf(posts, game)|)
    ensures forall k :: 0 <= k < |r| ==> r[k].game == game && r[k] in posts
    ensures forall k :: 0 <= k < |r| ==> r[k] == PostsOf(posts, game)[|PostsOf(posts, game)| - 1 - k]
  {
    Latest(PostsOf(posts, game), 50)
  }

  // ---------------------------------------------------------------------------
  // Community-post creation

  /** What `POST /games/:id/community` answers. */
  function PostOutcome(id: Id, game: Id, user: Id, title: Option<string>, content: Option<string>)
    : (r: Result<CommunityPost>)
    ensures !Truthy(title) || !Truthy(content) ==> r == Err(BadRequest("Title and content are required"))
    ensures r.Ok? ==> ValidPost(r.value) && r.value.id == id && r.value.game == game && r.value.user == user
    ensures r.Ok? ==> r.value.title == Trim(title.value) && r.value.content == Trim(content.value)
    ensures r.Err? && Truthy(title) && Truthy(content) ==> r.error == Validation
    ensures Truthy(title) && Truthy(content) ==> r == NewPost(id, game, user, Trim(title.value), Trim(content.value))
    ensures r.Ok? <==> && Truthy(title) && Truthy(content)
                       && Trim(title.value) != [] && |Trim(title.value)| <= 150
                       && Trim(content.value) != [] && |Trim(content.value)| <= 2000
  {
    if !Truthy(title) || !Truthy(content) then Err(BadRequest("Title and content are required"))
    else
      TrimIdempotent(title.value);
      NewPost(id, game, user, Trim(title.value), Trim(content.value))
  }

  /** A title of whitespace only gets past the route's presence check but is
      empty once trimmed, so the required constraint rejects it. */
  lemma BlankTitleRejectedByStore(id: Id, game: Id, user: Id, title: string, content: Option<string>)
    requires title != [] && AllSpace(title) && Truthy(content)
    ensures PostOutcome(id, game, user, Some(title), content) == Err(Validation)
  {
    TrimEmptyIffBlank(title);
  }

  /** `POST /games/:id/community`. The game id is not checked against the
      stored games. */
  method CreateCommunityPost(posts: PostCollection, game: Id, user: Id,
                             title: Option<string>, content: Option<string>)
    returns (r: Result<CommunityPost>)
    requires posts.Valid()
    modifies posts
    ensures posts.Valid()
    ensures r == PostOutcome(old(posts.nextId), game, user, title, content)
    ensures posts.posts == if r.Ok? then old(posts.posts) + [r.value] else old(posts.posts)
  {
    if !Truthy(title) || !Truthy(content) {
      return Err(BadRequest("Title and content are required"));
    }
    TrimIdempotent(title.value);
    r := posts.Create(game, user, Trim(title.value), Trim(content.value));
  }

  // ---------------------------------------------------------------------------
  // Rating aggregate

  /** The sum of the ratings (`reviews.reduce((a, r) => a + r.rating, 0)`). */
  function Sum(reviews: seq<Review>): int
    decreases |reviews|
  {
    if reviews == [] then 0 else Sum(reviews[..|reviews| - 1]) + reviews[|reviews| - 1].rating
  }

  lemma {:induction false} SumConcat(a: seq<Review>, b: seq<Review>)
    ensures Sum(a + b) == Sum(a) + Sum(b)
    decreases |b|
  {
    if b == [] {
      assert a + b == a;
    } else {
      assert (a + b)[..|a + b| - 1] == a + b[..|b| - 1];
      assert (a + b)[|a + b| - 1] == b[|b| - 1];
      SumConcat(a, b[..|b| - 1]);
    }
  }

  /** `Math.round(sum / count * 10)` on the exact quotient: the whole number
      of tenths nearest to the mean, halves rounded up. */
  function AverageTenths(sum: int, count: nat): (r: int)
    requires count > 0
    ensures 2 * count * r <= 20 * sum + count < 2 * count * (r + 1)
  {
    (20 * sum + count) / (2 * count)
  }

  /** The `{average, count}` the route writes for `game`, computed from every
      stored review of that game. */
  function Aggregate(reviews: seq<Review>, game: Id): (r: Rating)
    ensures r.count == |ReviewsOf(reviews, game)|
    ensures r.count == 0 ==> r.averageTenths == 0
    ensures r.count > 0 ==> 2 * r.count * r.averageTenths <= 20 * Sum(ReviewsOf(reviews, game)) + r.count
                                                          < 2 * r.count * (r.averageTenths + 1)
  {
    var mine := ReviewsOf(reviews, game);
    if |mine| > 0 then Rating(AverageTenths(Sum(mine), |mine|), |mine|) else Rating(0, 0)
  }

  /** Every stored game carries the aggregate of its own reviews. */
  ghost predicate RatingsInSync(games: seq<Game>, reviews: seq<Review>) {
    forall k :: 0 <= k < |games| ==> games[k].rating == Aggregate(reviews, games[k].id)
  }

  /** An upsert for one game leaves the reviews of every other game as they were. */
  lemma UpsertLeavesOtherGames(reviews: seq<Review>, game: Id, user: Id, rating: int,
                               title: Option<string>, content: Option<string>, other: Id)
    requires other != game
    ensures ReviewsOf(Upserted(reviews, game, user, rating, title, content), other) == ReviewsOf(reviews, other)
  {
    var p := (v: Review) => v.game == other;
    var written := Review(game, user, rating, TrimOpt(title), content);
    match ReviewIndex(reviews, game, user)
    case None =>
      FilterAppend(reviews, written, p);
    case Some(i) =>
      FilterReplace(reviews, i, written, p);
  }

  /** The game's review count grows by one on a first submission and stays
      the same on a resubmission. */
  lemma UpsertCount(reviews: seq<Review>, game: Id, user: Id, rating: int,
                    title: Option<string>, content: Option<string>)
    ensures |ReviewsOf(Upserted(reviews, game, user, rating, title, content), game)|
            == |ReviewsOf(reviews, game)| + (if ReviewIndex(reviews, game, user).None? then 1 else 0)
  {
    var p := (v: Review) => v.game == game;
    var written := Review(game, user, rating, TrimOpt(title), content);
    match ReviewIndex(reviews, game, user)
    case None =>
      FilterAppend(reviews, written, p);
    case Some(i) =>
      FilterReplace(reviews, i, written, p);
  }

  /** The game's rating sum after a submission: the new rating is added, and
      on a resubmission the replaced rating is taken away. */
  lemma UpsertSum(reviews: seq<Review>, game: Id, user: Id, rating: int,
                  title: Option<string>, content: Option<string>)
    ensures Sum(ReviewsOf(Upserted(reviews, game, user, rating, title, content), game))
            == Sum(ReviewsOf(reviews, game)) + rating
               - (match ReviewIndex(reviews, game, user) case None => 0 case Some(i) => reviews[i].rating)
  {
    var p := (v: Review) => v.game == game;
    var written := Review(game, user, rating, TrimOpt(title), content);
    match ReviewIndex(reviews, game, user)
    case None =>
      FilterAppend(reviews, written, p);
      SumConcat(ReviewsOf(reviews, game), [written]);
      assert Sum([written]) == Sum([]) + rating by {
        assert [written][..0] == [];
      }
    case Some(i) =>
      var a, b := Filter(reviews[..i], p), Filter(reviews[i + 1..], p);
      FilterReplace(reviews, i, written, p);
      FilterAround(reviews, i, p);
      SumConcat(a + [written], b);
      SumConcat(a, [written]);
      SumConcat(a + [reviews[i]], b);
      SumConcat(a, [reviews[i]]);
      assert [written][..0] == [] && [reviews[i]][..0] == [];
  }

  /** The bounds of the stored average: with at least one review and every
      rating of the game between `lo` and `hi`, the average lies between them. */
  lemma {:induction false} SumWithin(reviews: seq<Review>, lo: int, hi: int)
    requires forall k :: 0 <= k < |reviews| ==> lo <= reviews[k].rating <= hi
    ensures |reviews| * lo <= Sum(reviews) <= |reviews| * hi
    decreases |reviews|
  {
    if reviews != [] {
      SumWithin(reviews[..|reviews| - 1], lo, hi);
    }
  }

  /** The rounded mean of `c` values between `lo` and `hi`, in tenths, lies
      between `10 * lo` and `10 * hi`. */
  lemma RoundedMeanWithin(s: int, c: int, r: int, lo: int, hi: int)
    requires c > 0
    requires c * lo <= s <= c * hi
    requires 2 * c * r <= 20 * s + c < 2 * c * (r + 1)
    ensures 10 * lo <= r <= 10 * hi
  {
    var d := 2 * c;
    assert d * (r + 1) == d * r + d;
    assert d * (10 * lo) == 20 * (c * lo);
    assert d * (10 * hi + 1) == 20 * (c * hi) + d;
    MulCancel(d, 10 * lo, r + 1);
    MulCancel(d, r, 10 * hi + 1);
  }

  lemma MulCancel(d: int, a: int, b: int)
    requires d > 0 && d * a < d * b
    ensures a < b
  {
  }

  /** With every rating of the game between `lo` and `hi`, its stored
      average lies between them. */
  lemma AverageWithin(reviews: seq<Review>, game: Id, lo: int, hi: int)
    requires forall k :: 0 <= k < |reviews| && reviews[k].game == game ==> lo <= reviews[k].rating <= hi
    requires Aggregate(reviews, game).count > 0
    ensures 10 * lo <= Aggregate(reviews, game).averageTenths <= 10 * hi
  {
    var mine := ReviewsOf(reviews, game);
    forall k | 0 <= k < |mine| ensures lo <= mine[k].rating <= hi {
      var m :| 0 <= m < |reviews| && reviews[m] == mine[k];
    }
    SumWithin(mine, lo, hi);
    RoundedMeanWithin(Sum(mine), |mine|, Aggregate(reviews, game).averageTenths, lo, hi);
  }

  /** For ratings on the schema's one-to-five scale the average lies
      between 1.0 and 5.0. The upsert does not run the schema's validators,
      so the scale is a precondition here rather than a store invariant. */
  lemma AverageOnScale(reviews: seq<Review>, game: Id)
    requires forall k :: 0 <= k < |reviews| ==> 1 <= reviews[k].rating <= 5
    requires Aggregate(reviews, game).count > 0
    ensures 10 <= Aggregate(reviews, game).averageTenths <= 50
  {
    AverageWithin(reviews, game, 1, 5);
  }

  /** A submission re-synchronises the reviewed game and leaves every other
      game in sync: the aggregate of every game is its reviews' aggregate
      afterwards if it was before. */
  lemma SubmitKeepsRatingsInSync(games: seq<Game>, reviews: seq<Review>, game: Id, user: Id,
                                 rating: int, title: Option<string>, content: Option<string>)
    requires RatingsInSync(games, reviews)
    ensures var after := Upserted(reviews, game, user, rating, title, content);
            var agg := Aggregate(after, game);
            RatingsInSync(Updated(games, game, RatingUpdate(agg.averageTenths, agg.count)), after)
  {
    var after := Upserted(reviews, game, user, rating, title, content);
    var agg := Aggregate(after, game);
    var gs := Updated(games, game, RatingUpdate(agg.averageTenths, agg.count));
    forall k | 0 <= k < |gs| ensures gs[k].rating == Aggregate(after, gs[k].id) {
      if games[k].id == game {
        RatingUpdateOnlyRating(games[k], agg.averageTenths, agg.count);
      } else {
        UpsertLeavesOtherGames(reviews, game, user, rating, title, content, games[k].id);
      }
    }
  }

  /** A rating update keeps the game's slug, which no other game holds. */
  lemma RatingUpdateKeepsSlugFree(games: seq<Game>, id: Id, averageTenths: int, count: int)
    requires SlugsUnique(games)
    requires forall i, j :: 0 <= i < j < |games| ==> games[i].id < games[j].id
    requires GameIndex(games, id).Some?
    ensures UpdateOutcome(games, id, RatingUpdate(averageTenths, count)).Ok?
  {
    var i := GameIndex(games, id).value;
    RatingUpdateOnlyRating(games[i], averageTenths, count);
    forall k | 0 <= k < |games| && games[k].id != id ensures games[k].slug != games[i].slug {
      assert k != i;
    }
  }

  /** `POST /games/:id/reviews`: upsert the caller's review, then write the
      game's aggregate recomputed from all of its reviews. When no game has
      that id the store's update finds nothing; the route does not check this
      and answers with the review all the same. */
  method SubmitReview(games: GameCollection, reviews: ReviewCollection, game: Id, user: Id,
                      rating: int, title: Option<string>, content: Option<string>)
    returns (r: Result<Review>)
    requires games.Valid() && reviews.Valid()
    modifies games, reviews
    ensures games.Valid() && reviews.Valid()
    ensures reviews.reviews == Upserted(old(reviews.reviews), game, user, rating, title, content)
    ensures var agg := Aggregate(reviews.reviews, game);
            games.games == Updated(old(games.games), game, RatingUpdate(agg.averageTenths, agg.count))
    ensures games.nextId == old(games.nextId)
    ensures r == Ok(Review(game, user, rating, TrimOpt(title), content))
    ensures RatingsInSync(old(games.games), old(reviews.reviews)) ==> RatingsInSync(games.games, reviews.reviews)
  {
    ghost var before := games.games;
    var written := reviews.FindOneAndUpsert(game, user, rating, title, content);
    var agg := Aggregate(reviews.reviews, game);
    if GameIndex(games.games, game).Some? {
      RatingUpdateKeepsSlugFree(games.games, game, agg.averageTenths, agg.count);
    }
    var updated := games.FindByIdAndUpdate(game, RatingUpdate(agg.averageTenths, agg.count));
    if GameIndex(before, game).None? {
      assert Updated(before, game, RatingUpdate(agg.averageTenths, agg.count)) == before;
    }
    if RatingsInSync(before, old(reviews.reviews)) {
      SubmitKeepsRatingsInSync(before, old(reviews.reviews), game, user, rating, title, content);
    }
    r := Ok(written);
  }

  /** A's first review of 4 stars: the aggregate is 4.0 over one review. */
  lemma FirstSubmission(g: Id, a: Id, c1: Option<string>)
    ensures Upserted([], g, a, 4, None, c1) == [Review(g, a, 4, None, c1)]
    ensures Aggregate([Review(g, a, 4, None, c1)], g) == Rating(40, 1)
  {
    OneGameAggregate([Review(g, a, 4, None, c1)], g);
    assert Sum([Review(g, a, 4, None, c1)]) == 4 by {
      assert [Review(g, a, 4, None, c1)][..0] == [];
    }
  }

  /** B then rates 2: the aggregate is 3.0 over two reviews. */
  lemma SecondSubmission(g: Id, a: Id, b: Id, c1: Option<string>, c2: Option<string>)
    requires a != b
    ensures Upserted([Review(g, a, 4, None, c1)], g, b, 2, None, c2)
            == [Review(g, a, 4, None, c1), Review(g, b, 2, None, c2)]
    ensures Aggregate([Review(g, a, 4, None, c1), Review(g, b, 2, None, c2)], g) == Rating(30, 2)
  {
    var s := [Review(g, a, 4, None, c1), Review(g, b, 2, None, c2)];
    assert ReviewIndex([Review(g, a, 4, None, c1)], g, b).None?;
    OneGameAggregate(s, g);
    assert Sum(s) == 6 by {
      assert s[..1] == [s[0]] && [s[0]][..0] == [];
      assert Sum([s[0]]) == 4;
    }
  }

  /** A resubmits with 5: A's review is replaced and the aggregate is 3.5
      over the same two reviews. */
  lemma Resubmission(g: Id, a: Id, b: Id, c1: Option<string>, c2: Option<string>, c3: Option<string>)
    requires a != b
    ensures Upserted([Review(g, a, 4, None, c1), Review(g, b, 2, None, c2)], g, a, 5, None, c3)
            == [Review(g, a, 5, None, c3), Review(g, b, 2, None, c2)]
    ensures Aggregate([Review(g, a, 5, None, c3), Review(g, b, 2, None, c2)], g) == Rating(35, 2)
  {
    var s := [Review(g, a, 5, None, c3), Review(g, b, 2, None, c2)];
    assert ReviewIndex([Review(g, a, 4, None, c1), Review(g, b, 2, None, c2)], g, a) == Some(0);
    OneGameAggregate(s, g);
    assert Sum(s) == 7 by {
      assert s[..1] == [s[0]] && [s[0]][..0] == [];
      assert Sum([s[0]]) == 5;
    }
  }

  /** The sequence of submissions: A rates 4, B rates 2, then A changes to 5.
      The aggregate goes 4.0 (1), 3.0 (2), 3.5 (2). */
  lemma RatingWalkthrough(g: Id, a: Id, b: Id, c1: Option<string>, c2: Option<string>, c3: Option<string>)
    requires a != b
    ensures var s1 := Upserted([], g, a, 4, None, c1);
            var s2 := Upserted(s1, g, b, 2, None, c2);
            var s3 := Upserted(s2, g, a, 5, None, c3);
            && Aggregate(s1, g) == Rating(40, 1)
            && Aggregate(s2, g) == Rating(30, 2)
            && Aggregate(s3, g) == Rating(35, 2)
  {
    FirstSubmission(g, a, c1);
    SecondSubmission(g, a, b, c1, c2);
    Resubmission(g, a, b, c1, c2, c3);
  }

  /** When every stored review is about `game`, its aggregate is taken over
      all of them. */
  lemma OneGameAggregate(reviews: seq<Review>, game: Id)
    requires forall k :: 0 <= k < |reviews| ==> reviews[k].game == game
    ensures ReviewsOf(reviews, game) == reviews
  {
    FilterAllOf(reviews, (v: Review) => v.game == game);
  }
}
