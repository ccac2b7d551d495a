/** The Game schema: its fields, enums, defaults and constraints, the slug
    pre-save hook, and the collection of stored games with the store
    operations the routes call (`create`, `findByIdAndUpdate`,
    `findByIdAndDelete`). */
module GameModel {
  import opened Common
  import opened Text
  import opened Seqs
  import opened Slug

  const Categories: seq<string> :=
    ["Action", "Adventure", "RPG", "Sports", "Racing", "Shooter", "Strategy",
     "Simulation", "Horror", "Indie", "Other"]

  const Platforms: seq<string> := ["PC", "PlayStation", "Xbox", "Nintendo Switch", "Mobile"]

  /** The rating aggregate. The average is kept in tenths of a star: the route
      stores a number rounded to one decimal, so 3.5 is kept as 35. */
  datatype Rating = Rating(averageTenths: int, count: int)

  /** A stored game. Presentation-only fields (images, trailers, developer,
      publisher, recent update text) take part in no rule and are omitted;
      the release date is a day number. */
  datatype Game = Game(
    id: Id,
    name: string,
    slug: Option<string>,
    description: string,
    shortDescription: Option<string>,
    category: string,
    platforms: seq<string>,
    releaseDate: int,
    isUpcoming: bool,
    rating: Rating,
    trending: bool,
    featured: bool)

  /** The schema's constraints, as a saved document satisfies them. */
  predicate ValidGame(g: Game) {
    && g.name != [] && Trim(g.name) == g.name
    && (g.slug.Some? ==> Trim(g.slug.value) == g.slug.value)
    && g.description != []
    && (g.shortDescription.Some? ==> |g.shortDescription.value| <= 200)
    && g.category in Categories
    && (forall k :: 0 <= k < |g.platforms| ==> g.platforms[k] in Platforms)
  }

  /** The body of a create request; `None` is a field the body leaves out. */
  datatype GameInput = GameInput(
    name: Option<string>,
    slug: Option<string>,
    description: Option<string>,
    shortDescription: Option<string>,
    category: Option<string>,
    platforms: seq<string>,
    releaseDate: Option<int>,
    isUpcoming: Option<bool>,
    ratingAverage: Option<int>,
    ratingCount: Option<int>,
    trending: Option<bool>,
    featured: Option<bool>)

  function OrElse<T>(o: Option<T>, default: T): T {
    if o.Some? then o.value else default
  }

  /** Validation of a new document, after the `trim` setters ran: the required
      fields, the `shortDescription` bound and the two enums. */
  predicate InputValid(input: GameInput) {
    && Truthy(TrimOpt(input.name))
    && Truthy(input.description)
    && (input.shortDescription.Some? ==> |input.shortDescription.value| <= 200)
    && input.category.Some? && input.category.value in Categories
    && (forall k :: 0 <= k < |input.platforms| ==> input.platforms[k] in Platforms)
    && input.releaseDate.Some?
  }

  /** `new Game(input)`, validated, then passed through the pre-save hook. On a
      new document every given field counts as modified, and `name` is
      required, so the hook sees a modified name. */
  function NewGame(id: Id, input: GameInput): (r: Result<Game>)
    ensures r.Err? <==> !InputValid(input)
    ensures r.Err? ==> r.error == Validation
    ensures r.Ok? ==> ValidGame(r.value) && r.value.id == id
    ensures r.Ok? ==> r.value.name == Trim(input.name.value)
    ensures r.Ok? ==> r.value.slug == SlugHook(TrimOpt(input.slug), r.value.name, true)
    ensures r.Ok? && input.ratingAverage.None? ==> r.value.rating.averageTenths == 0
    ensures r.Ok? && input.ratingCount.None? ==> r.value.rating.count == 0
    ensures r.Ok? ==> r.value.isUpcoming == OrElse(input.isUpcoming, false)
    ensures r.Ok? ==> r.value.trending == OrElse(input.trending, false)
    ensures r.Ok? ==> r.value.featured == OrElse(input.featured, false)
    ensures r.Ok? ==> && r.value.description == input.description.value
                      && r.value.shortDescription == input.shortDescription
                      && r.value.category == input.category.value
                      && r.value.platforms == input.platforms
                      && r.value.releaseDate == input.releaseDate.value
                      && r.value.rating == Rating(OrElse(input.ratingAverage, 0), OrElse(input.ratingCount, 0))
  {
    if !InputValid(input) then Err(Validation)
    else
      var name := Trim(input.name.value);
      TrimIdempotent(input.name.value);
      var slug := SlugHook(TrimOpt(input.slug), name, true);
      HookedSlugTrimmed(input.slug, name);
      Ok(Game(id, name, slug, input.description.value, input.shortDescription,
              input.category.value, input.platforms, input.releaseDate.value,
              OrElse(input.isUpcoming, false),
              Rating(OrElse(input.ratingAverage, 0), OrElse(input.ratingCount, 0)),
              OrElse(input.trending, false), OrElse(input.featured, false)))
  }

  /** The slug a new document leaves the hook with has no whitespace at its ends. */
  lemma HookedSlugTrimmed(slug: Option<string>, name: string)
    ensures SlugHook(TrimOpt(slug), name, true).Some?
    ensures Trim(SlugHook(TrimOpt(slug), name, true).value) == SlugHook(TrimOpt(slug), name, true).value
  {
    if Truthy(TrimOpt(slug)) {
      TrimIdempotent(slug.value);
    } else {
      TrimUntouched(Slugify(name));
    }
  }

  /** The fields an update request sets (`$set`); `None` leaves a field as it is. */
  datatype GameUpdate = GameUpdate(
    name: Option<string>,
    slug: Option<string>,
    description: Option<string>,
    shortDescription: Option<string>,
    category: Option<string>,
    platforms: Option<seq<string>>,
    releaseDate: Option<int>,
    isUpcoming: Option<bool>,
    ratingAverage: Option<int>,
    ratingCount: Option<int>,
    trending: Option<bool>,
    featured: Option<bool>)

  /** The update that writes only the two rating fields. */
  function RatingUpdate(averageTenths: int, count: int): GameUpdate {
    GameUpdate(None, None, None, None, None, None, None, None,
               Some(averageTenths), Some(count), None, None)
  }

  /** The document after `$set` of the given fields. Validators do not run on
      this path and the pre-save hook is not called; the `trim` setters do. */
  function ApplyUpdate(g: Game, u: GameUpdate): (r: Game)
    ensures r.id == g.id
    ensures u.name.Some? ==> r.name == Trim(u.name.value)
    ensures u.slug.Some? ==> r.slug == TrimOpt(u.slug)
    ensures u.description.Some? ==> r.description == u.description.value
    ensures u.shortDescription.Some? ==> r.shortDescription == u.shortDescription
    ensures u.category.Some? ==> r.category == u.category.value
    ensures u.platforms.Some? ==> r.platforms == u.platforms.value
    ensures u.releaseDate.Some? ==> r.releaseDate == u.releaseDate.value
    ensures u.isUpcoming.Some? ==> r.isUpcoming == u.isUpcoming.value
    ensures u.ratingAverage.Some? ==> r.rating.averageTenths == u.ratingAverage.value
    ensures u.ratingCount.Some? ==> r.rating.count == u.ratingCount.value
    ensures u.trending.Some? ==> r.trending == u.trending.value
    ensures u.featured.Some? ==> r.featured == u.featured.value
    ensures && (u.name.None? ==> r.name == g.name)
            && (u.slug.None? ==> r.slug == g.slug)
            && (u.description.None? ==> r.description == g.description)
            && (u.shortDescription.None? ==> r.shortDescription == g.shortDescription)
            && (u.category.None? ==> r.category == g.category)
            && (u.platforms.None? ==> r.platforms == g.platforms)
            && (u.releaseDate.None? ==> r.releaseDate == g.releaseDate)
            && (u.isUpcoming.None? ==> r.isUpcoming == g.isUpcoming)
            && (u.ratingAverage.None? ==> r.rating.averageTenths == g.rating.averageTenths)
            && (u.ratingCount.None? ==> r.rating.count == g.rating.count)
            && (u.trending.None? ==> r.trending == g.trending)
            && (u.featured.None? ==> r.featured == g.featured)
  {
    Game(g.id,
         if u.name.Some? then Trim(u.name.value) else g.name,
         if u.slug.Some? then TrimOpt(u.slug) else g.slug,
         OrElse(u.description, g.description),
         if u.shortDescription.Some? then u.shortDescription else g.shortDescription,
         OrElse(u.category, g.category),
         OrElse(u.platforms, g.platforms),
         OrElse(u.releaseDate, g.releaseDate),
         OrElse(u.isUpcoming, g.isUpcoming),
         Rating(OrElse(u.ratingAverage, g.rating.averageTenths), OrElse(u.ratingCount, g.rating.count)),
         OrElse(u.trending, g.trending),
         OrElse(u.featured, g.featured))
  }

  /** Sending the same update twice leaves the game as one update does: the
      `trim` setters are idempotent. */
  lemma UpdateIdempotent(g: Game, u: GameUpdate)
    ensures ApplyUpdate(ApplyUpdate(g, u), u) == ApplyUpdate(g, u)
  {
    var a := ApplyUpdate(g, u);
    var b := ApplyUpdate(a, u);
    if u.name.Some? {
      TrimIdempotent(u.name.value);
    }
    if u.slug.Some? {
      TrimIdempotent(u.slug.value);
    }
    assert b.name == a.name;
    assert b.slug == a.slug;
    assert b.description == a.description;
    assert b.shortDescription == a.shortDescription;
    assert b.category == a.category;
    assert b.platforms == a.platforms;
    assert b.releaseDate == a.releaseDate;
    assert b.isUpcoming == a.isUpcoming;
    assert b.rating == a.rating;
    assert b.trending == a.trending;
    assert b.featured == a.featured;
  }

  /** A rating update overwrites the rating and nothing else. */
  lemma RatingUpdateOnlyRating(g: Game, averageTenths: int, count: int)
    ensures ApplyUpdate(g, RatingUpdate(averageTenths, count)) == g.(rating := Rating(averageTenths, count))
  {
  }

  function GameIndex(games: seq<Game>, id: Id): (r: Option<nat>)
    ensures r.Some? ==> r.value < |games| && games[r.value].id == id
    ensures r.None? ==> forall k :: 0 <= k < |games| ==> games[k].id != id
  {
    Find(games, (g: Game) => g.id == id)
  }

  /** The unique index on `slug`: no two games share a slug value, and a
      missing slug counts as the value null. */
  ghost predicate SlugsUnique(games: seq<Game>) {
    forall i, j :: 0 <= i < j < |games| ==> games[i].slug != games[j].slug
  }

  /** No game other than `self` holds `slug`. */
  predicate SlugFree(games: seq<Game>, slug: Option<string>, self: Id) {
    forall k :: 0 <= k < |games| && games[k].id != self ==> games[k].slug != slug
  }

  ghost predicate IdsIncreasing(games: seq<Game>, nextId: Id) {
    && (forall k :: 0 <= k < |games| ==> games[k].id < nextId)
    && (forall i, j :: 0 <= i < j < |games| ==> games[i].id < games[j].id)
  }

  /** Storing a document under the next id whose slug no stored document
      holds keeps ids increasing and slugs unique. */
  lemma AppendKeepsValid(games: seq<Game>, nextId: Id, x: Game)
    requires IdsIncreasing(games, nextId) && SlugsUnique(games)
    requires x.id == nextId && SlugFree(games, x.slug, nextId)
    ensures IdsIncreasing(games + [x], nextId + 1) && SlugsUnique(games + [x])
  {
  }

  /** What `Game.create` answers for `input` against the stored games. */
  function CreateOutcome(games: seq<Game>, id: Id, input: GameInput): (r: Result<Game>)
    ensures r.Ok? ==> ValidGame(r.value) && r.value.id == id && SlugFree(games, r.value.slug, id)
    ensures NewGame(id, input).Ok? && !SlugFree(games, NewGame(id, input).value.slug, id)
            ==> r == Err(DuplicateKey("slug"))
    ensures NewGame(id, input).Err? ==> r == Err(Validation)
    ensures NewGame(id, input).Ok? && SlugFree(games, NewGame(id, input).value.slug, id)
            ==> r == NewGame(id, input)
  {
    match NewGame(id, input)
    case Err(e) => Err(e)
    case Ok(g) => if SlugFree(games, g.slug, id) then Ok(g) else Err(DuplicateKey("slug"))
  }

  /** What `Game.findByIdAndUpdate(id, u)` answers against the stored games:
      the updated document, `None` when no game has that id, or a duplicate
      key error when the new slug is held by another game. */
  function UpdateOutcome(games: seq<Game>, id: Id, u: GameUpdate): (r: Result<Option<Game>>)
    ensures r == Ok(None) <==> GameIndex(games, id).None?
    ensures r.Ok? && r.value.Some? ==> && GameIndex(games, id).Some?
                                       && r.value.value == ApplyUpdate(games[GameIndex(games, id).value], u)
                                       && r.value.value.id == id
    ensures r.Err? <==> && GameIndex(games, id).Some?
                        && !SlugFree(games, ApplyUpdate(games[GameIndex(games, id).value], u).slug, id)
    ensures r.Err? ==> r.error == DuplicateKey("slug")
  {
    match GameIndex(games, id)
    case None => Ok(None)
    case Some(i) =>
      var g := ApplyUpdate(games[i], u);
      if SlugFree(games, g.slug, id) then Ok(Some(g)) else Err(DuplicateKey("slug"))
  }

  /** The stored games after `UpdateOutcome` succeeded with a document. */
  function Updated(games: seq<Game>, id: Id, u: GameUpdate): (r: seq<Game>)
    ensures |r| == |games|
    ensures forall k :: 0 <= k < |games| ==> r[k].id == games[k].id
    ensures forall k :: 0 <= k < |games| && games[k].id != id ==> r[k] == games[k]
    ensures forall k :: 0 <= k < |games| && games[k].id == id ==> r[k] == ApplyUpdate(games[k], u)
  {
    seq(|games|, k requires 0 <= k < |games| =>
      if games[k].id == id then ApplyUpdate(games[k], u) else games[k])
  }

  function WithoutGame(games: seq<Game>, id: Id): (r: seq<Game>)
    ensures forall k :: 0 <= k < |r| ==> r[k].id != id && r[k] in games
    ensures forall k :: 0 <= k < |games| && games[k].id != id ==> games[k] in r
  {
    Filter(games, (g: Game) => g.id != id)
  }

  /** The Game collection, in insertion order. Ids stand for the store's
      generated identifiers: fresh and increasing. */
  class GameCollection {
    var games: seq<Game>
    var nextId: Id

    ghost predicate Valid()
      reads this
    {
      IdsIncreasing(games, nextId) && SlugsUnique(games)
    }

    constructor ()
      ensures Valid() && games == [] && nextId == 0
    {
      games := [];
      nextId := 0;
    }

    /** Stores a document under the next id; its slug must be free. */
    method Append(x: Game)
      requires Valid() && x.id == nextId && SlugFree(games, x.slug, nextId)
      modifies this
      ensures Valid() && games == old(games) + [x] && nextId == old(nextId) + 1
    {
      AppendKeepsValid(games, nextId, x);
      games := games + [x];
      nextId := nextId + 1;
    }

    /** `Game.create(input)`. */
    method Create(input: GameInput) returns (r: Result<Game>)
      requires Valid()
      modifies this
      ensures Valid()
      ensures r == CreateOutcome(old(games), old(nextId), input)
      ensures r.Ok? ==> games == old(games) + [r.value] && nextId == old(nextId) + 1
      ensures r.Err? ==> games == old(games) && nextId == old(nextId)
    {
      r := CreateOutcome(games, nextId, input);
      if r.Ok? {
        Append(r.value);
      }
    }

    /** `Game.findByIdAndUpdate(id, u, { new: true })`. */
    method FindByIdAndUpdate(id: Id, u: GameUpdate) returns (r: Result<Option<Game>>)
      requires Valid()
      modifies this
      ensures Valid() && nextId == old(nextId)
      ensures r == UpdateOutcome(old(games), id, u)
      ensures games == if r.Ok? && r.value.Some? then Updated(old(games), id, u) else old(games)
    {
      r := UpdateOutcome(games, id, u);
      if r.Ok? && r.value.Some? {
        var i := GameIndex(games, id).value;
        ghost var before := games;
        games := Updated(games, id, u);
        assert games == before[i := r.value.value];
      }
    }

    /** `Game.findByIdAndDelete(id)`: removes the game if there is one. */
    method FindByIdAndDelete(id: Id)
      requires Valid()
      modifies this
      ensures Valid() && nextId == old(nextId)
      ensures games == WithoutGame(old(games), id)
    {
      FilterPairwise(games, (g: Game) => g.id != id,
                     (a: Game, b: Game) => a.id < b.id && a.slug != b.slug);
      games := WithoutGame(games, id);
    }
  }
}
