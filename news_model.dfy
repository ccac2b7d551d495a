/** The News schema: fields, the category enum and its default, the excerpt
    bound, the slug pre-save hook (the same derivation as for games, from the
    title), and the collection with the store operations the admin routes call. */
module NewsModel {
  import opened Common
  import opened Text
  import opened Seqs
  import opened Slug

  const NewsCategories: seq<string> := ["News", "Review", "Update", "Release", "Industry"]

  const DefaultCategory: string := "News"

  /** A stored article. The image URL and the `source` label take part in no
      rule and are omitted. */
  datatype News = News(
    id: Id,
    title: string,
    slug: Option<string>,
    excerpt: Option<string>,
    content: string,
    category: string,
    relatedGame: Option<Id>,
    featured: bool)

  /** The schema's constraints, as a saved article satisfies them. */
  predicate ValidNews(n: News) {
    && n.title != [] && Trim(n.title) == n.title
    && (n.slug.Some? ==> Trim(n.slug.value) == n.slug.value)
    && (n.excerpt.Some? ==> |n.excerpt.value| <= 300)
    && n.content != []
    && n.category in NewsCategories
  }

  /** The body of a create request; `None` is a field the body leaves out. */
  datatype NewsInput = NewsInput(
    title: Option<string>,
    slug: Option<string>,
    excerpt: Option<string>,
    content: Option<string>,
    category: Option<string>,
    relatedGame: Option<Id>,
    featured: Option<bool>)

  /** Validation of a new article after the defaults and the `trim` setters. */
  predicate InputValid(input: NewsInput) {
    && Truthy(TrimOpt(input.title))
    && (input.excerpt.Some? ==> |input.excerpt.value| <= 300)
    && Truthy(input.content)
    && (input.category.Some? ==> input.category.value in NewsCategories)
  }

  lemma HookedSlugTrimmed(slug: Option<string>, title: string)
    ensures SlugHook(TrimOpt(slug), title, true).Some?
    ensures Trim(SlugHook(TrimOpt(slug), title, true).value) == SlugHook(TrimOpt(slug), title, true).value
  {
    if Truthy(TrimOpt(slug)) {
      TrimIdempotent(slug.value);
    } else {
      TrimUntouched(Slugify(title));
    }
  }

  /** `new News(input)`, validated, then passed through the pre-save hook,
      which sees a modified title on a new document. */
  function NewNews(id: Id, input: NewsInput): (r: Result<News>)
    ensures r.Err? <==> !InputValid(input)
    ensures r.Err? ==> r.error == Validation
    ensures r.Ok? ==> ValidNews(r.value) && r.value.id == id
    ensures r.Ok? ==> r.value.title == Trim(input.title.value)
    ensures r.Ok? ==> r.value.slug == SlugHook(TrimOpt(input.slug), r.value.title, true)
    ensures r.Ok? && input.category.None? ==> r.value.category == DefaultCategory
    ensures r.Ok? && input.category.Some? ==> r.value.category == input.category.value
    ensures r.Ok? ==> && r.value.excerpt == input.excerpt
                      && r.value.content == input.content.value
                      && r.value.relatedGame == input.relatedGame
                      && r.value.featured == (input.featured == Some(true))
  {
    if !InputValid(input) then Err(Validation)
    else
      var title := Trim(input.title.value);
      TrimIdempotent(input.title.value);
      var slug := SlugHook(TrimOpt(input.slug), title, true);
      HookedSlugTrimmed(input.slug, title);
      Ok(News(id, title, slug, input.excerpt, input.content.value,
              if input.category.Some? then input.category.value else DefaultCategory,
              input.relatedGame,
              input.featured.Some? && input.featured.value))
  }

  /** The fields an update request sets (`$set`); `None` leaves a field as it is. */
  datatype NewsUpdate = NewsUpdate(
    title: Option<string>,
    slug: Option<string>,
    excerpt: Option<string>,
    content: Option<string>,
    category: Option<string>,
    relatedGame: Option<Id>,
    featured: Option<bool>)

  /** The article after `$set` of the given fields: validators do not run and
      the pre-save hook is not called on this path; the `trim` setters do. */
  function ApplyUpdate(n: News, u: NewsUpdate): (r: News)
    ensures r.id == n.id
    ensures u.title.Some? ==> r.title == Trim(u.title.value)
    ensures u.slug.Some? ==> r.slug == TrimOpt(u.slug)
    ensures u.excerpt.Some? ==> r.excerpt == u.excerpt
    ensures u.content.Some? ==> r.content == u.content.value
    ensures u.category.Some? ==> r.category == u.category.value
    ensures u.relatedGame.Some? ==> r.relatedGame == u.relatedGame
    ensures u.featured.Some? ==> r.featured == u.featured.value
    ensures && (u.title.None? ==> r.title == n.title)
            && (u.slug.None? ==> r.slug == n.slug)
            && (u.excerpt.None? ==> r.excerpt == n.excerpt)
            && (u.content.None? ==> r.content == n.content)
            && (u.category.None? ==> r.category == n.category)
            && (u.relatedGame.None? ==> r.relatedGame == n.relatedGame)
            && (u.featured.None? ==> r.featured == n.featured)
  {
    News(n.id,
         if u.title.Some? then Trim(u.title.value) else n.title,
         if u.slug.Some? then TrimOpt(u.slug) else n.slug,
         if u.excerpt.Some? then u.excerpt else n.excerpt,
         if u.content.Some? then u.content.value else n.content,
         if u.category.Some? then u.category.value else n.category,
         if u.relatedGame.Some? then u.relatedGame else n.relatedGame,
         if u.featured.Some? then u.featured.value else n.featured)
  }

  /** Sending the same update twice leaves the article as one update does. */
  lemma UpdateIdempotent(n: News, u: NewsUpdate)
    ensures ApplyUpdate(ApplyUpdate(n, u), u) == ApplyUpdate(n, u)
  {
    var a := ApplyUpdate(n, u);
    var b := ApplyUpdate(a, u);
    if u.title.Some? {
      TrimIdempotent(u.title.value);
    }
    if u.slug.Some? {
      TrimIdempotent(u.slug.value);
    }
    assert b.title == a.title;
    assert b.slug == a.slug;
    assert b.excerpt == a.excerpt;
    assert b.content == a.content;
    assert b.category == a.category;
    assert b.relatedGame == a.relatedGame;
    assert b.featured == a.featured;
  }

  function NewsIndex(articles: seq<News>, id: Id): (r: Option<nat>)
    ensures r.Some? ==> r.value < |articles| && articles[r.value].id == id
    ensures r.None? ==> forall k :: 0 <= k < |articles| ==> articles[k].id != id
  {
    Find(articles, (n: News) => n.id == id)
  }

  /** The unique index on `slug`; a missing slug counts as the value null. */
  ghost predicate SlugsUnique(articles: seq<News>) {
    forall i, j :: 0 <= i < j < |articles| ==> articles[i].slug != articles[j].slug
  }

  predicate SlugFree(articles: seq<News>, slug: Option<string>, self: Id) {
    forall k :: 0 <= k < |articles| && articles[k].id != self ==> articles[k].slug != slug
  }

  ghost predicate IdsIncreasing(articles: seq<News>, nextId: Id) {
    && (forall k :: 0 <= k < |articles| ==> articles[k].id < nextId)
    && (forall i, j :: 0 <= i < j < |articles| ==> articles[i].id < articles[j].id)
  }

  /** Storing a document under the next id whose slug no stored document
      holds keeps ids increasing and slugs unique. */
  lemma AppendKeepsValid(articles: seq<News>, nextId: Id, x: News)
    requires IdsIncreasing(articles, nextId) && SlugsUnique(articles)
    requires x.id == nextId && SlugFree(articles, x.slug, nextId)
    ensures IdsIncreasing(articles + [x], nextId + 1) && SlugsUnique(articles + [x])
  {
  }

  /** What `News.create` answers for `input` against the stored articles. */
  function CreateOutcome(articles: seq<News>, id: Id, input: NewsInput): (r: Result<News>)
    ensures r.Ok? ==> ValidNews(r.value) && r.value.id == id && SlugFree(articles, r.value.slug, id)
    ensures NewNews(id, input).Ok? && !SlugFree(articles, NewNews(id, input).value.slug, id)
            ==> r == Err(DuplicateKey("slug"))
    ensures NewNews(id, input).Err? ==> r == Err(Validation)
    ensures NewNews(id, input).Ok? && SlugFree(articles, NewNews(id, input).value.slug, id)
            ==> r == NewNews(id, input)
  {
    match NewNews(id, input)
    case Err(e) => Err(e)
    case Ok(n) => if SlugFree(articles, n.slug, id) then Ok(n) else Err(DuplicateKey("slug"))
  }

  /** What `News.findByIdAndUpdate(id, u)` answers against the stored articles. */
  function UpdateOutcome(articles: seq<News>, id: Id, u: NewsUpdate): (r: Result<Option<News>>)
    ensures r == Ok(None) <==> NewsIndex(articles, id).None?
    ensures r.Ok? && r.value.Some? ==> && NewsIndex(articles, id).Some?
                                       && r.value.value == ApplyUpdate(articles[NewsIndex(articles, id).value], u)
                                       && r.value.value.id == id
    ensures r.Err? <==> && NewsIndex(articles, id).Some?
                        && !SlugFree(articles, ApplyUpdate(articles[NewsIndex(articles, id).value], u).slug, id)
    ensures r.Err? ==> r.error == DuplicateKey("slug")
  {
    match NewsIndex(articles, id)
    case None => Ok(None)
    case Some(i) =>
      var n := ApplyUpdate(articles[i], u);
      if SlugFree(articles, n.slug, id) then Ok(Some(n)) else Err(DuplicateKey("slug"))
  }

  function Updated(articles: seq<News>, id: Id, u: NewsUpdate): (r: seq<News>)
    ensures |r| == |articles|
    ensures forall k :: 0 <= k < |articles| ==> r[k].id == articles[k].id
    ensures forall k :: 0 <= k < |articles| && articles[k].id != id ==> r[k] == articles[k]
    ensures forall k :: 0 <= k < |articles| && articles[k].id == id ==> r[k] == ApplyUpdate(articles[k], u)
  {
    seq(|articles|, k requires 0 <= k < |articles| =>
      if articles[k].id == id then ApplyUpdate(articles[k], u) else articles[k])
  }

  function WithoutNews(articles: seq<News>, id: Id): (r: seq<News>)
    ensures forall k :: 0 <= k < |r| ==> r[k].id != id && r[k] in articles
    ensures forall k :: 0 <= k < |articles| && articles[k].id != id ==> articles[k] in r
  {
    Filter(articles, (n: News) => n.id != id)
  }

  /** The News collection, in insertion order. */
  class NewsCollection {
    var articles: seq<News>
    var nextId: Id

    ghost predicate Valid()
      reads this
    {
      IdsIncreasing(articles, nextId) && SlugsUnique(articles)
    }

    constructor ()
      ensures Valid() && articles == [] && nextId == 0
    {
      articles := [];
      nextId := 0;
    }

    /** Stores a document under the next id; its slug must be free. */
    method Append(x: News)
      requires Valid() && x.id == nextId && SlugFree(articles, x.slug, nextId)
      modifies this
      ensures Valid() && articles == old(articles) + [x] && nextId == old(nextId) + 1
    {
      AppendKeepsValid(articles, nextId, x);
      articles := articles + [x];
      nextId := nextId + 1;
    }

    /** `News.create(input)`. */
    method Create(input: NewsInput) returns (r: Result<News>)
      requires Valid()
      modifies this
      ensures Valid()
      ensures r == CreateOutcome(old(articles), old(nextId), input)
      ensures r.Ok? ==> articles == old(articles) + [r.value] && nextId == old(nextId) + 1
      ensures r.Err? ==> articles == old(articles) && nextId == old(nextId)
    {
      r := CreateOutcome(articles, nextId, input);
      if r.Ok? {
        Append(r.value);
      }
    }

    /** `News.findByIdAndUpdate(id, u, { new: true })`. */
    method FindByIdAndUpdate(id: Id, u: NewsUpdate) returns (r: Result<Option<News>>)
      requires Valid()
      modifies this
      ensures Valid() && nextId == old(nextId)
      ensures r == UpdateOutcome(old(articles), id, u)
      ensures articles == if r.Ok? && r.value.Some? then Updated(old(articles), id, u) else old(articles)
    {
      r := UpdateOutcome(articles, id, u);
      if r.Ok? && r.value.Some? {
        var i := NewsIndex(articles, id).value;
        ghost var before := articles;
        articles := Updated(articles, id, u);
        assert articles == before[i := r.value.value];
      }
    }

    /** `News.findByIdAndDelete(id)`. */
    method FindByIdAndDelete(id: Id)
      requires Valid()
      modifies this
      ensures Valid() && nextId == old(nextId)
      ensures articles == WithoutNews(old(articles), id)
    {
      FilterPairwise(articles, (n: News) => n.id != id,
                     (a: News, b: News) => a.id < b.id && a.slug != b.slug);
      articles := WithoutNews(articles, id);
    }
  }
}
