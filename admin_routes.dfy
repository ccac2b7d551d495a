/** The administrator's routes: updating and deleting games and news, the
    dashboard counts, the report list and the relabelling of a report's
    status. Every route here sits behind the administrator check, which is
    not part of this model. */
module AdminRoutes {
  import opened Common
  import opened Seqs
  import opened GameModel
  import opened NewsModel
  import opened ReportModel
  import opened Accounts

  // ---------------------------------------------------------------------------
  // Games and news

  /** `PUT /admin/games/:id`: the body is applied as an update without
      validators or the slug hook. */
  method UpdateGame(games: GameCollection, id: Id, u: GameUpdate) returns (r: Result<Game>)
    requires games.Valid()
    modifies games
    ensures games.Valid() && games.nextId == old(games.nextId)
    ensures GameModel.GameIndex(old(games.games), id).None? ==>
              r == Err(NotFound("Game not found")) && games.games == old(games.games)
    ensures r.Ok? ==> && GameModel.GameIndex(old(games.games), id).Some?
                      && r.value == GameModel.ApplyUpdate(old(games.games)[GameModel.GameIndex(old(games.games), id).value], u)
                      && games.games == GameModel.Updated(old(games.games), id, u)
    ensures r.Err? && !r.error.NotFound? ==> r == Err(DuplicateKey("slug")) && games.games == old(games.games)
    ensures GameModel.GameIndex(old(games.games), id).Some? ==> !(r.Err? && r.error.NotFound?)
    ensures r == Err(DuplicateKey("slug"))
            <==> && GameModel.GameIndex(old(games.games), id).Some?
                 && !GameModel.SlugFree(old(games.games),
                                        GameModel.ApplyUpdate(old(games.games)[GameModel.GameIndex(old(games.games), id).value], u).slug, id)
  {
    var found := games.FindByIdAndUpdate(id, u);
    match found
    case Err(e) => r := Err(e);
    case Ok(None) => r := Err(NotFound("Game not found"));
    case Ok(Some(g)) => r := Ok(g);
  }

  /** `DELETE /admin/games/:id`: answers the same whether or not a game had
      that id. */
  method DeleteGame(games: GameCollection, id: Id) returns (message: string)
    requires games.Valid()
    modifies games
    ensures games.Valid() && games.nextId == old(games.nextId)
    ensures message == "Game deleted"
    ensures games.games == WithoutGame(old(games.games), id)
  {
    games.FindByIdAndDelete(id);
    message := "Game deleted";
  }

  /** `PUT /admin/news/:id`, the same way as for games. */
  method UpdateNews(news: NewsCollection, id: Id, u: NewsUpdate) returns (r: Result<News>)
    requires news.Valid()
    modifies news
    ensures news.Valid() && news.nextId == old(news.nextId)
    ensures NewsIndex(old(news.articles), id).None? ==>
              r == Err(NotFound("News not found")) && news.articles == old(news.articles)
    ensures r.Ok? ==> && NewsIndex(old(news.articles), id).Some?
                      && r.value == NewsModel.ApplyUpdate(old(news.articles)[NewsIndex(old(news.articles), id).value], u)
                      && news.articles == NewsModel.Updated(old(news.articles), id, u)
    ensures r.Err? && !r.error.NotFound? ==> r == Err(DuplicateKey("slug")) && news.articles == old(news.articles)
    ensures NewsIndex(old(news.articles), id).Some? ==> !(r.Err? && r.error.NotFound?)
    ensures r == Err(DuplicateKey("slug"))
            <==> && NewsIndex(old(news.articles), id).Some?
                 && !NewsModel.SlugFree(old(news.articles),
                                        NewsModel.ApplyUpdate(old(news.articles)[NewsIndex(old(news.articles), id).value], u).slug, id)
  {
    var found := news.FindByIdAndUpdate(id, u);
    match found
    case Err(e) => r := Err(e);
    case Ok(None) => r := Err(NotFound("News not found"));
    case Ok(Some(n)) => r := Ok(n);
  }

  /** `DELETE /admin/news/:id`. */
  method DeleteNews(news: NewsCollection, id: Id) returns (message: string)
    requires news.Valid()
    modifies news
    ensures news.Valid() && news.nextId == old(news.nextId)
    ensures message == "News deleted"
    ensures news.articles == WithoutNews(old(news.articles), id)
  {
    news.FindByIdAndDelete(id);
    message := "News deleted";
  }

  // ---------------------------------------------------------------------------
  // Dashboard counts

  datatype Stats = Stats(gamesCount: nat, newsCount: nat, usersCount: nat, reportsPending: nat)

  /** `GET /admin/stats`. */
  function StatsOf(games: seq<Game>, news: seq<News>, users: seq<User>, reports: seq<Report>): (r: Stats)
    ensures r.gamesCount == |games| && r.newsCount == |news| && r.usersCount == |users|
    ensures r.reportsPending == |PendingIndices(reports)|
    ensures r.reportsPending <= |reports|
  {
    PendingCountIsIndexCount(reports);
    Stats(|games|, |news|, |users|, PendingCount(reports))
  }

  /** The positions of the pending reports. */
  ghost function PendingIndices(reports: seq<Report>): set<nat> {
    set i: nat | i < |reports| && reports[i].status == Pending
  }

  /** The pending count is the number of stored reports whose status is
      `pending`, counted by position. */
  lemma {:induction false} PendingCountIsIndexCount(reports: seq<Report>)
    ensures PendingCount(reports) == |PendingIndices(reports)|
    decreases |reports|
  {
    if reports == [] {
      assert PendingIndices(reports) == {};
    } else {
      var init := reports[..|reports| - 1];
      var last := reports[|reports| - 1];
      assert reports == init + [last];
      PendingCountIsIndexCount(init);
      PendingCountAppend(init, last);
      PendingIndicesAppend(init, last);
    }
  }

  /** A report added at the end adds its own position exactly when it is
      pending. */
  lemma PendingIndicesAppend(init: seq<Report>, last: Report)
    ensures |init| !in PendingIndices(init)
    ensures PendingIndices(init + [last])
            == PendingIndices(init) + (if last.status == Pending then {|init|} else {})
  {
    var s := init + [last];
    assert forall k :: 0 <= k < |init| ==> s[k] == init[k];
  }

  // ---------------------------------------------------------------------------
  // Report list and status

  /** `GET /admin/reports`: every report, newest first. */
  function ListReports(reports: seq<Report>): (r: seq<Report>)
    ensures |r| == |reports| && multiset(r) == multiset(reports)
    ensures forall k :: 0 <= k < |r| ==> r[k] == reports[|reports| - 1 - k]
  {
    ReversePermutes(reports);
    Reverse(reports)
  }

  /** With ids in creation order, the list is in strictly decreasing id order. */
  lemma ListReportsNewestFirst(reports: seq<Report>, nextId: Id)
    requires ReportModel.IdsIncreasing(reports, nextId)
    ensures var r := ListReports(reports);
            forall i, j :: 0 <= i < j < |r| ==> r[i].id > r[j].id
  {
    var r := ListReports(reports);
    forall i, j | 0 <= i < j < |r| ensures r[i].id > r[j].id {
      assert r[i] == reports[|reports| - 1 - i] && r[j] == reports[|reports| - 1 - j];
    }
  }

  /** What `PATCH /admin/reports/:id` answers. The status is checked against
      the four statuses before the report is looked up; any of them may
      replace any other. */
  function StatusOutcome(reports: seq<Report>, id: Id, status: Option<string>): (r: Result<Report>)
    ensures r == Err(BadRequest("Invalid status")) <==> status.None? || status.value !in Statuses
    ensures r == Err(NotFound("Report not found"))
            <==> status.Some? && status.value in Statuses && ReportIndex(reports, id).None?
    ensures r.Ok? <==> status.Some? && status.value in Statuses && ReportIndex(reports, id).Some?
    ensures r.Ok? ==> r.value == reports[ReportIndex(reports, id).value].(status := status.value)
  {
    if status.None? || status.value !in Statuses then Err(BadRequest("Invalid status"))
    else match ReportIndex(reports, id)
      case None => Err(NotFound("Report not found"))
      case Some(i) => Ok(reports[i].(status := status.value))
  }

  /** `PATCH /admin/reports/:id`. */
  method UpdateReportStatus(reports: ReportCollection, id: Id, status: Option<string>) returns (r: Result<Report>)
    requires reports.Valid()
    modifies reports
    ensures reports.Valid() && reports.nextId == old(reports.nextId)
    ensures r == StatusOutcome(old(reports.reports), id, status)
    ensures reports.reports == if r.Ok? then WithStatus(old(reports.reports), id, status.value) else old(reports.reports)
    ensures AllValid(old(reports.reports)) ==> AllValid(reports.reports)
  {
    if status.None? || status.value !in Statuses {
      return Err(BadRequest("Invalid status"));
    }
    var updated := reports.FindByIdAndSetStatus(id, status.value);
    if updated.None? {
      return Err(NotFound("Report not found"));
    }
    if AllValid(old(reports.reports)) {
      StatusKeepsValid(old(reports.reports), id, status.value);
    }
    r := Ok(updated.value);
  }

  /** Setting a status a second time changes nothing more, and answers with
      the same report. */
  lemma StatusIdempotent(reports: seq<Report>, id: Id, status: string)
    requires status in Statuses
    ensures WithStatus(WithStatus(reports, id, status), id, status) == WithStatus(reports, id, status)
    ensures StatusOutcome(WithStatus(reports, id, status), id, Some(status)) == StatusOutcome(reports, id, Some(status))
  {
    var after := WithStatus(reports, id, status);
    FindSameWhere(reports, after, (r: Report) => r.id == id);
  }

  /** A status update keeps every stored report valid. */
  lemma StatusKeepsValid(reports: seq<Report>, id: Id, status: string)
    requires AllValid(reports) && status in Statuses
    ensures AllValid(WithStatus(reports, id, status))
  {
  }
}
