/** `POST /reports`: a signed-in user reports a review or a community post.
    The request is checked in a fixed order before anything is stored; the
    referenced review or post is not looked up. */
module ReportsRoutes {
  import opened Common
  import opened Text
  import opened ReportModel

  /** The body of the request; `None` is a field the body does not have. */
  datatype ReportRequest = ReportRequest(
    kind: Option<string>,
    refId: Option<string>,
    reason: Option<string>,
    comment: Option<string>)

  /** The first of the route's checks that fails, if any. */
  function FirstFailure(req: ReportRequest): (r: Option<Error>)
    ensures r == Some(BadRequest("Type, refId and reason are required"))
            <==> !Truthy(req.kind) || !Truthy(req.refId) || !Truthy(req.reason)
    ensures r == Some(BadRequest("Invalid report type"))
            <==> Truthy(req.kind) && Truthy(req.refId) && Truthy(req.reason) && req.kind.value !in ReportTypes
    ensures r == Some(BadRequest("Invalid reason"))
            <==> Truthy(req.kind) && Truthy(req.refId) && Truthy(req.reason)
                 && req.kind.value in ReportTypes && req.reason.value !in Reasons
    ensures r.None? <==> Truthy(req.kind) && Truthy(req.refId) && Truthy(req.reason)
                         && req.kind.value in ReportTypes && req.reason.value in Reasons
  {
    if !Truthy(req.kind) || !Truthy(req.refId) || !Truthy(req.reason) then
      Some(BadRequest("Type, refId and reason are required"))
    else if req.kind.value !in ReportTypes then Some(BadRequest("Invalid report type"))
    else if req.reason.value !in Reasons then Some(BadRequest("Invalid reason"))
    else None
  }

  /** `comment || undefined`: an empty comment is left out. */
  function CommentOrAbsent(comment: Option<string>): (r: Option<string>)
    ensures Truthy(comment) ==> r == comment
    ensures !Truthy(comment) ==> r.None?
  {
    if Truthy(comment) then comment else None
  }

  /** What the route answers: the id of the new report, or an error. */
  function SubmitOutcome(id: Id, me: Id, req: ReportRequest): (r: Result<Report>)
    ensures FirstFailure(req).Some? ==> r == Err(FirstFailure(req).value)
    ensures FirstFailure(req).None? ==> r == NewReport(id, me, req.kind.value, req.refId.value, req.reason.value,
                                                         CommentOrAbsent(req.comment))
    ensures r.Ok? <==> FirstFailure(req).None? && (Truthy(req.comment) ==> |Trim(req.comment.value)| <= 500)
    ensures r.Ok? ==> && r.value.id == id && r.value.reporter == me && r.value.status == Pending
                      && r.value.kind == req.kind.value && r.value.refId == req.refId.value
                      && r.value.reason == req.reason.value
                      && r.value.comment == TrimOpt(CommentOrAbsent(req.comment))
                      && ValidReport(r.value)
    ensures r.Err? && FirstFailure(req).None? ==> r.error == Validation
  {
    match FirstFailure(req)
    case Some(e) => Err(e)
    case None =>
      NewReport(id, me, req.kind.value, req.refId.value, req.reason.value, CommentOrAbsent(req.comment))
  }

  /** An empty comment is stored as absent. */
  lemma EmptyCommentAbsent(id: Id, me: Id, req: ReportRequest)
    requires SubmitOutcome(id, me, req).Ok? && !Truthy(req.comment)
    ensures SubmitOutcome(id, me, req).value.comment.None?
  {
  }

  /** `POST /reports`. */
  method SubmitReport(reports: ReportCollection, me: Id, req: ReportRequest) returns (r: Result<Id>)
    requires reports.Valid()
    modifies reports
    ensures reports.Valid()
    ensures var outcome := SubmitOutcome(old(reports.nextId), me, req);
            && (outcome.Ok? ==> r == Ok(outcome.value.id) && reports.reports == old(reports.reports) + [outcome.value])
            && (outcome.Err? ==> r == Err(outcome.error) && reports.reports == old(reports.reports))
    ensures r.Ok? ==> PendingCount(reports.reports) == PendingCount(old(reports.reports)) + 1
    ensures r.Err? ==> PendingCount(reports.reports) == PendingCount(old(reports.reports))
    ensures AllValid(old(reports.reports)) ==> AllValid(reports.reports)
  {
    if !Truthy(req.kind) || !Truthy(req.refId) || !Truthy(req.reason) {
      return Err(BadRequest("Type, refId and reason are required"));
    }
    if req.kind.value !in ReportTypes {
      return Err(BadRequest("Invalid report type"));
    }
    if req.reason.value !in Reasons {
      return Err(BadRequest("Invalid reason"));
    }
    ghost var before := reports.reports;
    var created := reports.Create(me, req.kind.value, req.refId.value, req.reason.value, CommentOrAbsent(req.comment));
    match created
    case Err(e) =>
      r := Err(e);
    case Ok(report) =>
      PendingCountAppend(before, report);
      r := Ok(report.id);
  }
}
