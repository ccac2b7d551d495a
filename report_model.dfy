/** The Report schema: the type, reason and status enums, the `pending`
    default, the comment bound, and the collection with the two store
    operations the moderation routes perform. */
module ReportModel {
  import opened Common
  import opened Text
  import opened Seqs

  const ReportTypes: seq<string> := ["review", "communityPost"]

  const Reasons: seq<string> := ["spam", "harassment", "inappropriate", "off_topic", "other"]

  const Statuses: seq<string> := ["pending", "reviewed", "resolved", "dismissed"]

  const Pending: string := "pending"

  /** A stored report. `kind` is the schema's `type` field; `refId` is the
      identifier of the reported review or post, kept as the text it was
      given in. */
  datatype Report = Report(
    id: Id,
    reporter: Id,
    kind: string,
    refId: string,
    reason: string,
    comment: Option<string>,
    status: string)

  /** The schema's constraints on a stored report. */
  predicate ValidReport(r: Report) {
    && r.kind in ReportTypes
    && r.refId != []
    && r.reason in Reasons
    && (r.comment.Some? ==> Trim(r.comment.value) == r.comment.value && |r.comment.value| <= 500)
    && r.status in Statuses
  }

  ghost predicate AllValid(reports: seq<Report>) {
    forall k :: 0 <= k < |reports| ==> ValidReport(reports[k])
  }

  ghost predicate IdsIncreasing(reports: seq<Report>, nextId: Id) {
    && (forall k :: 0 <= k < |reports| ==> reports[k].id < nextId)
    && (forall i, j :: 0 <= i < j < |reports| ==> reports[i].id < reports[j].id)
  }

  /** `new Report({...})` validated: the `trim` setter of the comment runs
      first; then the required fields, the enums and the 500-character bound
      are checked. The status is not given, so it takes its default. */
  function NewReport(id: Id, reporter: Id, kind: string, refId: string, reason: string,
                     comment: Option<string>): (r: Result<Report>)
    ensures r.Ok? <==> kind in ReportTypes && refId != [] && reason in Reasons
                       && (comment.Some? ==> |Trim(comment.value)| <= 500)
    ensures r.Err? ==> r.error == Validation
    ensures r.Ok? ==> ValidReport(r.value) && r.value.status == Pending
    ensures r.Ok? ==> r.value == Report(id, reporter, kind, refId, reason, TrimOpt(comment), Pending)
  {
    var c := TrimOpt(comment);
    if kind in ReportTypes && refId != [] && reason in Reasons && (c.Some? ==> |c.value| <= 500) then
      assert c.Some? ==> Trim(c.value) == c.value by {
        if c.Some? { TrimIdempotent(comment.value); }
      }
      Ok(Report(id, reporter, kind, refId, reason, c, Pending))
    else Err(Validation)
  }

  function ReportIndex(reports: seq<Report>, id: Id): (r: Option<nat>)
    ensures r.Some? ==> r.value < |reports| && reports[r.value].id == id
    ensures r.None? ==> forall k :: 0 <= k < |reports| ==> reports[k].id != id
  {
    Find(reports, (r: Report) => r.id == id)
  }

  /** The store after `findByIdAndUpdate(id, { status })`: only the status of
      the report with that id changes. */
  function WithStatus(reports: seq<Report>, id: Id, status: string): (r: seq<Report>)
    ensures |r| == |reports|
    ensures forall k :: 0 <= k < |reports| && reports[k].id != id ==> r[k] == reports[k]
    ensures forall k :: 0 <= k < |reports| && reports[k].id == id ==> r[k] == reports[k].(status := status)
  {
    seq(|reports|, k requires 0 <= k < |reports| =>
      if reports[k].id == id then reports[k].(status := status) else reports[k])
  }

  /** The number of reports whose status is `pending`. */
  function PendingCount(reports: seq<Report>): (n: nat)
    ensures n <= |reports|
  {
    |Filter(reports, (r: Report) => r.status == Pending)|
  }

  /** `countDocuments({ status: 'pending' })` is the number of pending
      reports: adding one report raises it by one exactly when that report is
      pending. */
  lemma PendingCountAppend(reports: seq<Report>, r: Report)
    ensures PendingCount(reports + [r]) == PendingCount(reports) + (if r.status == Pending then 1 else 0)
  {
    FilterAppend(reports, r, (r: Report) => r.status == Pending);
  }

  /** A status update moves the report into or out of the pending count and
      leaves every other report's contribution as it was. */
  lemma {:induction false} PendingCountWithStatus(reports: seq<Report>, i: nat, status: string)
    requires i < |reports|
    requires forall k :: 0 <= k < |reports| && k != i ==> reports[k].id != reports[i].id
    ensures PendingCount(WithStatus(reports, reports[i].id, status))
            == PendingCount(reports)
               - (if reports[i].status == Pending then 1 else 0)
               + (if status == Pending then 1 else 0)
  {
    var p := (r: Report) => r.status == Pending;
    var after := WithStatus(reports, reports[i].id, status);
    assert reports == reports[..i] + [reports[i]] + reports[i + 1..];
    assert after == reports[..i] + [after[i]] + reports[i + 1..];
    FilterConcat(reports[..i] + [reports[i]], reports[i + 1..], p);
    FilterConcat(reports[..i], [reports[i]], p);
    FilterConcat(reports[..i] + [after[i]], reports[i + 1..], p);
    FilterConcat(reports[..i], [after[i]], p);
    FilterAppend([], reports[i], p);
    FilterAppend([], after[i], p);
    assert [] + [reports[i]] == [reports[i]];
    assert [] + [after[i]] == [after[i]];
  }

  /** The Report collection, in insertion (creation) order. */
  class ReportCollection {
    var reports: seq<Report>
    var nextId: Id

    ghost predicate Valid()
      reads this
    {
      IdsIncreasing(reports, nextId)
    }

    constructor ()
      ensures Valid() && reports == [] && nextId == 0
    {
      reports := [];
      nextId := 0;
    }

    /** Stores a report under the next id. */
    method Append(x: Report)
      requires Valid() && x.id == nextId
      modifies this
      ensures Valid() && reports == old(reports) + [x] && nextId == old(nextId) + 1
    {
      reports := reports + [x];
      nextId := nextId + 1;
    }

    /** `Report.create({...})`. */
    method Create(reporter: Id, kind: string, refId: string, reason: string, comment: Option<string>)
      returns (r: Result<Report>)
      requires Valid()
      modifies this
      ensures Valid()
      ensures r == NewReport(old(nextId), reporter, kind, refId, reason, comment)
      ensures r.Ok? ==> reports == old(reports) + [r.value] && nextId == old(nextId) + 1
      ensures r.Err? ==> reports == old(reports) && nextId == old(nextId)
    {
      r := NewReport(nextId, reporter, kind, refId, reason, comment);
      if r.Ok? {
        Append(r.value);
      }
    }

    /** `Report.findByIdAndUpdate(id, { status }, { new: true })`: the updated
        report, or `None` when no report has that id. */
    method FindByIdAndSetStatus(id: Id, status: string) returns (r: Option<Report>)
      requires Valid()
      modifies this
      ensures Valid() && nextId == old(nextId)
      ensures r.None? <==> ReportIndex(old(reports), id).None?
      ensures r.Some? ==> r.value == old(reports)[ReportIndex(old(reports), id).value].(status := status)
      ensures reports == if r.Some? then WithStatus(old(reports), id, status) else old(reports)
    {
      match ReportIndex(reports, id)
      case None =>
        r := None;
      case Some(i) =>
        r := Some(reports[i].(status := status));
        reports := WithStatus(reports, id, status);
    }
  }
}
