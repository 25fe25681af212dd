/** Supervisor moderation of reports and its effect on the author's
    reputation (back/app/services/report_status.py). */
module ReportStatusService {
  import opened Common
  import opened Firestore
  import opened Schemas
  import opened ReportStatusRepository
  import opened ReportsRepository
  import opened UsersRepository
  import opened Identity

  /** `_STATUS_REPUTATION_SCORES`. */
  function Score(s: StatusValue): (r: int)
    ensures s == Pending ==> r == 0
    ensures s == Approved ==> r == 1
    ensures s == Invalid ==> r == -1
  {
    match s
    case Pending => 0
    case Approved => 1
    case Invalid => -1
  }

  /** The reputation change of moving a report from `previous` (none: never
      moderated, scored as pending) to `status`. */
  function ScoreDelta(previous: Option<StatusValue>, status: StatusValue): (r: int)
    ensures previous.None? ==> r == Score(status)
    ensures previous.Some? ==> r == Score(status) - Score(previous.value)
    ensures previous == Some(status) ==> r == 0
    ensures -2 <= r <= 2
  {
    Score(status) - Score(previous.GetOr(Pending))
  }

  /** The status recorded in a previous status document, if any. */
  function StatusOf(previous: Option<ReportStatus>): (r: Option<StatusValue>)
    ensures previous.None? <==> r.None?
    ensures previous.Some? ==> r == Some(previous.value.status)
  {
    match previous
    case None => None
    case Some(p) => Some(p.status)
  }

  /** The author whose reputation moves: `report.user_id` when it is truthy. */
  function Author(report: Report): (r: Option<string>)
    ensures r.Some? <==> report.userId.Some? && report.userId.value != ""
    ensures r.Some? ==> r == report.userId
  {
    if report.userId.Some? && report.userId.value != "" then report.userId else None
  }

  /** The sum of the deltas of moderating a report with `updates` in turn,
      starting from `previous`. */
  function TotalChange(previous: Option<StatusValue>, updates: seq<StatusValue>): int
    decreases |updates|
  {
    if updates == [] then 0
    else ScoreDelta(previous, updates[0]) + TotalChange(Some(updates[0]), updates[1..])
  }

  /** The deltas telescope: over any run of moderations the author gains the
      score of the last status minus that of the starting one. */
  lemma {:induction false} TotalChangeTelescopes(previous: Option<StatusValue>, updates: seq<StatusValue>)
    requires |updates| > 0
    ensures TotalChange(previous, updates) == Score(updates[|updates| - 1]) - Score(previous.GetOr(Pending))
    decreases |updates|
  {
    if |updates| > 1 {
      TotalChangeTelescopes(Some(updates[0]), updates[1..]);
    }
  }

  /** From a never-moderated report, the total change is the score of the
      latest status, so it stays within -1..1. */
  lemma TotalChangeIsLatestScore(updates: seq<StatusValue>)
    requires |updates| > 0
    ensures TotalChange(None, updates) == Score(updates[|updates| - 1])
    ensures -1 <= TotalChange(None, updates) <= 1
  {
    TotalChangeTelescopes(None, updates);
  }

  /** Reports decoded from the Firestore report documents never carry a
      user id (the reporter is lost on the way), so moderating them never
      moves anyone's reputation. */
  lemma StoredReportsHaveNoAuthor(id: string, doc: Doc, now: Time)
    requires SnapshotToReport(id, doc, now).Ok?
    ensures Author(SnapshotToReport(id, doc, now).value).None?
  {
  }

  /** `ReportStatusService`. The report repository enters as the answer its
      `get` gave, since no implementation of it is part of this model. */
  class ModerationService {
    const statuses: StatusStore
    const identity: IdentityService

    constructor(statuses: StatusStore, identity: IdentityService)
      ensures this.statuses == statuses && this.identity == identity
    {
      this.statuses := statuses;
      this.identity := identity;
    }

    /** `set_status(report_id, status, supervisor_id)` at `timestamp`, where
        `fetched` is what the report repository's `get` returned. */
    method SetStatus(fetched: Result<Option<Report>, Failure>, reportId: string, status: StatusValue,
                     supervisorId: Option<string>, timestamp: Time, now: Time)
      returns (r: Result<ReportStatus, Failure>)
      modifies statuses, identity.users
      ensures fetched.Err? ==> r == Err(fetched.error)
      ensures fetched.Err? || fetched == Ok(None) ==>
        statuses.documents == old(statuses.documents) && identity.users.documents == old(identity.users.documents)
      ensures fetched == Ok(None) ==> r == Err(ReportNotFound(reportId))
      ensures fetched.Ok? && fetched.value.Some? ==>
        var previous := StatusLookup(old(statuses.documents), reportId, now);
        && (previous.Err? ==>
              r == Err(previous.error) && statuses.documents == old(statuses.documents) &&
              identity.users.documents == old(identity.users.documents))
        && (previous.Ok? ==>
              var delta := ScoreDelta(StatusOf(previous.value), status);
              var author := Author(fetched.value.value);
              && statuses.documents == Overwrite(old(statuses.documents), reportId, StatusDocument(status, timestamp, supervisorId))
              && (delta == 0 || author.None? ==>
                    identity.users.documents == old(identity.users.documents) &&
                    r == Ok(ReportStatus(reportId, status, timestamp, supervisorId)))
              && (delta != 0 && author.Some? ==>
                    var adjusted := MergeIncrement(old(identity.users.documents), author.value, "reputation", delta);
                    && identity.users.documents == adjusted
                    && (SnapshotToUser(author.value, adjusted[author.value], None, now).Err? ==>
                          r == Err(SnapshotToUser(author.value, adjusted[author.value], None, now).error))
                    && (SnapshotToUser(author.value, adjusted[author.value], None, now).Ok? ==>
                          r == Ok(ReportStatus(reportId, status, timestamp, supervisorId)))))
    {
      if fetched.Err? {
        return Err(fetched.error);
      }
      if fetched.value.None? {
        return Err(ReportNotFound(reportId));
      }
      var report := fetched.value.value;
      var previous := statuses.Get(reportId, now);
      if previous.Err? {
        return Err(previous.error);
      }
      var stored := statuses.SetStatus(reportId, status, supervisorId, timestamp);
      var delta := ScoreDelta(StatusOf(previous.value), status);
      var author := Author(report);
      if delta != 0 && author.Some? {
        var adjusted := identity.AdjustReputation(author.value, delta, now);
        if adjusted.Err? {
          return Err(adjusted.error);
        }
      }
      r := stored;
    }

    /** `get_status(report_id)`: the repository's answer, unchanged. */
    method GetStatus(reportId: string, now: Time) returns (r: Result<Option<ReportStatus>, Failure>)
      ensures r == StatusLookup(statuses.documents, reportId, now)
    {
      r := statuses.Get(reportId, now);
    }
  }
}
