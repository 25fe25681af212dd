/** The Firestore-backed store of report moderation statuses
    (back/app/repositories/firebase_report_status.py): one document per
    report, keyed by the report id, holding `status`, `updated_at` and
    `updated_by`. */
module ReportStatusRepository {
  import opened Common
  import opened Firestore
  import opened Schemas

  /** `data.get(name)` fed to a pydantic `Optional[str]` field: absent and
      null give `None`, a string is kept, anything else is refused. */
  function OptionalString(doc: Doc, name: string): (r: Result<Option<string>, Failure>)
    ensures (name !in doc || doc[name] == Null) ==> r == Ok(None)
    ensures name in doc && doc[name].Str? ==> r == Ok(Some(doc[name].stringValue))
    ensures name in doc && !(doc[name].Str? || doc[name] == Null) ==> r == Err(ValidationError(name))
  {
    match Field(doc, name)
    case None => Ok(None)
    case Some(Null) => Ok(None)
    case Some(Str(s)) => Ok(Some(s))
    case Some(_) => Err(ValidationError(name))
  }

  /** `ReportStatusValue(data.get("status", "pending"))`, with ValueError
      caught and turned into pending. */
  function DecodeStatus(doc: Doc): (r: StatusValue)
    ensures "status" !in doc ==> r == Pending
    ensures "status" in doc && doc["status"].Str? && ParseStatus(doc["status"].stringValue).Some? ==>
              r == ParseStatus(doc["status"].stringValue).value
    ensures "status" in doc && (!doc["status"].Str? || ParseStatus(doc["status"].stringValue).None?) ==> r == Pending
  {
    match Field(doc, "status")
    case Some(Str(text)) => ParseStatus(text).GetOr(Pending)
    case _ => Pending
  }

  /** `updated_at`: a stored datetime, else the fallback, else now. */
  function DecodeUpdatedAt(doc: Doc, fallback: Option<Time>, now: Time): (r: Time)
    ensures "updated_at" in doc && doc["updated_at"].Timestamp? ==> r == doc["updated_at"].instant
    ensures !("updated_at" in doc && doc["updated_at"].Timestamp?) ==> r == fallback.GetOr(now)
  {
    match Field(doc, "updated_at")
    case Some(Timestamp(t)) => t
    case _ => fallback.GetOr(now)
  }

  /** `_snapshot_to_status(snapshot, fallback)`. */
  function SnapshotToStatus(id: string, doc: Doc, fallback: Option<Time>, now: Time): (r: Result<ReportStatus, Failure>)
    ensures r.Ok? <==> OptionalString(doc, "updated_by").Ok?
    ensures r.Ok? ==> r.value.reportId == id && r.value.status == DecodeStatus(doc) &&
                      r.value.updatedAt == DecodeUpdatedAt(doc, fallback, now) &&
                      r.value.updatedBy == OptionalString(doc, "updated_by").value
  {
    match OptionalString(doc, "updated_by")
    case Err(e) => Err(e)
    case Ok(updatedBy) => Ok(ReportStatus(id, DecodeStatus(doc), DecodeUpdatedAt(doc, fallback, now), updatedBy))
  }

  /** The document `set_status` writes. */
  function StatusDocument(status: StatusValue, timestamp: Time, supervisorId: Option<string>): Doc {
    map["status" := Str(StatusText(status)), "updated_at" := Timestamp(timestamp),
        "updated_by" := match supervisorId case None => Null case Some(s) => Str(s)]
  }

  /** Reading back a written status gives the same status, timestamp and
      supervisor, whatever the fallback and the clock. */
  lemma StatusRoundTrip(id: string, status: StatusValue, timestamp: Time, supervisorId: Option<string>,
                        fallback: Option<Time>, now: Time)
    ensures SnapshotToStatus(id, StatusDocument(status, timestamp, supervisorId), fallback, now) ==
            Ok(ReportStatus(id, status, timestamp, supervisorId))
  {
    ParseStatusText(status);
  }

  /** An empty document decodes as pending, updated at the fallback (or
      now), by nobody. */
  lemma EmptyDocumentIsPending(id: string, fallback: Option<Time>, now: Time)
    ensures SnapshotToStatus(id, map[], fallback, now) == Ok(ReportStatus(id, Pending, fallback.GetOr(now), None))
  {
  }

  /** What `get(report_id)` answers for a collection. */
  function StatusLookup(documents: Collection, reportId: string, now: Time): (r: Result<Option<ReportStatus>, Failure>)
    ensures reportId !in documents ==> r == Ok(None)
    ensures reportId in documents ==> (r.Ok? <==> SnapshotToStatus(reportId, documents[reportId], None, now).Ok?)
    ensures reportId in documents && r.Ok? ==> r.value == Some(SnapshotToStatus(reportId, documents[reportId], None, now).value)
    ensures reportId in documents && r.Err? ==> r.error == SnapshotToStatus(reportId, documents[reportId], None, now).error
  {
    if reportId !in documents then Ok(None)
    else match SnapshotToStatus(reportId, documents[reportId], None, now)
      case Ok(s) => Ok(Some(s))
      case Err(e) => Err(e)
  }

  /** After `set_status`, `get` reads back exactly the status written: the
      next moderation of the report sees it as the previous status. */
  lemma LookupAfterSet(documents: Collection, reportId: string, status: StatusValue, timestamp: Time,
                       supervisorId: Option<string>, now: Time)
    ensures StatusLookup(Overwrite(documents, reportId, StatusDocument(status, timestamp, supervisorId)), reportId, now)
            == Ok(Some(ReportStatus(reportId, status, timestamp, supervisorId)))
  {
    StatusRoundTrip(reportId, status, timestamp, supervisorId, None, now);
  }

  /** The `report_statuses` collection. */
  class StatusStore {
    var documents: Collection

    constructor(initial: Collection)
      ensures documents == initial
    {
      documents := initial;
    }

    /** `set_status`: overwrite the report's document, without merging, and
        return it as read back. The RuntimeError for a missing document after
        the write cannot happen: the write always leaves the document. */
    method SetStatus(reportId: string, status: StatusValue, supervisorId: Option<string>, timestamp: Time)
      returns (r: Result<ReportStatus, Failure>)
      modifies this
      ensures documents == Overwrite(old(documents), reportId, StatusDocument(status, timestamp, supervisorId))
      ensures r == Ok(ReportStatus(reportId, status, timestamp, supervisorId))
    {
      documents := Overwrite(documents, reportId, StatusDocument(status, timestamp, supervisorId));
      assert reportId in documents;
      StatusRoundTrip(reportId, status, timestamp, supervisorId, Some(timestamp), timestamp);
      r := SnapshotToStatus(reportId, documents[reportId], Some(timestamp), timestamp);
    }

    /** `get`: `None` for a missing document, else the decoded status with
        no fallback. */
    method Get(reportId: string, now: Time) returns (r: Result<Option<ReportStatus>, Failure>)
      ensures reportId !in documents ==> r == Ok(None)
      ensures reportId in documents ==>
        match SnapshotToStatus(reportId, documents[reportId], None, now)
        case Ok(s) => r == Ok(Some(s))
        case Err(e) => r == Err(e)
      ensures r == StatusLookup(documents, reportId, now)
    {
      if reportId !in documents {
        return Ok(None);
      }
      var decoded := SnapshotToStatus(reportId, documents[reportId], None, now);
      match decoded
      case Ok(s) => r := Ok(Some(s));
      case Err(e) => r := Err(e);
    }
  }
}
