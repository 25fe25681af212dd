/** The Firestore-backed store of reports
    (back/app/repositories/firebase_reports.py): GeoPoint conversion, the
    snapshot decoder, creation under a generated id with server timestamps,
    the listing ordered by `created_at` descending, and `get` as the
    repository protocol declares it (back/app/repositories/protocols.py). */
module ReportsRepository {
  import opened Common
  import opened Firestore
  import opened Schemas

  /** `_serialize_geo_point`: a point becomes a Firestore GeoPoint, `None`
      stays null. */
  function SerializeGeoPoint(p: Option<GeoPoint>): (r: Value)
    ensures p.None? ==> r == Null
    ensures p.Some? ==> r.Geo?
  {
    match p
    case None => Null
    case Some(g) => Geo(g.latitude, g.longitude)
  }

  /** `_deserialize_geo_point`: a Firestore GeoPoint becomes a validated
      `GeoPoint`; any other value gives `None`. */
  function DeserializeGeoPoint(v: Option<Value>): (r: Result<Option<GeoPoint>, Failure>)
    ensures (v.None? || !v.value.Geo?) ==> r == Ok(None)
    ensures v.Some? && v.value.Geo? ==>
      (r.Ok? <==> ValidGeoPoint(GeoPoint(v.value.latitude, v.value.longitude))) &&
      (r.Ok? ==> r.value == Some(GeoPoint(v.value.latitude, v.value.longitude)))
  {
    match v
    case Some(Geo(latitude, longitude)) =>
      (match MakeGeoPoint(latitude, longitude)
       case Err(e) => Err(e)
       case Ok(g) => Ok(Some(g)))
    case _ => Ok(None)
  }

  /** Serialising then deserialising a valid point gives it back. */
  lemma GeoPointRoundTrip(p: Option<GeoPoint>)
    requires p.Some? ==> ValidGeoPoint(p.value)
    ensures DeserializeGeoPoint(Some(SerializeGeoPoint(p))) == Ok(p)
  {
  }

  /** `data.get("type", "")` fed to the `str` field. */
  function KindField(doc: Doc): (r: Result<string, Failure>)
    ensures "type" !in doc ==> r == Ok("")
    ensures "type" in doc ==> (r.Ok? <==> doc["type"].Str?) && (r.Ok? ==> r.value == doc["type"].stringValue)
  {
    match Field(doc, "type")
    case None => Ok("")
    case Some(Str(s)) => Ok(s)
    case Some(_) => Err(ValidationError("type"))
  }

  /** `data.get("data", {})` fed to the `dict` field. */
  function DataField(doc: Doc): (r: Result<map<string, Value>, Failure>)
    ensures "data" !in doc ==> r == Ok(map[])
    ensures "data" in doc ==> (r.Ok? <==> doc["data"].Record?) && (r.Ok? ==> r.value == doc["data"].fields)
  {
    match Field(doc, "data")
    case None => Ok(map[])
    case Some(Record(m)) => Ok(m)
    case Some(_) => Err(ValidationError("data"))
  }

  /** `data.get("reporter_id")`. */
  function ReporterField(doc: Doc): Option<string> {
    match Field(doc, "reporter_id")
    case Some(Str(s)) => Some(s)
    case _ => None
  }

  /** `_snapshot_to_report(snapshot)`: `created_at` that is not a datetime
      becomes now, `updated_at` that is not a datetime becomes `None`; the
      reporter is handed over as `reporter_id` and lost. The geopoint is
      converted while the arguments are built, so its error comes before
      those of `Report`'s own fields. */
  function SnapshotToReport(id: string, doc: Doc, now: Time): (r: Result<Report, Failure>)
    ensures r.Ok? <==> KindField(doc).Ok? && DataField(doc).Ok? && DeserializeGeoPoint(Field(doc, "geo_point")).Ok?
    ensures DeserializeGeoPoint(Field(doc, "geo_point")).Err? ==> r == Err(DeserializeGeoPoint(Field(doc, "geo_point")).error)
    ensures DeserializeGeoPoint(Field(doc, "geo_point")).Ok? && KindField(doc).Err? ==> r == Err(KindField(doc).error)
    ensures r.Ok? ==> && r.value.id == id
                      && r.value.kind == KindField(doc).value
                      && r.value.data == DataField(doc).value
                      && r.value.geoPoint == DeserializeGeoPoint(Field(doc, "geo_point")).value
                      && r.value.userId == None && r.value.status == None
    ensures r.Ok? ==> r.value.createdAt == if "created_at" in doc && doc["created_at"].Timestamp? then doc["created_at"].instant else now
    ensures r.Ok? ==> r.value.updatedAt == if "updated_at" in doc && doc["updated_at"].Timestamp? then Some(doc["updated_at"].instant) else None
  {
    var createdAt := match Field(doc, "created_at") case Some(Timestamp(t)) => t case _ => now;
    var updatedAt := match Field(doc, "updated_at") case Some(Timestamp(t)) => Some(t) case _ => None;
    match DeserializeGeoPoint(Field(doc, "geo_point"))
    case Err(e) => Err(e)
    case Ok(geoPoint) =>
      match KindField(doc)
      case Err(e) => Err(e)
      case Ok(kind) =>
        match DataField(doc)
        case Err(e) => Err(e)
        case Ok(data) => Ok(MakeReport(id, kind, data, geoPoint, ReporterField(doc), createdAt, updatedAt))
  }

  /** The document `create` writes; both timestamps are the server time. */
  function NewReportDocument(payload: ReportCreate, reporterId: Option<string>, serverTime: Time): Doc {
    map["type" := Str(payload.kind), "data" := Record(payload.data), "geo_point" := SerializeGeoPoint(payload.geoPoint),
        "reporter_id" := (match reporterId case None => Null case Some(s) => Str(s)),
        "created_at" := Timestamp(serverTime), "updated_at" := Timestamp(serverTime)]
  }

  /** A created report reads back with the payload's fields, both times at
      the server time, and no user id even when a reporter was given. */
  lemma CreatedReportRoundTrip(id: string, payload: ReportCreate, reporterId: Option<string>, serverTime: Time, now: Time)
    requires ValidReportCreate(payload)
    ensures SnapshotToReport(id, NewReportDocument(payload, reporterId, serverTime), now) ==
            Ok(Report(id, payload.kind, payload.data, payload.geoPoint, None, None, serverTime, Some(serverTime)))
  {
    GeoPointRoundTrip(payload.geoPoint);
  }

  // -------------------------------------------------------------- listing

  /** The documents `order_by("created_at")` returns: every one that has
      the field, whatever value it holds, with that value. */
  function CreationKeys(documents: Collection): (r: map<string, Value>)
    ensures forall id :: id in r <==> id in documents && "created_at" in documents[id]
    ensures forall id :: id in r ==> r[id] == documents[id]["created_at"]
  {
    map id | id in documents && "created_at" in documents[id] :: documents[id]["created_at"]
  }

  /** Ids in descending Firestore order of their keys. */
  ghost predicate Descending(ids: seq<string>, keys: map<string, Value>)
    requires forall i :: 0 <= i < |ids| ==> ids[i] in keys
  {
    forall i, j :: 0 <= i < j < |ids| ==> ValueAtMost(keys[ids[j]], keys[ids[i]])
  }

  ghost predicate Distinct(ids: seq<string>) {
    forall i, j :: 0 <= i < j < |ids| ==> ids[i] != ids[j]
  }

  /** Insert `id` before the first id whose key sorts strictly lower. */
  function InsertDescending(ids: seq<string>, id: string, keys: map<string, Value>): (r: seq<string>)
    requires id in keys && forall i :: 0 <= i < |ids| ==> ids[i] in keys
    ensures |r| == |ids| + 1
    ensures forall x :: x in r <==> x in ids || x == id
    ensures forall i :: 0 <= i < |r| ==> r[i] in keys
  {
    if |ids| == 0 then [id]
    else if !ValueAtMost(keys[id], keys[ids[0]]) then [id] + ids
    else [ids[0]] + InsertDescending(ids[1..], id, keys)
  }

  /** A key that sorts above the first of a descending sequence sorts
      above all of it. */
  lemma AboveFirstIsAboveAll(ids: seq<string>, id: string, keys: map<string, Value>)
    requires id in keys && forall i :: 0 <= i < |ids| ==> ids[i] in keys
    requires Descending(ids, keys) && |ids| > 0 && !ValueAtMost(keys[id], keys[ids[0]])
    ensures forall k :: 0 <= k < |ids| ==> ValueAtMost(keys[ids[k]], keys[id])
  {
    ValueOrderTotal(keys[id], keys[ids[0]]);
    forall k | 0 <= k < |ids|
      ensures ValueAtMost(keys[ids[k]], keys[id])
    {
      if k > 0 {
        ValueOrderTransitive(keys[ids[k]], keys[ids[0]], keys[id]);
      }
    }
  }

  /** Insertion keeps the order descending. */
  lemma {:induction false} InsertKeepsOrder(ids: seq<string>, id: string, keys: map<string, Value>)
    requires id in keys && forall i :: 0 <= i < |ids| ==> ids[i] in keys
    requires Descending(ids, keys)
    ensures Descending(InsertDescending(ids, id, keys), keys)
  {
    if |ids| > 0 {
      if !ValueAtMost(keys[id], keys[ids[0]]) {
        AboveFirstIsAboveAll(ids, id, keys);
        var r := [id] + ids;
        assert InsertDescending(ids, id, keys) == r;
        forall i, j | 0 <= i < j < |r|
          ensures ValueAtMost(keys[r[j]], keys[r[i]])
        {
          assert r[j] == ids[j - 1];
          if i > 0 {
            assert r[i] == ids[i - 1];
          }
        }
      } else {
        var rest := ids[1..];
        InsertKeepsOrder(rest, id, keys);
        var tail := InsertDescending(rest, id, keys);
        assert InsertDescending(ids, id, keys) == [ids[0]] + tail;
        forall j | 0 <= j < |tail|
          ensures ValueAtMost(keys[tail[j]], keys[ids[0]])
        {
          assert tail[j] in tail;
          if tail[j] != id {
            var k :| 0 <= k < |rest| && rest[k] == tail[j];
            assert ids[k + 1] == tail[j];
          }
        }
      }
    }
  }

  /** Inserting a new id keeps the ids distinct. */
  lemma {:induction false} InsertKeepsDistinct(ids: seq<string>, id: string, keys: map<string, Value>)
    requires id in keys && forall i :: 0 <= i < |ids| ==> ids[i] in keys
    requires Distinct(ids) && id !in ids
    ensures Distinct(InsertDescending(ids, id, keys))
  {
    if |ids| > 0 && ValueAtMost(keys[id], keys[ids[0]]) {
      var rest := ids[1..];
      assert forall x :: x in rest ==> x in ids;
      InsertKeepsDistinct(rest, id, keys);
      var tail := InsertDescending(rest, id, keys);
      assert InsertDescending(ids, id, keys) == [ids[0]] + tail;
      forall j | 0 <= j < |tail|
        ensures ids[0] != tail[j]
      {
        assert tail[j] in tail;
        if tail[j] != id {
          var k :| 0 <= k < |rest| && rest[k] == tail[j];
          assert ids[k + 1] == tail[j];
        }
      }
    }
  }

  /** Reports decoded from descending ids come in descending order of
      their stored `created_at`: type ranks never rise (strings before
      timestamps before numbers, booleans and nulls), and the timestamped
      reports are latest first. */
  lemma ListingOrder(ids: seq<string>, reports: seq<Report>, documents: Collection, now: Time)
    requires forall i :: 0 <= i < |ids| ==> ids[i] in CreationKeys(documents)
    requires Descending(ids, CreationKeys(documents)) && |reports| == |ids|
    requires forall k :: 0 <= k < |ids| ==>
      reports[k].id == ids[k] && SnapshotToReport(ids[k], documents[ids[k]], now) == Ok(reports[k])
    ensures forall i, j :: 0 <= i < j < |reports| ==>
      ValueAtMost(CreationKeys(documents)[reports[j].id], CreationKeys(documents)[reports[i].id])
    ensures forall i, j :: 0 <= i < j < |reports| ==>
      TypeRank(CreationKeys(documents)[reports[i].id]) >= TypeRank(CreationKeys(documents)[reports[j].id])
    ensures forall i, j :: 0 <= i < j < |reports| && CreationKeys(documents)[reports[i].id].Timestamp?
                           && CreationKeys(documents)[reports[j].id].Timestamp? ==>
      reports[i].createdAt >= reports[j].createdAt
  {
    var keys := CreationKeys(documents);
    forall i, j | 0 <= i < j < |reports|
      ensures ValueAtMost(keys[reports[j].id], keys[reports[i].id])
      ensures TypeRank(keys[reports[i].id]) >= TypeRank(keys[reports[j].id])
    {
      assert ValueAtMost(keys[ids[j]], keys[ids[i]]);
    }
    forall i, j | 0 <= i < j < |reports| && keys[reports[i].id].Timestamp? && keys[reports[j].id].Timestamp?
      ensures reports[i].createdAt >= reports[j].createdAt
    {
      assert SnapshotToReport(ids[i], documents[ids[i]], now) == Ok(reports[i]);
      assert SnapshotToReport(ids[j], documents[ids[j]], now) == Ok(reports[j]);
      TimestampOrder(keys[ids[j]].instant, keys[ids[i]]);
    }
  }

  /** Every document whose `created_at` sorts strictly above that of `id`,
      and so is listed before it, decodes. */
  ghost predicate FailsFirst(documents: Collection, id: string, now: Time)
    requires id in CreationKeys(documents)
  {
    forall other :: other in CreationKeys(documents) && !ValueAtMost(CreationKeys(documents)[other], CreationKeys(documents)[id]) ==>
      SnapshotToReport(other, documents[other], now).Ok?
  }

  /** The first document of the query that does not decode is preceded
      only by documents that decode, and every document sorting strictly
      above it is among those. */
  lemma FirstFailureFailsFirst(ids: seq<string>, k: nat, documents: Collection, now: Time)
    requires forall i :: 0 <= i < |ids| ==> ids[i] in CreationKeys(documents)
    requires forall id :: id in CreationKeys(documents) ==> id in ids
    requires Descending(ids, CreationKeys(documents)) && k < |ids|
    requires forall m :: 0 <= m < k ==> SnapshotToReport(ids[m], documents[ids[m]], now).Ok?
    ensures FailsFirst(documents, ids[k], now)
  {
    var keys := CreationKeys(documents);
    ValueOrderTotal(keys[ids[k]], keys[ids[k]]);
    assert forall m :: k <= m < |ids| ==> ValueAtMost(keys[ids[m]], keys[ids[k]]);
    forall other | other in keys && !ValueAtMost(keys[other], keys[ids[k]])
      ensures SnapshotToReport(other, documents[other], now).Ok?
    {
      var m :| 0 <= m < |ids| && ids[m] == other;
    }
  }

  /** The `reports` collection. */
  class ReportStore {
    var documents: Collection

    constructor(initial: Collection)
      ensures documents == initial
    {
      documents := initial;
    }

    /** `create(payload, reporter_id)`: write the report under the id
        Firestore generates, with both timestamps at the server time, and
        return it as read back. */
    method Create(payload: ReportCreate, reporterId: Option<string>, newId: string, serverTime: Time, now: Time)
      returns (r: Result<Report, Failure>)
      modifies this
      ensures documents == Overwrite(old(documents), newId, NewReportDocument(payload, reporterId, serverTime))
      ensures r == SnapshotToReport(newId, NewReportDocument(payload, reporterId, serverTime), now)
      ensures ValidReportCreate(payload) ==>
        r == Ok(Report(newId, payload.kind, payload.data, payload.geoPoint, None, None, serverTime, Some(serverTime)))
    {
      documents := Overwrite(documents, newId, NewReportDocument(payload, reporterId, serverTime));
      assert newId in documents;
      if ValidReportCreate(payload) {
        CreatedReportRoundTrip(newId, payload, reporterId, serverTime, now);
      }
      r := SnapshotToReport(newId, documents[newId], now);
    }

    /** `get(report_id)` as the repository protocol declares it. */
    method Get(reportId: string, now: Time) returns (r: Result<Option<Report>, Failure>)
      ensures reportId !in documents ==> r == Ok(None)
      ensures reportId in documents ==> (r.Ok? <==> SnapshotToReport(reportId, documents[reportId], now).Ok?)
      ensures reportId in documents && r.Ok? ==> r.value == Some(SnapshotToReport(reportId, documents[reportId], now).value)
    {
      if reportId !in documents {
        return Ok(None);
      }
      match SnapshotToReport(reportId, documents[reportId], now)
      case Err(e) => r := Err(e);
      case Ok(report) => r := Ok(Some(report));
    }

    /** The query `order_by("created_at", DESCENDING)`: every document
        that has a `created_at`, once each, in descending Firestore order
        of that value. */
    method QueryByCreation() returns (ids: seq<string>)
      ensures forall i :: 0 <= i < |ids| ==> ids[i] in CreationKeys(documents)
      ensures forall id :: id in CreationKeys(documents) <==> id in ids
      ensures Distinct(ids) && Descending(ids, CreationKeys(documents))
    {
      var keys := CreationKeys(documents);
      var remaining := keys.Keys;
      ids := [];
      while remaining != {}
        invariant remaining <= keys.Keys
        invariant forall i :: 0 <= i < |ids| ==> ids[i] in keys
        invariant forall id :: id in keys ==> (id in ids <==> id !in remaining)
        invariant Distinct(ids) && Descending(ids, keys)
        decreases |remaining|
      {
        var id :| id in remaining;
        InsertKeepsOrder(ids, id, keys);
        InsertKeepsDistinct(ids, id, keys);
        ids := InsertDescending(ids, id, keys);
        remaining := remaining - {id};
      }
    }

    /** `list()`: the query's documents decoded in order; a document that
        fails to decode raises. Reports come in descending order of their
        stored `created_at`: by type rank first, the timestamped ones latest
        first; one whose `created_at` is not a timestamp is dated `now`. */
    method List(now: Time) returns (r: Result<seq<Report>, Failure>)
      ensures r.Err? <==> exists id :: id in CreationKeys(documents) && SnapshotToReport(id, documents[id], now).Err?
      ensures r.Err? ==> exists id :: && id in CreationKeys(documents)
                                      && SnapshotToReport(id, documents[id], now) == Err(r.error)
                                      && FailsFirst(documents, id, now)
      ensures r.Ok? ==> forall id :: id in CreationKeys(documents) <==> exists i :: 0 <= i < |r.value| && r.value[i].id == id
      ensures r.Ok? ==> forall i, j :: 0 <= i < j < |r.value| ==> r.value[i].id != r.value[j].id
      ensures r.Ok? ==> forall i :: 0 <= i < |r.value| ==>
        r.value[i].id in documents && SnapshotToReport(r.value[i].id, documents[r.value[i].id], now) == Ok(r.value[i])
      ensures r.Ok? ==> forall i, j :: 0 <= i < j < |r.value| ==>
        ValueAtMost(CreationKeys(documents)[r.value[j].id], CreationKeys(documents)[r.value[i].id])
      ensures r.Ok? ==> forall i, j :: 0 <= i < j < |r.value| ==>
        TypeRank(CreationKeys(documents)[r.value[i].id]) >= TypeRank(CreationKeys(documents)[r.value[j].id])
      ensures r.Ok? ==> forall i, j :: 0 <= i < j < |r.value| && CreationKeys(documents)[r.value[i].id].Timestamp?
                                       && CreationKeys(documents)[r.value[j].id].Timestamp? ==>
        r.value[i].createdAt >= r.value[j].createdAt
    {
      var ids := QueryByCreation();
      r := DecodeAll(ids, now);
      if r.Ok? {
        var reports := r.value;
        forall id | id in CreationKeys(documents)
          ensures exists i :: 0 <= i < |reports| && reports[i].id == id
        {
          var k :| 0 <= k < |ids| && ids[k] == id;
          assert reports[k].id == id;
        }
        ListingOrder(ids, reports, documents, now);
      } else {
        var k :| && 0 <= k < |ids| && SnapshotToReport(ids[k], documents[ids[k]], now) == Err(r.error)
                 && forall m :: 0 <= m < k ==> SnapshotToReport(ids[m], documents[ids[m]], now).Ok?;
        FirstFailureFailsFirst(ids, k, documents, now);
      }
    }

    /** `[_snapshot_to_report(snapshot) for snapshot in snapshots]`: the
        documents decoded in the given order, or the first decoding error. */
    method DecodeAll(ids: seq<string>, now: Time) returns (r: Result<seq<Report>, Failure>)
      requires forall i :: 0 <= i < |ids| ==> ids[i] in documents
      ensures r.Ok? ==> |r.value| == |ids| && forall k :: 0 <= k < |ids| ==>
        r.value[k].id == ids[k] && SnapshotToReport(ids[k], documents[ids[k]], now) == Ok(r.value[k])
      ensures r.Err? <==> exists k :: 0 <= k < |ids| && SnapshotToReport(ids[k], documents[ids[k]], now).Err?
      ensures r.Err? ==> exists k :: 0 <= k < |ids| && SnapshotToReport(ids[k], documents[ids[k]], now) == Err(r.error)
                                  && forall m :: 0 <= m < k ==> SnapshotToReport(ids[m], documents[ids[m]], now).Ok?
    {
      var reports: seq<Report> := [];
      for i := 0 to |ids|
        invariant |reports| == i
        invariant forall k :: 0 <= k < i ==>
          reports[k].id == ids[k] && SnapshotToReport(ids[k], documents[ids[k]], now) == Ok(reports[k])
      {
        match SnapshotToReport(ids[i], documents[ids[i]], now)
        case Err(e) =>
          return Err(e);
        case Ok(report) =>
          reports := reports + [report];
      }
      r := Ok(reports);
    }
  }
}
