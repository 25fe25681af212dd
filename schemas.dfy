/** The pydantic models of the back end (back/app/schemas/): reports, report
    statuses, users and the authentication payload, with the field
    constraints pydantic enforces when an instance is built, and the errors
    the services raise. */
module Schemas {
  import opened Common
  import opened Firestore

  /** Everything the back end raises, by kind. */
  datatype Failure =
    | ValidationError(field: string)        // pydantic refused a field
    | ConversionError(field: string)        // `int(...)` raised
    | RuntimeFailure(message: string)       // RuntimeError
    | ReportNotFound(reportId: string)      // ValueError in set_status
    | TokenValidation(message: string)      // TokenValidationError
    | PhoneNormalization(message: string)   // PhoneNormalizationError
    | HttpError(statusCode: int, detail: string)

  // ------------------------------------------------------------- reports

  datatype GeoPoint = GeoPoint(latitude: real, longitude: real)

  /** `latitude: ge=-90, le=90` and `longitude: ge=-180, le=180`. */
  predicate ValidGeoPoint(p: GeoPoint) {
    -90.0 <= p.latitude <= 90.0 && -180.0 <= p.longitude <= 180.0
  }

  /** Building a `GeoPoint`: the coordinates are checked, latitude first. */
  function MakeGeoPoint(latitude: real, longitude: real): (r: Result<GeoPoint, Failure>)
    ensures r.Ok? <==> ValidGeoPoint(GeoPoint(latitude, longitude))
    ensures r.Ok? ==> r.value == GeoPoint(latitude, longitude)
    ensures !(-90.0 <= latitude <= 90.0) ==> r == Err(ValidationError("latitude"))
  {
    if !(-90.0 <= latitude <= 90.0) then Err(ValidationError("latitude"))
    else if !(-180.0 <= longitude <= 180.0) then Err(ValidationError("longitude"))
    else Ok(GeoPoint(latitude, longitude))
  }

  /** The body of a report submission. */
  datatype ReportCreate = ReportCreate(kind: string, data: map<string, Value>, geoPoint: Option<GeoPoint>)

  predicate ValidReportCreate(p: ReportCreate) {
    |p.kind| >= 1 && (p.geoPoint.Some? ==> ValidGeoPoint(p.geoPoint.value))
  }

  /** Building a `ReportCreate`: `type` is required and non-empty; `data`
      defaults to `{}` and `geo_point` to `None`. */
  function MakeReportCreate(kind: string, data: Option<map<string, Value>>, geoPoint: Option<GeoPoint>)
    : (r: Result<ReportCreate, Failure>)
    ensures r.Ok? <==> |kind| >= 1 && (geoPoint.Some? ==> ValidGeoPoint(geoPoint.value))
    ensures r.Ok? ==> ValidReportCreate(r.value) && r.value.kind == kind && r.value.geoPoint == geoPoint
    ensures r.Ok? && data.None? ==> r.value.data == map[]
    ensures r.Ok? && data.Some? ==> r.value.data == data.value
    ensures |kind| == 0 ==> r == Err(ValidationError("type"))
  {
    if |kind| == 0 then Err(ValidationError("type"))
    else if geoPoint.Some? && !ValidGeoPoint(geoPoint.value) then Err(ValidationError("geo_point"))
    else Ok(ReportCreate(kind, data.GetOr(map[]), geoPoint))
  }

  datatype StatusValue = Pending | Approved | Invalid

  /** `ReportStatusValue.X.value`. */
  function StatusText(s: StatusValue): string {
    match s
    case Pending => "pending"
    case Approved => "approved"
    case Invalid => "invalid"
  }

  /** `ReportStatusValue(text)`: `None` where the enum raises ValueError. */
  function ParseStatus(text: string): (r: Option<StatusValue>)
    ensures r.Some? ==> StatusText(r.value) == text
    ensures (exists s :: StatusText(s) == text) ==> r.Some?
  {
    if text == "pending" then Some(Pending)
    else if text == "approved" then Some(Approved)
    else if text == "invalid" then Some(Invalid)
    else None
  }

  /** The stored text of a status parses back to it. */
  lemma ParseStatusText(s: StatusValue)
    ensures ParseStatus(StatusText(s)) == Some(s)
  {
  }

  datatype ReportStatus = ReportStatus(reportId: string, status: StatusValue, updatedAt: Time, updatedBy: Option<string>)

  /** A stored report: `user_id`, `status` and `updated_at` default to `None`. */
  datatype Report = Report(
    id: string,
    kind: string,
    data: map<string, Value>,
    geoPoint: Option<GeoPoint>,
    userId: Option<string>,
    status: Option<ReportStatus>,
    createdAt: Time,
    updatedAt: Option<Time>)

  /** `Report(id=…, type=…, data=…, geo_point=…, reporter_id=…, created_at=…,
      updated_at=…)`: `Report` declares no `reporter_id` and pydantic drops
      unknown keywords, so the reporter is lost and `user_id` and `status`
      keep their `None` defaults. */
  function MakeReport(id: string, kind: string, data: map<string, Value>, geoPoint: Option<GeoPoint>,
                      reporterId: Option<string>, createdAt: Time, updatedAt: Option<Time>): (r: Report)
    ensures r.userId == None && r.status == None
    ensures r.id == id && r.kind == kind && r.data == data && r.geoPoint == geoPoint
    ensures r.createdAt == createdAt && r.updatedAt == updatedAt
  {
    Report(id, kind, data, geoPoint, None, None, createdAt, updatedAt)
  }

  // ---------------------------------------------------------------- users

  datatype AppUser = AppUser(
    id: string,
    phoneHash: string,
    reputation: int,
    createdAt: Time,
    lastSeenAt: Time,
    tokenVersion: int)

  /** `token_version: ge=1`. */
  predicate ValidAppUser(u: AppUser) {
    u.tokenVersion >= 1
  }

  /** The response of a phone login; `token_type` defaults to "bearer". */
  datatype AuthPayload = AuthPayload(accessToken: string, tokenType: string, expiresAt: Time, user: AppUser)

  const DefaultTokenType: string := "bearer"
}
