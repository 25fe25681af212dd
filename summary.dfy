/** The summary step of the report form (front-native/app/report/summary.tsx):
    the list of answers shown before sending, the payload sent to the back
    end, and the submission state. */
module Summary {
  import opened Common
  import opened FormContext
  import opened TimeReport
  import opened LocationReport

  /** One line of the summary. */
  datatype SummaryItem = SummaryItem(name: string, value: string)

  /** `DEFAULT_SUMMARY_ITEMS`. */
  const DefaultSummaryItems: seq<SummaryItem> := [
    SummaryItem("Lokalizacja", "obok mnie"),
    SummaryItem("Zdarzenie", "ludzie uzbrojeni"),
    SummaryItem("Kiedy", "teraz"),
    SummaryItem("Co widziales", "uzbrojeni zolnierze")
  ]

  /** The number and JSON formatting the screen calls: `toFixed(5)` and
      `JSON.stringify`. */
  datatype Formatters = Formatters(fixed5: real -> string, stringify: JsValue -> string)

  /** `point.latitude.toFixed(5)` and the same for the longitude, which only
      succeed on an object with two numbers (anything else throws and shows
      "Brak"). */
  function CoordinateText(fmt: Formatters, v: JsValue): (r: string)
    ensures v.JObject? && Lookup(v.entries, "latitude").Some? && Lookup(v.entries, "latitude").value.JNumber? &&
            Lookup(v.entries, "longitude").Some? && Lookup(v.entries, "longitude").value.JNumber? ==>
              r == fmt.fixed5(Lookup(v.entries, "latitude").value.numberValue) + ", " +
                   fmt.fixed5(Lookup(v.entries, "longitude").value.numberValue)
    ensures !v.JObject? ==> r == "Brak"
    ensures v.JObject? && !(Lookup(v.entries, "latitude").Some? && Lookup(v.entries, "latitude").value.JNumber? &&
                            Lookup(v.entries, "longitude").Some? && Lookup(v.entries, "longitude").value.JNumber?) ==>
              r == "Brak"
  {
    match v
    case JObject(entries) =>
      (match (Lookup(entries, "latitude"), Lookup(entries, "longitude"))
       case (Some(JNumber(lat)), Some(JNumber(lng))) => fmt.fixed5(lat) + ", " + fmt.fixed5(lng)
       case _ => "Brak")
    case _ => "Brak"
  }

  /** The summary line of one data entry. */
  function SummaryItemOf(fmt: Formatters, key: string, v: JsValue): (r: SummaryItem)
    ensures key == "time" ==> r.name == "Czas"
    ensures key == "evidence" ==> r == SummaryItem("Dowody", if Truthy(v) then "Dodano zdjecie" else "Brak")
    ensures key == "locationMode" ==> r == SummaryItem("Lokacja", if v == JString("manual") then "Wybrana recznie" else "Obok mnie")
    ensures key == "locationCoordinates" && !Truthy(v) ==> r == SummaryItem("Koordynaty", "Brak")
    ensures key == "locationCoordinates" && Truthy(v) ==> r == SummaryItem("Koordynaty", CoordinateText(fmt, v))
    ensures key !in {"time", "evidence", "locationMode", "locationCoordinates"} ==> r == SummaryItem(key, fmt.stringify(v))
  {
    if key == "time" then
      var found := FindOption(TimeOptions, v);
      SummaryItem("Czas", if found.Some? && found.value.labelText != "" then found.value.labelText else "Now")
    else if key == "evidence" then SummaryItem("Dowody", if Truthy(v) then "Dodano zdjecie" else "Brak")
    else if key == "locationMode" then SummaryItem("Lokacja", if v == JString("manual") then "Wybrana recznie" else "Obok mnie")
    else if key == "locationCoordinates" then
      if !Truthy(v) then SummaryItem("Koordynaty", "Brak") else SummaryItem("Koordynaty", CoordinateText(fmt, v))
    else SummaryItem(key, fmt.stringify(v))
  }

  /** `makeSummaryItems`: one line per data entry, in entry order; the
      default lines when there is no entry. */
  function MakeSummaryItems(fmt: Formatters, form: FormData): (r: seq<SummaryItem>)
    ensures |form.data.GetOr([])| == 0 ==> r == DefaultSummaryItems
    ensures |form.data.GetOr([])| > 0 ==> |r| == |form.data.GetOr([])|
    ensures |form.data.GetOr([])| > 0 ==> forall i :: 0 <= i < |r| ==>
              r[i] == SummaryItemOf(fmt, form.data.GetOr([])[i].key, form.data.GetOr([])[i].value)
  {
    var entries := form.data.GetOr([]);
    var items := seq(|entries|, i requires 0 <= i < |entries| => SummaryItemOf(fmt, entries[i].key, entries[i].value));
    if |items| > 0 then items else DefaultSummaryItems
  }

  /** A found key sits at some position of the record. */
  lemma {:induction false} LookupAt(rec: Record, key: string)
    requires Lookup(rec, key).Some?
    ensures exists i :: 0 <= i < |rec| && rec[i] == Entry(key, Lookup(rec, key).value)
  {
    if rec[0].key != key {
      LookupAt(rec[1..], key);
      var i :| 0 <= i < |rec[1..]| && rec[1..][i] == Entry(key, Lookup(rec[1..], key).value);
      assert rec[i + 1] == rec[1..][i];
    }
  }

  /** A stored time shows its option's label; anything else shows "Now". */
  lemma TimeLineShowsLabel(fmt: Formatters, time: TimeOptionValue, other: JsValue)
    requires forall o :: o in TimeOptions ==> JString(ValueText(o.value)) != other
    ensures exists o :: o in TimeOptions && o.value == time &&
                        SummaryItemOf(fmt, "time", JString(ValueText(time))) == SummaryItem("Czas", o.labelText)
    ensures SummaryItemOf(fmt, "time", other) == SummaryItem("Czas", "Now")
  {
    FindEachOption(time);
    TimeOptionsShape();
    var o := FindOption(TimeOptions, JString(ValueText(time))).value;
    assert o in TimeOptions && o.value == time;
    assert FindOption(TimeOptions, other).None?;
  }

  /** Whatever the form held, the summary after the time step has a line
      with the chosen option's label. */
  lemma SummaryShowsChosenTime(fmt: Formatters, current: FormData, time: TimeOptionValue)
    ensures var items := MakeSummaryItems(fmt, Merge(current, ContinuePatch(current, time)));
      exists i, o :: 0 <= i < |items| && o in TimeOptions && o.value == time && items[i] == SummaryItem("Czas", o.labelText)
  {
    var next := Merge(current, ContinuePatch(current, time));
    ContinueRecordsTime(current, time);
    LookupAt(next.data.value, "time");
    var i :| 0 <= i < |next.data.value| && next.data.value[i] == Entry("time", JString(ValueText(time)));
    TimeLineShowsLabel(fmt, time, JNull);
    var o :| o in TimeOptions && o.value == time &&
             SummaryItemOf(fmt, "time", JString(ValueText(time))) == SummaryItem("Czas", o.labelText);
    assert MakeSummaryItems(fmt, next)[i] == SummaryItem("Czas", o.labelText);
  }

  /** A point chosen by hand shows as its two formatted numbers; "nearby"
      shows "Obok mnie" and no coordinates. */
  lemma CoordinateLines(fmt: Formatters, c: Coordinate)
    ensures SummaryItemOf(fmt, "locationCoordinates", CoordinateValue(c)) ==
            SummaryItem("Koordynaty", fmt.fixed5(c.latitude) + ", " + fmt.fixed5(c.longitude))
    ensures SummaryItemOf(fmt, "locationMode", JString("manual")) == SummaryItem("Lokacja", "Wybrana recznie")
    ensures SummaryItemOf(fmt, "locationMode", JString("nearby")) == SummaryItem("Lokacja", "Obok mnie")
    ensures SummaryItemOf(fmt, "locationCoordinates", JNull) == SummaryItem("Koordynaty", "Brak")
  {
    assert JString("nearby") != JString("manual") by {
      assert "nearby"[0] != "manual"[0];
    }
  }

  // --------------------------------------------------------------- payload

  /** The payload `type`: the category's colour. */
  function PayloadType(category: string): (r: string)
    ensures category == "Ludzie uzbrojeni" ==> r == "red"
    ensures category == "Drony" ==> r == "orange"
    ensures category == "Other" ==> r == "gray"
    ensures category !in {"Ludzie uzbrojeni", "Drony", "Other"} ==> r == "yellow"
    ensures r in {"red", "orange", "gray", "yellow"}
  {
    if category == "Ludzie uzbrojeni" then "red"
    else if category == "Drony" then "orange"
    else if category == "Other" then "gray"
    else "yellow"
  }

  /** The JSON body posted to the back end; `None` for an absent geo point. */
  datatype ReportPayload = ReportPayload(kind: string, data: Record, geoPoint: Option<JsValue>)

  /** The payload of `handleSubmit`; `converted` is what converting the
      evidence file resolved to (`None` when it failed). It is only tried
      when the form has data. */
  function BuildPayload(form: FormData, converted: Option<JsValue>): (r: ReportPayload)
    ensures r.kind == PayloadType(form.category)
    ensures Lookup(r.data, "evidence") == Some(if form.data.Some? && converted.Some? then converted.value else JNull)
    ensures forall k :: k != "evidence" ==> Lookup(r.data, k) == Lookup(form.data.GetOr([]), k)
    ensures form.data.None? ==> r.geoPoint.None?
    ensures form.data.Some? ==> r.geoPoint == Lookup(form.data.value, "locationCoordinates")
  {
    var image := if form.data.Some? && converted.Some? then converted.value else JNull;
    ReportPayload(PayloadType(form.category), Assign(form.data.GetOr([]), "evidence", image),
                  if form.data.Some? then Lookup(form.data.value, "locationCoordinates") else None)
  }

  /** A point confirmed on the location step is the payload's geo point. */
  lemma PayloadCarriesPoint(current: FormData, c: Coordinate, converted: Option<JsValue>)
    ensures BuildPayload(Merge(current, ManualPatch(current, c)), converted).geoPoint == Some(CoordinateValue(c))
  {
    ManualRecordsCoordinate(current, c);
  }

  // ------------------------------------------------------------ submission

  datatype SubmissionState = Idle | Loading | Success | Failed

  /** How the request ended: a response (ok or not), or an error or the
      time-out. */
  datatype SubmitOutcome = Responded(ok: bool) | RequestFailed

  /** The state a submission settles in. */
  function Settled(outcome: SubmitOutcome): (r: SubmissionState)
    ensures r == Success <==> outcome == Responded(true)
    ensures r != Success ==> r == Failed
  {
    if outcome == Responded(true) then Success else Failed
  }

  /** The screen's submission cells; `sent` lists the payloads posted. */
  class SummaryScreen {
    var submissionState: SubmissionState
    var overlayVisible: bool
    var sent: seq<ReportPayload>

    constructor()
      ensures submissionState == Idle && !overlayVisible && sent == []
    {
      submissionState := Idle;
      overlayVisible := false;
      sent := [];
    }

    /** The first half of `handleSubmit`: ignored while loading; otherwise
        the overlay shows, the state is loading and the payload is posted. */
    method BeginSubmit(form: FormData, converted: Option<JsValue>) returns (started: bool)
      modifies this
      ensures started <==> old(submissionState) != Loading
      ensures !started ==> submissionState == old(submissionState) && overlayVisible == old(overlayVisible) && sent == old(sent)
      ensures started ==> submissionState == Loading && overlayVisible && sent == old(sent) + [BuildPayload(form, converted)]
    {
      if submissionState == Loading {
        return false;
      }
      overlayVisible := true;
      submissionState := Loading;
      sent := sent + [BuildPayload(form, converted)];
      started := true;
    }

    /** The second half: the request's outcome settles the state. */
    method FinishSubmit(outcome: SubmitOutcome)
      modifies this
      ensures submissionState == Settled(outcome)
      ensures overlayVisible == old(overlayVisible) && sent == old(sent)
    {
      submissionState := Settled(outcome);
    }
  }
}
