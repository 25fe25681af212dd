/** The location step of the report form on phones
    (front-native/components/categoryComponets/LocationReportComponet.native.tsx):
    "near me", or a manually chosen point, picked on the map or typed in as
    latitude and longitude when no map component is available. */
module LocationReport {
  import opened Common
  import opened FormContext

  const InvalidCoordinates: string := "Wprowad\U{17A} poprawne wsp\U{F3}\U{142}rz\U{119}dne."

  datatype Coordinate = Coordinate(latitude: real, longitude: real)

  /** The coordinate as the object stored in the form. */
  function CoordinateValue(c: Coordinate): (r: JsValue)
    ensures r.JObject? && Lookup(r.entries, "latitude") == Some(JNumber(c.latitude))
    ensures Lookup(r.entries, "longitude") == Some(JNumber(c.longitude))
  {
    JObject([Entry("latitude", JNumber(c.latitude)), Entry("longitude", JNumber(c.longitude))])
  }

  /** `s.replace(from, to)` with a one-character pattern: only the first
      occurrence changes. */
  function ReplaceFirst(s: string, from: char, to: char): (r: string)
    ensures |r| == |s|
    ensures from !in s ==> r == s
    ensures from in s ==> var i := FirstIndex(s, from).value;
      r[i] == to && forall k :: 0 <= k < |s| && k != i ==> r[k] == s[k]
  {
    match FirstIndex(s, from)
    case None => s
    case Some(i) => s[..i] + [to] + s[i + 1..]
  }

  /** With a decimal comma, "52,5" reads as "52.5"; in "1,2,3" the second
      comma survives. */
  lemma ReplaceFirstDecimalComma()
    ensures ReplaceFirst("52,5", ',', '.') == "52.5"
    ensures ReplaceFirst("1,2,3", ',', '.') == "1.2,3"
  {
    assert "52,5"[2] == ',' && "52,5"[..2] == "52";
    assert "1,2,3"[1] == ',' && "1,2,3"[..1] == "1";
  }

  /** The coordinate typed in: both fields must read as finite numbers
      (`Number.isFinite(parseFloat(...))`), after the first comma of each
      becomes a point. */
  function CoordinateFromInput(parseFinite: string -> Option<real>, latitudeText: string, longitudeText: string)
    : (r: Option<Coordinate>)
    ensures r.Some? <==> (parseFinite(ReplaceFirst(latitudeText, ',', '.')).Some? &&
                         parseFinite(ReplaceFirst(longitudeText, ',', '.')).Some?)
    ensures r.Some? ==> r.value.latitude == parseFinite(ReplaceFirst(latitudeText, ',', '.')).value &&
                        r.value.longitude == parseFinite(ReplaceFirst(longitudeText, ',', '.')).value
  {
    var latitude := parseFinite(ReplaceFirst(latitudeText, ',', '.'));
    var longitude := parseFinite(ReplaceFirst(longitudeText, ',', '.'));
    if latitude.Some? && longitude.Some? then Some(Coordinate(latitude.value, longitude.value)) else None
  }

  /** The patch of `handleNearbySelect`: mode "nearby", coordinates null. */
  function NearbyPatch(previous: FormData): FormPatch {
    DataPatch(Assign(Assign(previous.data.GetOr([]), "locationMode", JString("nearby")), "locationCoordinates", JNull))
  }

  /** The patch of `handleManualConfirm`: mode "manual" and the point. */
  function ManualPatch(previous: FormData, c: Coordinate): FormPatch {
    DataPatch(Assign(Assign(previous.data.GetOr([]), "locationMode", JString("manual")), "locationCoordinates", CoordinateValue(c)))
  }

  /** "Nearby" records the mode and clears the coordinates, keeping every
      other data key and every other field. */
  lemma NearbyRecordsMode(previous: FormData)
    ensures var next := Merge(previous, NearbyPatch(previous));
      && next.data.Some?
      && Lookup(next.data.value, "locationMode") == Some(JString("nearby"))
      && Lookup(next.data.value, "locationCoordinates") == Some(JNull)
      && (forall k :: k != "locationMode" && k != "locationCoordinates" ==>
            Lookup(next.data.value, k) == Lookup(previous.data.GetOr([]), k))
      && next.(data := previous.data) == previous
  {
  }

  /** Confirming records the mode "manual" and exactly the chosen point. */
  lemma ManualRecordsCoordinate(previous: FormData, c: Coordinate)
    ensures var next := Merge(previous, ManualPatch(previous, c));
      && next.data.Some?
      && Lookup(next.data.value, "locationMode") == Some(JString("manual"))
      && Lookup(next.data.value, "locationCoordinates") == Some(CoordinateValue(c))
      && (forall k :: k != "locationMode" && k != "locationCoordinates" ==>
            Lookup(next.data.value, k) == Lookup(previous.data.GetOr([]), k))
      && next.(data := previous.data) == previous
  {
  }

  /** The step's state cells; `hasMap` says whether the native map component
      loaded, `parseFinite` is `parseFloat` followed by `Number.isFinite`. */
  class LocationScreen {
    const hasMap: bool
    const parseFinite: string -> Option<real>
    var manualMode: bool
    var selectedCoordinate: Option<Coordinate>
    var latInput: string
    var lngInput: string
    var inputError: Option<string>

    constructor(hasMap: bool, parseFinite: string -> Option<real>)
      ensures this.hasMap == hasMap && this.parseFinite == parseFinite
      ensures !manualMode && selectedCoordinate.None? && latInput == "" && lngInput == "" && inputError.None?
    {
      this.hasMap := hasMap;
      this.parseFinite := parseFinite;
      manualMode := false;
      selectedCoordinate := None;
      latInput := "";
      lngInput := "";
      inputError := None;
    }

    /** `isConfirmDisabled`. */
    function IsConfirmDisabled(): (r: bool)
      reads this
      ensures r <==> selectedCoordinate.None?
    {
      selectedCoordinate.None?
    }

    /** `handleNearbySelect`. */
    method NearbySelect(form: FormStore)
      modifies form
      ensures form.state == Merge(old(form.state), NearbyPatch(old(form.state)))
    {
      form.UpdateData(FunctionPatch(NearbyPatch));
    }

    /** `handleManualToggle`. */
    method ManualToggle()
      modifies this
      ensures manualMode
      ensures selectedCoordinate == old(selectedCoordinate) && inputError == old(inputError)
      ensures latInput == old(latInput) && lngInput == old(lngInput)
    {
      manualMode := true;
    }

    /** `handleMapPress`. */
    method MapPress(c: Coordinate)
      modifies this
      ensures selectedCoordinate == Some(c)
      ensures manualMode == old(manualMode) && inputError == old(inputError)
      ensures latInput == old(latInput) && lngInput == old(lngInput)
    {
      selectedCoordinate := Some(c);
    }

    /** `updateCoordinateFromInput`: a valid pair selects the point and
        clears the error; otherwise the point is cleared and the error kept. */
    method UpdateCoordinateFromInput(latitudeText: string, longitudeText: string)
      modifies this
      ensures selectedCoordinate == CoordinateFromInput(parseFinite, latitudeText, longitudeText)
      ensures selectedCoordinate.Some? ==> inputError.None?
      ensures selectedCoordinate.None? ==> inputError == old(inputError)
      ensures manualMode == old(manualMode) && latInput == old(latInput) && lngInput == old(lngInput)
    {
      var c := CoordinateFromInput(parseFinite, latitudeText, longitudeText);
      if c.Some? {
        selectedCoordinate := c;
        inputError := None;
      } else {
        selectedCoordinate := None;
      }
    }

    /** `handleLatitudeChange`: the text is kept; the point is re-derived
        only without a map. */
    method LatitudeChange(value: string)
      modifies this
      ensures latInput == value && lngInput == old(lngInput) && manualMode == old(manualMode)
      ensures hasMap ==> selectedCoordinate == old(selectedCoordinate) && inputError == old(inputError)
      ensures !hasMap ==> selectedCoordinate == CoordinateFromInput(parseFinite, value, old(lngInput))
      ensures !hasMap && selectedCoordinate.Some? ==> inputError.None?
      ensures !hasMap && selectedCoordinate.None? ==> inputError == old(inputError)
    {
      latInput := value;
      if !hasMap {
        UpdateCoordinateFromInput(value, lngInput);
      }
    }

    /** `handleLongitudeChange`. */
    method LongitudeChange(value: string)
      modifies this
      ensures lngInput == value && latInput == old(latInput) && manualMode == old(manualMode)
      ensures hasMap ==> selectedCoordinate == old(selectedCoordinate) && inputError == old(inputError)
      ensures !hasMap ==> selectedCoordinate == CoordinateFromInput(parseFinite, old(latInput), value)
      ensures !hasMap && selectedCoordinate.Some? ==> inputError.None?
      ensures !hasMap && selectedCoordinate.None? ==> inputError == old(inputError)
    {
      lngInput := value;
      if !hasMap {
        UpdateCoordinateFromInput(latInput, value);
      }
    }

    /** `handleManualConfirm`: without a point nothing is written (and,
        without a map, the error is shown); with one, the form takes it. */
    method ManualConfirm(form: FormStore)
      modifies this, form
      ensures selectedCoordinate == old(selectedCoordinate) && manualMode == old(manualMode)
      ensures latInput == old(latInput) && lngInput == old(lngInput)
      ensures selectedCoordinate.None? ==> form.state == old(form.state)
      ensures selectedCoordinate.None? && !hasMap ==> inputError == Some(InvalidCoordinates)
      ensures selectedCoordinate.None? && hasMap ==> inputError == old(inputError)
      ensures selectedCoordinate.Some? ==>
        inputError == old(inputError) &&
        form.state == Merge(old(form.state), ManualPatch(old(form.state), selectedCoordinate.value))
    {
      if selectedCoordinate.None? {
        if !hasMap {
          inputError := Some(InvalidCoordinates);
        }
        return;
      }
      var c := selectedCoordinate.value;
      form.UpdateData(FunctionPatch((previous: FormData) => ManualPatch(previous, c)));
    }

    /** `handleManualCancel`: back to the initial state of the step. */
    method ManualCancel()
      modifies this
      ensures !manualMode && selectedCoordinate.None? && latInput == "" && lngInput == "" && inputError.None?
    {
      manualMode := false;
      selectedCoordinate := None;
      latInput := "";
      lngInput := "";
      inputError := None;
    }
  }
}
