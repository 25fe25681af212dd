/** The "when did it happen" step of the report form
    (front-native/components/categoryComponets/TimeReportComponent.tsx):
    the time options, the scroll fade mask, and the continue handler; also
    the fade arithmetic the evidence step shares. */
module TimeReport {
  import opened Common
  import opened FormContext

  datatype TimeOptionValue = Now | FiveToTenMinutes | ThirtyMinutes | OverHour

  /** The value stored in the form for each option. */
  function ValueText(v: TimeOptionValue): (r: string)
    ensures r != ""
  {
    match v
    case Now => "now"
    case FiveToTenMinutes => "fiveToTenMinutes"
    case ThirtyMinutes => "thirtyMinutes"
    case OverHour => "overHour"
  }

  datatype TimeOption = TimeOption(value: TimeOptionValue, labelText: string)

  /** `TIME_OPTIONS` (colours left out). */
  const TimeOptions: seq<TimeOption> := [
    TimeOption(Now, "Teraz"),
    TimeOption(FiveToTenMinutes, "5-10 minut temu"),
    TimeOption(ThirtyMinutes, "30 minut temu"),
    TimeOption(OverHour, "ponad godzin\U{119} temu")
  ]

  /** Four options, in the order now, 5-10 minutes, 30 minutes, over an
      hour, with distinct stored values and non-empty labels. */
  lemma TimeOptionsShape()
    ensures |TimeOptions| == 4
    ensures TimeOptions[0].value == Now && TimeOptions[1].value == FiveToTenMinutes
    ensures TimeOptions[2].value == ThirtyMinutes && TimeOptions[3].value == OverHour
    ensures forall i, j :: 0 <= i < j < |TimeOptions| ==> ValueText(TimeOptions[i].value) != ValueText(TimeOptions[j].value)
    ensures forall i :: 0 <= i < |TimeOptions| ==> TimeOptions[i].labelText != ""
  {
  }

  /** `options.find(option => option.value === v)`. */
  function FindOption(options: seq<TimeOption>, v: JsValue): (r: Option<TimeOption>)
    ensures r.None? <==> forall i :: 0 <= i < |options| ==> JString(ValueText(options[i].value)) != v
    ensures r.Some? ==> r.value in options && JString(ValueText(r.value.value)) == v
  {
    if options == [] then None
    else if JString(ValueText(options[0].value)) == v then Some(options[0])
    else FindOption(options[1..], v)
  }

  /** Each option's stored value finds that option. */
  lemma FindEachOption(v: TimeOptionValue)
    ensures FindOption(TimeOptions, JString(ValueText(v))).Some?
    ensures FindOption(TimeOptions, JString(ValueText(v))).value.value == v
  {
    TimeOptionsShape();
    var i :| 0 <= i < |TimeOptions| && TimeOptions[i].value == v;
    assert JString(ValueText(TimeOptions[i].value)) == JString(ValueText(v));
  }

  // ------------------------------------------------------------- fade mask

  const ButtonHeight: real := 56.0
  const ButtonBottomInset: real := 24.0
  const FadeGap: real := 12.0
  const DefaultFadeStart: real := 0.7
  const MaxFadeStart: real := 0.92
  const FadeLength: real := 300.0

  /** `isOverflowing`. */
  predicate IsOverflowing(contentHeight: real, scrollViewHeight: real) {
    contentHeight > scrollViewHeight && scrollViewHeight > 0.0
  }

  /** The fade start of a scroll view whose button area takes
      `bottomOffset`: the default unless the content overflows and the view
      has room left above the offset and the fade; then that room as a
      fraction of the height, clamped to the default and 0.92. */
  function FadeStart(overflowing: bool, scrollViewHeight: real, bottomOffset: real): (r: real)
    ensures DefaultFadeStart <= r <= MaxFadeStart
    ensures !overflowing || scrollViewHeight == 0.0 || scrollViewHeight - (bottomOffset + FadeLength) <= 0.0 ==>
              r == DefaultFadeStart
    ensures overflowing && scrollViewHeight != 0.0 && scrollViewHeight - (bottomOffset + FadeLength) > 0.0 ==>
              r == Min(MaxFadeStart, Max(DefaultFadeStart, (scrollViewHeight - (bottomOffset + FadeLength)) / scrollViewHeight))
  {
    if !overflowing || scrollViewHeight == 0.0 then DefaultFadeStart
    else
      var available := scrollViewHeight - (bottomOffset + FadeLength);
      if available <= 0.0 then DefaultFadeStart
      else Min(MaxFadeStart, Max(DefaultFadeStart, available / scrollViewHeight))
  }

  /** `fadeStartLocation` of this step, whose fade sits above the inset and
      the gap. */
  function FadeStartLocation(contentHeight: real, scrollViewHeight: real): (r: real)
    ensures DefaultFadeStart <= r <= MaxFadeStart
    ensures !IsOverflowing(contentHeight, scrollViewHeight) ==> r == DefaultFadeStart
    ensures scrollViewHeight <= ButtonBottomInset + FadeGap + FadeLength ==> r == DefaultFadeStart
  {
    FadeStart(IsOverflowing(contentHeight, scrollViewHeight), scrollViewHeight, ButtonBottomInset + FadeGap)
  }

  /** `maskLocations`. */
  function MaskLocations(fadeStart: real): seq<real> {
    [0.0, fadeStart, 1.0]
  }

  /** The mask stops are non-decreasing and within [0, 1] for every layout. */
  lemma MaskLocationsOrdered(contentHeight: real, scrollViewHeight: real)
    ensures var m := MaskLocations(FadeStartLocation(contentHeight, scrollViewHeight));
      |m| == 3 && (forall i, j :: 0 <= i < j < |m| ==> m[i] <= m[j]) && (forall i :: 0 <= i < |m| ==> 0.0 <= m[i] <= 1.0)
  {
  }

  /** A tall enough overflowing view with room for the whole fade gets the
      largest fade start. */
  lemma TallViewFadesLate(contentHeight: real, scrollViewHeight: real)
    requires contentHeight > scrollViewHeight >= 4200.0
    ensures FadeStartLocation(contentHeight, scrollViewHeight) == MaxFadeStart
  {
    var available := scrollViewHeight - (ButtonBottomInset + FadeGap + FadeLength);
    assert available >= MaxFadeStart * scrollViewHeight;
    assert available / scrollViewHeight >= MaxFadeStart;
  }

  // -------------------------------------------------------------- continue

  /** The patch `handleContinue(time)` sends: `data` with `time` set and
      every other key kept. */
  function ContinuePatch(current: FormData, time: TimeOptionValue): FormPatch {
    DataPatch(Assign(current.data.GetOr([]), "time", JString(ValueText(time))))
  }

  /** After continuing, the form holds the chosen time, keeps every other
      data key, and nothing but `data` changes. */
  lemma ContinueRecordsTime(current: FormData, time: TimeOptionValue)
    ensures var next := Merge(current, ContinuePatch(current, time));
      && next.data.Some?
      && Lookup(next.data.value, "time") == Some(JString(ValueText(time)))
      && (forall k :: k != "time" ==> Lookup(next.data.value, k) == Lookup(current.data.GetOr([]), k))
      && next.(data := current.data) == current
  {
  }

  /** The step's state cells. */
  class TimeScreen {
    var selected: TimeOptionValue
    var scrollViewHeight: real
    var contentHeight: real

    constructor(initialValue: Option<TimeOptionValue>)
      ensures selected == initialValue.GetOr(Now)
      ensures scrollViewHeight == 0.0 && contentHeight == 0.0
    {
      selected := initialValue.GetOr(Now);
      scrollViewHeight := 0.0;
      contentHeight := 0.0;
    }

    /** Tapping an option. */
    method Select(value: TimeOptionValue)
      modifies this
      ensures selected == value
      ensures scrollViewHeight == old(scrollViewHeight) && contentHeight == old(contentHeight)
    {
      selected := value;
    }

    /** `handleScrollViewLayout`. */
    method ScrollViewLayout(height: real)
      modifies this
      ensures scrollViewHeight == height
      ensures selected == old(selected) && contentHeight == old(contentHeight)
    {
      scrollViewHeight := height;
    }

    /** `handleContentSizeChange`. */
    method ContentSizeChange(height: real)
      modifies this
      ensures contentHeight == height
      ensures selected == old(selected) && scrollViewHeight == old(scrollViewHeight)
    {
      contentHeight := height;
    }

    /** The fade start for the current layout. */
    function CurrentFadeStart(): (r: real)
      reads this
      ensures DefaultFadeStart <= r <= MaxFadeStart
    {
      FadeStartLocation(contentHeight, scrollViewHeight)
    }

    /** The continue button: `handleContinue(selected)`. */
    method Continue(form: FormStore)
      modifies form
      ensures form.state == Merge(old(form.state), ContinuePatch(old(form.state), selected))
    {
      form.UpdateData(ObjectPatch(ContinuePatch(form.state, selected)));
    }
  }
}
