/** The photo-evidence step of the report form
    (front-native/components/categoryComponets/EvidenceReportComponet.tsx):
    picking an image, the labels of the picker button, the scroll fade and
    the continue handler. */
module EvidenceReport {
  import opened Common
  import opened FormContext
  import opened TimeReport

  const AddPhotoPlaceholder: string := "Dodaj zdj\U{119}cie (opcjonalnie)"
  const PhotoSelected: string := "Wybrano zdj\U{119}cie"
  const ChangePhotoHint: string := "Kliknij, aby wybra\U{107} inne zdj\U{119}cie."
  const ImagesOnlyHint: string := "Obs\U{142}ugiwane s\U{105} wy\U{142}\U{105}cznie pliki graficzne."
  const PermissionWarning: string := "Nadaj aplikacji uprawnienia do dost\U{119}pu do galerii, aby kontynuowa\U{107}."
  const PickError: string := "Nie uda\U{142}o si\U{119} wczyta\U{107} zdj\U{119}cia. Spr\U{F3}buj ponownie."

  /** An `ImagePickerAsset`: its uri, its optional file name and MIME type. */
  datatype Asset = Asset(uri: string, fileName: Option<string>, mimeType: Option<string>)

  /** The asset as the object stored in the form. */
  function AssetValue(a: Asset): (r: JsValue)
    ensures r.JObject? && Truthy(r)
  {
    JObject([Entry("uri", JString(a.uri)),
             Entry("fileName", match a.fileName case None => JNull case Some(n) => JString(n)),
             Entry("mimeType", match a.mimeType case None => JNull case Some(m) => JString(m))])
  }

  /** `primaryLabel`: a non-empty file name, else "photo selected" for a
      selected asset, else the placeholder. */
  function PrimaryLabel(selected: Option<Asset>): (r: string)
    ensures selected.Some? && selected.value.fileName.Some? && selected.value.fileName.value != "" ==>
              r == selected.value.fileName.value
    ensures selected.Some? && (selected.value.fileName.None? || selected.value.fileName.value == "") ==> r == PhotoSelected
    ensures selected.None? ==> r == AddPhotoPlaceholder
  {
    match selected
    case None => AddPhotoPlaceholder
    case Some(a) => if a.fileName.Some? && a.fileName.value != "" then a.fileName.value else PhotoSelected
  }

  /** `secondaryLabel`: one hint with an asset, another without. */
  function SecondaryLabel(selected: Option<Asset>): (r: string)
    ensures selected.Some? ==> r == ChangePhotoHint
    ensures selected.None? ==> r == ImagesOnlyHint
  {
    if selected.Some? then ChangePhotoHint else ImagesOnlyHint
  }

  /** The secondary label depends only on whether an asset is selected. */
  lemma SecondaryLabelIgnoresAsset(a: Option<Asset>, b: Option<Asset>)
    requires a.Some? <==> b.Some?
    ensures SecondaryLabel(a) == SecondaryLabel(b)
  {
  }

  /** `fadeStartLocation` of this step, whose fade sits above the button,
      the inset and the gap. */
  function EvidenceFadeStart(contentHeight: real, scrollViewHeight: real): (r: real)
    ensures DefaultFadeStart <= r <= MaxFadeStart
    ensures !IsOverflowing(contentHeight, scrollViewHeight) ==> r == DefaultFadeStart
    ensures scrollViewHeight <= ButtonHeight + ButtonBottomInset + FadeGap + FadeLength ==> r == DefaultFadeStart
  {
    FadeStart(IsOverflowing(contentHeight, scrollViewHeight), scrollViewHeight, ButtonHeight + ButtonBottomInset + FadeGap)
  }

  /** The button area is larger here, so the fade never starts later than on
      the time step for the same layout. */
  lemma EvidenceFadesNoLater(contentHeight: real, scrollViewHeight: real)
    ensures EvidenceFadeStart(contentHeight, scrollViewHeight) <= FadeStartLocation(contentHeight, scrollViewHeight)
  {
    if IsOverflowing(contentHeight, scrollViewHeight) && scrollViewHeight - (ButtonHeight + ButtonBottomInset + FadeGap + FadeLength) > 0.0 {
      var h := scrollViewHeight;
      var small := (h - (ButtonHeight + ButtonBottomInset + FadeGap + FadeLength)) / h;
      var large := (h - (ButtonBottomInset + FadeGap + FadeLength)) / h;
      assert small == large - ButtonHeight / h;
      assert ButtonHeight / h > 0.0;
    }
  }

  /** The patch `handleContinue` sends: `evidence` is the selected asset or
      null; every other key is kept. */
  function EvidencePatch(current: FormData, selected: Option<Asset>): FormPatch {
    DataPatch(Assign(current.data.GetOr([]), "evidence", match selected case None => JNull case Some(a) => AssetValue(a)))
  }

  lemma ContinueRecordsEvidence(current: FormData, selected: Option<Asset>)
    ensures var next := Merge(current, EvidencePatch(current, selected));
      && next.data.Some?
      && (selected.None? ==> Lookup(next.data.value, "evidence") == Some(JNull))
      && (selected.Some? ==> Lookup(next.data.value, "evidence") == Some(AssetValue(selected.value)))
      && (forall k :: k != "evidence" ==> Lookup(next.data.value, k) == Lookup(current.data.GetOr([]), k))
      && next.(data := current.data) == current
  {
  }

  /** How a pick went: the permission was refused, the library returned
      (possibly cancelled, possibly without assets), or a call threw. */
  datatype PickOutcome =
    | PermissionDenied
    | LibraryResult(canceled: bool, assets: seq<Asset>)
    | PickThrew

  /** The step's state cells. */
  class EvidenceScreen {
    var selectedAsset: Option<Asset>
    var isPicking: bool
    var errorMessage: Option<string>
    var scrollViewHeight: real
    var contentHeight: real

    constructor()
      ensures selectedAsset.None? && !isPicking && errorMessage.None?
      ensures scrollViewHeight == 0.0 && contentHeight == 0.0
    {
      selectedAsset := None;
      isPicking := false;
      errorMessage := None;
      scrollViewHeight := 0.0;
      contentHeight := 0.0;
    }

    /** `handlePickImage`, with the permission prompt and the library's
        answer as `outcome`. */
    method PickImage(outcome: PickOutcome)
      modifies this
      ensures !isPicking
      ensures outcome.PermissionDenied? ==> errorMessage == Some(PermissionWarning) && selectedAsset == old(selectedAsset)
      ensures outcome.LibraryResult? && (outcome.canceled || outcome.assets == []) ==>
                errorMessage.None? && selectedAsset == old(selectedAsset)
      ensures outcome.LibraryResult? && !outcome.canceled && outcome.assets != [] ==>
                errorMessage.None? && selectedAsset == Some(outcome.assets[0])
      ensures outcome.PickThrew? ==> errorMessage == Some(PickError) && selectedAsset == old(selectedAsset)
      ensures scrollViewHeight == old(scrollViewHeight) && contentHeight == old(contentHeight)
    {
      isPicking := true;
      errorMessage := None;
      match outcome {
        case PermissionDenied =>
          errorMessage := Some(PermissionWarning);
        case LibraryResult(canceled, assets) =>
          if !canceled && assets != [] {
            selectedAsset := Some(assets[0]);
          }
        case PickThrew =>
          errorMessage := Some(PickError);
      }
      isPicking := false;
    }

    method ScrollViewLayout(height: real)
      modifies this
      ensures scrollViewHeight == height && contentHeight == old(contentHeight)
      ensures selectedAsset == old(selectedAsset) && isPicking == old(isPicking) && errorMessage == old(errorMessage)
    {
      scrollViewHeight := height;
    }

    method ContentSizeChange(height: real)
      modifies this
      ensures contentHeight == height && scrollViewHeight == old(scrollViewHeight)
      ensures selectedAsset == old(selectedAsset) && isPicking == old(isPicking) && errorMessage == old(errorMessage)
    {
      contentHeight := height;
    }

    /** The continue button. */
    method Continue(form: FormStore)
      modifies form
      ensures form.state == Merge(old(form.state), EvidencePatch(old(form.state), selectedAsset))
    {
      form.UpdateData(ObjectPatch(EvidencePatch(form.state, selectedAsset)));
    }
  }
}
