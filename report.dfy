/**
 * The incident report form (user/js/report.js): the selection state the
 * click and input handlers change, the description's character limit,
 * and the submit handler's ordered validation, report payload and
 * button/confirmation handling.
 */
module Report {
  import opened Options
  import opened JsText
  import opened JsValue
  import opened Requests

  // ---------------------------------------------------------------------
  // Character counter
  // ---------------------------------------------------------------------

  /** The description's limit, in characters. */
  const MaxDescription := 500

  /** The textarea's value after the counter handler: its first 500 characters. */
  function Truncate(value: string): (r: string)
    ensures |r| == if |value| > MaxDescription then MaxDescription else |value|
    ensures r == value[..|r|]
  {
    if |value| > MaxDescription then value[..MaxDescription] else value
  }

  // ---------------------------------------------------------------------
  // Submit validation
  // ---------------------------------------------------------------------

  /** A coordinate is truthy: set and non-zero (`NaN` is not modelled). */
  predicate CoordinateSet(c: Option<real>)
  {
    c.Some? && c.value != 0.0
  }

  /** The location check `!currentLatitude || !currentLongitude` passes. */
  predicate Located(latitude: Option<real>, longitude: Option<real>)
  {
    CoordinateSet(latitude) && CoordinateSet(longitude)
  }

  /** The validation errors, in the order the handler checks them. */
  datatype ReportError = TypeMissing | SeverityMissing | LocationMissing | DescriptionMissing

  function ErrorMessage(e: ReportError): string
  {
    match e
    case TypeMissing => "Please select an incident type"
    case SeverityMissing => "Please select a severity level"
    case LocationMissing => "Please ensure location is set"
    case DescriptionMissing => "Please provide a description of the incident"
  }

  /**
   * The submit handler's validation: the first failing check of type,
   * severity, location and trimmed description, or `None` when all pass.
   */
  function Check(selectedType: Option<string>, selectedSeverity: Option<string>,
                 latitude: Option<real>, longitude: Option<real>, description: string): (r: Option<ReportError>)
    ensures r == Some(TypeMissing) <==> !Present(selectedType)
    ensures r == Some(SeverityMissing) <==> Present(selectedType) && !Present(selectedSeverity)
    ensures r == Some(LocationMissing) <==>
              Present(selectedType) && Present(selectedSeverity) && !Located(latitude, longitude)
    ensures r == Some(DescriptionMissing) <==>
              Present(selectedType) && Present(selectedSeverity) && Located(latitude, longitude) && Trim(description) == []
    ensures r.None? <==>
              Present(selectedType) && Present(selectedSeverity) && Located(latitude, longitude) && Trim(description) != []
  {
    if !Present(selectedType) then Some(TypeMissing)
    else if !Present(selectedSeverity) then Some(SeverityMissing)
    else if !Located(latitude, longitude) then Some(LocationMissing)
    else if Trim(description) == [] then Some(DescriptionMissing)
    else None
  }

  /**
   * The location check is a falsiness test: a coordinate of exactly 0 is
   * refused like a missing one, whatever the other coordinate is.
   */
  lemma ZeroCoordinateRejected(selectedType: Option<string>, selectedSeverity: Option<string>,
                               latitude: Option<real>, longitude: Option<real>, description: string)
    requires Present(selectedType) && Present(selectedSeverity)
    requires latitude == Some(0.0) || longitude == Some(0.0)
    ensures Check(selectedType, selectedSeverity, latitude, longitude, description) == Some(LocationMissing)
  {
  }

  /** A description of whitespace only is refused once everything before it passes. */
  lemma BlankDescriptionRejected(selectedType: Option<string>, selectedSeverity: Option<string>,
                                 latitude: Option<real>, longitude: Option<real>, description: string)
    requires Present(selectedType) && Present(selectedSeverity) && Located(latitude, longitude)
    ensures AllSpace(description) <==>
              Check(selectedType, selectedSeverity, latitude, longitude, description) == Some(DescriptionMissing)
  {
    TrimEmptyIffAllSpace(description);
  }

  // ---------------------------------------------------------------------
  // The report payload
  // ---------------------------------------------------------------------

  /** The JSON body of the report request. */
  datatype ReportData = ReportData(latitude: real, longitude: real, incidentType: string,
                                   severityLevel: string, description: string, photo: string)

  /**
   * The `photo` field: the first chosen file's name when a photo is
   * attached and the input still holds a file, otherwise the empty string.
   */
  function PhotoName(photoAttached: bool, files: seq<string>): (r: string)
    ensures photoAttached && |files| > 0 ==> r == files[0]
    ensures !photoAttached || |files| == 0 ==> r == ""
  {
    if photoAttached && |files| > 0 then files[0] else ""
  }

  /**
   * The report a form that passes validation sends: both coordinates are
   * non-zero, type and severity are non-empty, the description is the
   * trimmed, non-empty text, and the photo follows `PhotoName`.
   */
  function ReportFor(selectedType: Option<string>, selectedSeverity: Option<string>,
                     latitude: Option<real>, longitude: Option<real>, description: string,
                     photoAttached: bool, files: seq<string>): (r: ReportData)
    requires Check(selectedType, selectedSeverity, latitude, longitude, description).None?
    ensures r.latitude != 0.0 && r.longitude != 0.0
    ensures r.latitude == latitude.value && r.longitude == longitude.value
    ensures r.incidentType != [] && r.incidentType == selectedType.value
    ensures r.severityLevel != [] && r.severityLevel == selectedSeverity.value
    ensures r.description != [] && r.description == Trim(description) && Trimmed(r.description)
    ensures r.photo == PhotoName(photoAttached, files)
  {
    ReportData(latitude.value, longitude.value, selectedType.value, selectedSeverity.value,
               Trim(description), PhotoName(photoAttached, files))
  }

  // ---------------------------------------------------------------------
  // Confirmation message
  // ---------------------------------------------------------------------

  const DefaultConfirmation := "Your report has been successfully submitted and will be reviewed by our team."
  const ConfirmationHead := "Your report has been successfully submitted to "
  const ConfirmationTail := " and will be reviewed by our team."

  /** The confirmation text: it names the barangay when the answer carries a truthy `baranggay_name`. */
  function ConfirmationMessage(barangayName: Option<string>): (r: string)
    ensures !Present(barangayName) ==> r == DefaultConfirmation
    ensures Present(barangayName) ==> Contains(r, barangayName.value)
  {
    if Present(barangayName) then
      var name := barangayName.value;
      var message := ConfirmationHead + name + ConfirmationTail;
      assert message[|ConfirmationHead|..|ConfirmationHead| + |name|] == name;
      assert OccursAt(message, name, |ConfirmationHead|);
      message
    else DefaultConfirmation
  }

  // ---------------------------------------------------------------------
  // The form
  // ---------------------------------------------------------------------

  /**
   * The page's module state and the parts of the DOM its logic decides:
   * the photo input's chosen file names, the textarea's value, the
   * counter's number, the submit button's `disabled` flag, and the text
   * of the confirmation modal when it is shown.
   */
  class ReportForm {
    var selectedType: Option<string>
    var selectedSeverity: Option<string>
    var photoAttached: bool
    var photoFiles: seq<string>
    var latitude: Option<real>
    var longitude: Option<real>
    var description: string
    var charCount: nat
    var submitDisabled: bool
    var confirmation: Option<string>

    /** The counter shows the description's length, which never exceeds the limit. */
    predicate Valid()
      reads this
    {
      |description| <= MaxDescription && charCount == |description|
    }

    constructor ()
      ensures Valid()
      ensures selectedType.None? && selectedSeverity.None? && !photoAttached && photoFiles == []
      ensures latitude.None? && longitude.None? && description == [] && !submitDisabled && confirmation.None?
    {
      selectedType := None;
      selectedSeverity := None;
      photoAttached := false;
      photoFiles := [];
      latitude := None;
      longitude := None;
      description := [];
      charCount := 0;
      submitDisabled := false;
      confirmation := None;
    }

    /** A click on an incident type button records its `data-type`. */
    method SelectType(dataType: Option<string>)
      modifies this
      ensures selectedType == dataType
      ensures selectedSeverity == old(selectedSeverity) && photoAttached == old(photoAttached)
      ensures photoFiles == old(photoFiles) && latitude == old(latitude) && longitude == old(longitude)
      ensures description == old(description) && charCount == old(charCount)
      ensures submitDisabled == old(submitDisabled) && confirmation == old(confirmation)
    {
      selectedType := dataType;
    }

    /** A click on a severity button records its `data-severity`. */
    method SelectSeverity(dataSeverity: Option<string>)
      modifies this
      ensures selectedSeverity == dataSeverity
      ensures selectedType == old(selectedType) && photoAttached == old(photoAttached)
      ensures photoFiles == old(photoFiles) && latitude == old(latitude) && longitude == old(longitude)
      ensures description == old(description) && charCount == old(charCount)
      ensures submitDisabled == old(submitDisabled) && confirmation == old(confirmation)
    {
      selectedSeverity := dataSeverity;
    }

    /** The marker was dragged, or the device reported its position: both coordinates are replaced. */
    method MoveMarker(lat: real, lng: real)
      modifies this
      ensures latitude == Some(lat) && longitude == Some(lng)
      ensures selectedType == old(selectedType) && selectedSeverity == old(selectedSeverity)
      ensures photoAttached == old(photoAttached) && photoFiles == old(photoFiles)
      ensures description == old(description) && charCount == old(charCount)
      ensures submitDisabled == old(submitDisabled) && confirmation == old(confirmation)
    {
      latitude := Some(lat);
      longitude := Some(lng);
    }

    /**
     * The character counter on `input`: the textarea keeps at most its
     * first 500 characters, and the counter shows the kept length.
     */
    method DescriptionInput(value: string)
      modifies this
      ensures Valid()
      ensures description == Truncate(value)
      ensures |value| <= MaxDescription ==> description == value
      ensures selectedType == old(selectedType) && selectedSeverity == old(selectedSeverity)
      ensures photoAttached == old(photoAttached) && photoFiles == old(photoFiles)
      ensures latitude == old(latitude) && longitude == old(longitude)
      ensures submitDisabled == old(submitDisabled) && confirmation == old(confirmation)
    {
      description := value;
      charCount := |value|;
      if |value| > MaxDescription {
        description := value[..MaxDescription];
        charCount := MaxDescription;
      }
    }

    /**
     * The photo input's `change`: the input now holds `files`; when it
     * holds one, the preview loads and the photo counts as attached. An
     * empty choice leaves the flag as it was.
     */
    method ChoosePhoto(files: seq<string>)
      modifies this
      ensures photoFiles == files
      ensures photoAttached == (old(photoAttached) || |files| > 0)
      ensures selectedType == old(selectedType) && selectedSeverity == old(selectedSeverity)
      ensures latitude == old(latitude) && longitude == old(longitude)
      ensures description == old(description) && charCount == old(charCount)
      ensures submitDisabled == old(submitDisabled) && confirmation == old(confirmation)
    {
      photoFiles := files;
      if |files| > 0 {
        photoAttached := true;
      }
    }

    /** The remove button clears the input and the flag, so no photo name is sent. */
    method RemovePhoto()
      modifies this
      ensures !photoAttached && photoFiles == []
      ensures PhotoName(photoAttached, photoFiles) == ""
      ensures selectedType == old(selectedType) && selectedSeverity == old(selectedSeverity)
      ensures latitude == old(latitude) && longitude == old(longitude)
      ensures description == old(description) && charCount == old(charCount)
      ensures submitDisabled == old(submitDisabled) && confirmation == old(confirmation)
    {
      photoFiles := [];
      photoAttached := false;
    }

    /**
     * The submit handler. The first failing check refuses the form with
     * nothing sent and nothing changed. Otherwise the button is disabled,
     * the report is built (its photo filled in afterwards), and sent; on
     * success the confirmation is shown and the button stays disabled,
     * on any failure the button is enabled again. The browser does not
     * submit the form while its submit button is disabled, so after a
     * success this handler is not reached again; the model leaves that
     * gate to the caller and states every call's outcome.
     */
    method Submit(response: Response<Option<string>>) returns (sent: Option<ReportData>, refused: Option<ReportError>)
      modifies this
      ensures refused == Check(old(selectedType), old(selectedSeverity), old(latitude), old(longitude), old(description))
      ensures refused.Some? <==> sent.None?
      ensures sent.Some? ==>
                sent.value == ReportFor(old(selectedType), old(selectedSeverity), old(latitude), old(longitude),
                                        old(description), old(photoAttached), old(photoFiles))
      ensures sent.Some? && old(Valid()) ==> |sent.value.description| <= MaxDescription
      ensures sent.None? ==> submitDisabled == old(submitDisabled) && confirmation == old(confirmation)
      ensures sent.Some? ==> (submitDisabled <==> response.Succeeded?)
      ensures sent.Some? && response.Succeeded? ==> confirmation == Some(ConfirmationMessage(response.data))
      ensures sent.Some? && !response.Succeeded? ==> confirmation == old(confirmation)
      ensures selectedType == old(selectedType) && selectedSeverity == old(selectedSeverity)
      ensures photoAttached == old(photoAttached) && photoFiles == old(photoFiles)
      ensures latitude == old(latitude) && longitude == old(longitude)
      ensures description == old(description) && charCount == old(charCount)
    {
      if !Present(selectedType) {
        return None, Some(TypeMissing);
      }
      if !Present(selectedSeverity) {
        return None, Some(SeverityMissing);
      }
      if !Located(latitude, longitude) {
        return None, Some(LocationMissing);
      }
      var text := Trim(description);
      if text == [] {
        return None, Some(DescriptionMissing);
      }
      refused := None;
      submitDisabled := true;
      var reportData := ReportData(latitude.value, longitude.value, selectedType.value, selectedSeverity.value, text, "");
      if photoAttached {
        if |photoFiles| > 0 {
          reportData := reportData.(photo := photoFiles[0]);
        }
      }
      sent := Some(reportData);
      match response
      case Succeeded(barangayName) =>
        confirmation := Some(ConfirmationMessage(barangayName));
      case _ =>
        submitDisabled := false;
    }
  }
}
