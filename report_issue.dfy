/**
 * The citizen's report wizard: step 1 collects the issue details, step 2 a photo and a
 * location, step 3 is the confirmation. Both delayed callbacks (the simulated image analysis
 * and the simulated submission) are separate methods that fire later; the analysis callback
 * sees the issue type as it was when the photo was chosen, because the timer closes over the
 * form as rendered at that moment.
 */
module ReportIssue {
  import opened Wrappers
  import opened Browser

  /** The form's five fields; `issueType` is the source's `type`. */
  datatype Draft = Draft(issueType: string, location: string, description: string, severity: string, image: Option<File>)

  const EmptyDraft: Draft := Draft("", "", "", "", None)

  datatype Coords = Coords(lat: real, lng: real)

  /** The values offered by the two selects. */
  const IssueTypes: seq<string> := ["pothole", "waterlogged", "sewage", "drain", "road"]
  const SeverityLevels: seq<string> := ["low", "medium", "high", "critical"]

  /** The "Continue to Photo & Location" button is enabled. */
  predicate ContinueEnabled(d: Draft) {
    d.issueType != "" && d.severity != "" && d.description != ""
  }

  /** The "Submit Report" button is enabled. */
  predicate SubmitEnabled(d: Draft, isSubmitting: bool) {
    d.image.Some? && d.location != "" && !isSubmitting
  }

  /** A cleared form enables neither button, whatever the submission flag. */
  lemma EmptyDraftDisablesBoth(isSubmitting: bool)
    ensures !ContinueEnabled(EmptyDraft) && !SubmitEnabled(EmptyDraft, isSubmitting)
  {
  }

  /** Continue needs all three step-1 fields; none of them alone suffices. */
  lemma ContinueNeedsAllThree(d: Draft)
    ensures !ContinueEnabled(d.(issueType := "")) && !ContinueEnabled(d.(severity := "")) && !ContinueEnabled(d.(description := ""))
  {
  }

  /**
   * Each button looks only at its own step's fields: the photo and the location never
   * change Continue, and the step-1 fields never change Submit.
   */
  lemma GuardsReadTheirOwnStep(d: Draft, location: string, image: Option<File>,
                               issueType: string, severity: string, description: string, isSubmitting: bool)
    ensures ContinueEnabled(d.(location := location, image := image)) == ContinueEnabled(d)
    ensures SubmitEnabled(d.(issueType := issueType, severity := severity, description := description), isSubmitting)
            == SubmitEnabled(d, isSubmitting)
  {
  }

  /** Any choice from the two selects, with some description, enables Continue. */
  lemma SelectChoicesEnableContinue(d: Draft, i: int, j: int)
    requires 0 <= i < |IssueTypes| && 0 <= j < |SeverityLevels| && d.description != ""
    ensures ContinueEnabled(d.(issueType := IssueTypes[i], severity := SeverityLevels[j]))
  {
    assert forall k :: 0 <= k < |IssueTypes| ==> |IssueTypes[k]| >= 4;
    assert forall k :: 0 <= k < |SeverityLevels| ==> |SeverityLevels[k]| >= 3;
  }

  const PotholeEstimate: string := "Estimated materials: 15kg asphalt mix, 2 bags cement, 0.5m³ aggregate"
  const WaterloggedEstimate: string := "Estimated solution: Drainage pipe cleaning, 3 drain covers"
  const SewageEstimate: string := "Emergency response required: Professional cleaning crew"
  const DefaultEstimate: string := "Material estimate will be calculated by municipal engineers"

  /**
   * The simulated analysis's material estimate for an issue type. Exactly the three special
   * types get their own estimate, and the four estimates differ, so the estimate determines
   * which of the four cases applied. Of the five selectable types, `drain` and `road` fall
   * to the default.
   */
  function EstimateFor(issueType: string): (estimate: string)
    ensures estimate == DefaultEstimate <==> issueType !in ["pothole", "waterlogged", "sewage"]
    ensures estimate == PotholeEstimate <==> issueType == "pothole"
    ensures estimate == WaterloggedEstimate <==> issueType == "waterlogged"
    ensures estimate == SewageEstimate <==> issueType == "sewage"
    ensures issueType in IssueTypes ==> (estimate == DefaultEstimate <==> issueType in ["drain", "road"])
  {
    assert |PotholeEstimate| == 69 && |WaterloggedEstimate| == 58;
    assert |SewageEstimate| == 55 && |DefaultEstimate| == 59;
    if issueType == "pothole" then PotholeEstimate
    else if issueType == "waterlogged" then WaterloggedEstimate
    else if issueType == "sewage" then SewageEstimate
    else DefaultEstimate
  }

  /** What the browser's geolocation request ends with. */
  datatype GeoOutcome =
    | Fix(coords: Coords, formatted: string)  // `formatted` is the "lat, lng" text at six decimals
    | GeoError
    | Unsupported

  class ReportWizard {
    var currentStep: int
    var formData: Draft
    var isSubmitting: bool
    var materialEstimate: Option<string>
    var location: Option<Coords>
    /** The issue types captured by analysis timers that have not fired yet, oldest first. */
    var pendingAnalyses: seq<string>

    /** The step is 1, 2 or 3, and the confirmation step is never reached mid-submission. */
    ghost predicate Valid()
      reads this
    {
      1 <= currentStep <= 3 && (currentStep == 3 ==> !isSubmitting)
    }

    constructor ()
      ensures Valid()
      ensures currentStep == 1 && formData == EmptyDraft && !isSubmitting
      ensures materialEstimate == None && location == None && pendingAnalyses == []
    {
      currentStep := 1;
      formData := EmptyDraft;
      isSubmitting := false;
      materialEstimate := None;
      location := None;
      pendingAnalyses := [];
    }

    /** The issue-type select on step 1. */
    method SetIssueType(value: string)
      requires Valid() && currentStep == 1
      modifies this`formData
      ensures Valid() && formData == old(formData).(issueType := value)
    {
      formData := formData.(issueType := value);
    }

    /** The severity select on step 1. */
    method SetSeverity(value: string)
      requires Valid() && currentStep == 1
      modifies this`formData
      ensures Valid() && formData == old(formData).(severity := value)
    {
      formData := formData.(severity := value);
    }

    /** The description text area on step 1. */
    method SetDescription(value: string)
      requires Valid() && currentStep == 1
      modifies this`formData
      ensures Valid() && formData == old(formData).(description := value)
    {
      formData := formData.(description := value);
    }

    /** "Continue": moves to step 2 exactly when the three step-1 fields are filled in. */
    method Continue()
      requires Valid() && currentStep == 1
      modifies this`currentStep
      ensures Valid()
      ensures currentStep == (if ContinueEnabled(formData) then 2 else 1)
    {
      if ContinueEnabled(formData) {
        currentStep := 2;
      }
    }

    /**
     * "Back": returns to step 1 with the form and the estimate untouched. The button is not
     * disabled while a submission is pending.
     */
    method Back()
      requires Valid() && currentStep == 2
      modifies this`currentStep
      ensures Valid() && currentStep == 1
    {
      currentStep := 1;
    }

    /** The location text field on step 2. */
    method SetLocationText(value: string)
      requires Valid() && currentStep == 2
      modifies this`formData
      ensures Valid() && formData == old(formData).(location := value)
    {
      formData := formData.(location := value);
    }

    /**
     * `handleImageUpload`: the first selected file becomes the image and an analysis timer is
     * started for the issue type as it is now; an empty selection changes nothing.
     */
    method SelectImage(files: seq<File>)
      requires Valid() && currentStep == 2
      modifies this`formData, this`pendingAnalyses
      ensures Valid()
      ensures files == [] ==> formData == old(formData) && pendingAnalyses == old(pendingAnalyses)
      ensures files != [] ==>
                && formData == old(formData).(image := Some(files[0]))
                && pendingAnalyses == old(pendingAnalyses) + [old(formData).issueType]
    {
      if files != [] {
        pendingAnalyses := pendingAnalyses + [formData.issueType];
        formData := formData.(image := Some(files[0]));
      }
    }

    /** The oldest analysis timer fires and sets the estimate for the type it captured. */
    method CompleteAnalysis()
      requires Valid() && pendingAnalyses != []
      modifies this`materialEstimate, this`pendingAnalyses
      ensures Valid()
      ensures materialEstimate == Some(EstimateFor(old(pendingAnalyses)[0]))
      ensures pendingAnalyses == old(pendingAnalyses)[1..]
    {
      materialEstimate := Some(EstimateFor(pendingAnalyses[0]));
      pendingAnalyses := pendingAnalyses[1..];
    }

    /**
     * `getCurrentLocation`: a fix records the coordinates and writes them into the location
     * field; an error or a browser without geolocation changes nothing.
     */
    method RequestLocation(outcome: GeoOutcome)
      requires Valid() && currentStep == 2
      modifies this`formData, this`location
      ensures Valid()
      ensures outcome.Fix? ==>
                location == Some(outcome.coords) && formData == old(formData).(location := outcome.formatted)
      ensures !outcome.Fix? ==> location == old(location) && formData == old(formData)
    {
      if outcome.Fix? {
        location := Some(outcome.coords);
        formData := formData.(location := outcome.formatted);
      }
    }

    /** `handleSubmit`, reachable only through the enabled submit button. */
    method StartSubmit()
      requires Valid() && currentStep == 2
      modifies this`isSubmitting
      ensures Valid()
      ensures isSubmitting == (old(isSubmitting) || SubmitEnabled(formData, false))
    {
      if SubmitEnabled(formData, isSubmitting) {
        isSubmitting := true;
      }
    }

    /** The submission timer fires: the confirmation step is shown, the form is kept as is. */
    method CompleteSubmit()
      requires Valid() && isSubmitting
      modifies this`isSubmitting, this`currentStep
      ensures Valid() && !isSubmitting && currentStep == 3
    {
      isSubmitting := false;
      currentStep := 3;
    }

    /**
     * "Submit Another Report": back to step 1 with a cleared form and no estimate. The
     * recorded coordinates and any analysis timer still pending are left as they are.
     */
    method Reset()
      requires Valid() && currentStep == 3
      modifies this`currentStep, this`formData, this`materialEstimate
      ensures Valid() && currentStep == 1 && formData == EmptyDraft && materialEstimate == None
    {
      currentStep := 1;
      formData := EmptyDraft;
      materialEstimate := None;
    }
  }
}
