/** The three-step complaint registration form: location, then issue
    details, then media. Each step's Next button is guarded by that step's
    checks; choosing a state clears the chosen city; uploads append files. */
module RegisterComplaint {
  import opened Wrappers
  import opened Text
  import opened Schema

  /** An option of a select: the submitted value and the shown caption. */
  datatype Choice = Choice(value: string, caption: string)

  function Values(choices: seq<Choice>): (r: seq<string>)
    ensures |r| == |choices|
    ensures forall i :: 0 <= i < |r| ==> r[i] == choices[i].value
  {
    seq(|choices|, i requires 0 <= i < |choices| => choices[i].value)
  }

  const States: seq<Choice> := [
    Choice("maharashtra", "Maharashtra"),
    Choice("delhi", "Delhi"),
    Choice("karnataka", "Karnataka"),
    Choice("uttar-pradesh", "Uttar Pradesh")]

  const Cities: map<string, seq<Choice>> := map[
    "maharashtra" := [Choice("mumbai", "Mumbai"), Choice("pune", "Pune"), Choice("nagpur", "Nagpur")],
    "delhi" := [Choice("new-delhi", "New Delhi"), Choice("central-delhi", "Central Delhi")],
    "karnataka" := [Choice("bangalore", "Bangalore"), Choice("mysore", "Mysore")],
    "uttar-pradesh" := [Choice("lucknow", "Lucknow"), Choice("kanpur", "Kanpur")]]

  const IssueTypes: seq<Choice> := [
    Choice("street_light", "Street Light Not Working"),
    Choice("pothole", "Pothole/Damaged Road"),
    Choice("garbage", "Garbage Dump/Overflowing Bin"),
    Choice("drainage", "Drainage/Sewerage Problem"),
    Choice("others", "Others")]

  /** The city options of the city select:
      `formData.state && cities[formData.state]?.map(...)`. A state that is
      empty or not a key of the table gives no options. */
  function CityOptions(state: string): (r: seq<Choice>)
    ensures state in Cities ==> r == Cities[state]
    ensures state !in Cities ==> r == []
  {
    if state != "" && state in Cities then Cities[state] else []
  }

  /** Every state of the state select has a non-empty entry in the city
      table, and the table has no other keys, so the first step can always
      be completed once a state is chosen. */
  lemma CitiesCoverStates()
    ensures Cities.Keys == set v | v in Values(States)
    ensures forall v :: v in Values(States) ==> |CityOptions(v)| >= 2
  {
    assert Values(States) == ["maharashtra", "delhi", "karnataka", "uttar-pradesh"];
  }

  /** The issue-type buttons offer exactly the schema's `issue_type` values,
      in its order. */
  lemma IssueTypeChoicesMatchSchema()
    ensures Values(IssueTypes) == IssueTypeValues
  {
  }

  /** An uploaded `File`, reduced to what the review step shows. */
  datatype MediaFile = MediaFile(name: string, size: nat)

  datatype FormData = FormData(
    state: string,
    city: string,
    issueType: string,
    customIssue: string,
    description: string,
    mediaFiles: seq<MediaFile>)

  const EmptyForm := FormData("", "", "", "", "", [])

  /** The three toasts with which `handleNext` refuses to advance. */
  datatype FormError = LocationMissing | IssueTypeMissing | DescriptionMissing

  /** The checks `handleNext` makes before advancing from `step`: state and
      city on step 1; on step 2 an issue type, a custom issue when the type
      is 'others', and a description that is not blank. No minimum length is
      checked, and the custom issue is not trimmed. */
  function CheckStep(step: int, f: FormData): (r: Option<FormError>)
    ensures r.None? <==>
              && (step == 1 ==> f.state != "" && f.city != "")
              && (step == 2 ==> f.issueType != "" && (f.issueType == "others" ==> f.customIssue != "")
                                && !IsBlank(f.description))
    ensures r == Some(LocationMissing) <==> step == 1 && (f.state == "" || f.city == "")
    ensures r == Some(IssueTypeMissing) <==>
              step == 2 && (f.issueType == "" || (f.issueType == "others" && f.customIssue == ""))
    ensures r == Some(DescriptionMissing) <==>
              && step == 2 && f.issueType != "" && (f.issueType == "others" ==> f.customIssue != "")
              && IsBlank(f.description)
  {
    if step == 1 && (f.state == "" || f.city == "") then Some(LocationMissing)
    else if step == 2 && (f.issueType == "" || (f.issueType == "others" && f.customIssue == "")) then Some(IssueTypeMissing)
    else if step == 2 && IsBlank(f.description) then Some(DescriptionMissing)
    else None
  }

  /** The hint "Minimum 20 characters" is not enforced: a one-letter
      description passes step 2, while a blank one does not; a custom issue of
      spaces passes. */
  lemma DescriptionLengthNotEnforced()
    ensures CheckStep(2, FormData("", "", "pothole", "", "x", [])) == None
    ensures CheckStep(2, FormData("", "", "pothole", "", "  ", [])) == Some(DescriptionMissing)
    ensures CheckStep(2, FormData("", "", "others", " ", "x", [])) == None
  {
    assert !IsWhitespace('x');
    assert IsWhitespace(" "[0]);
  }

  /** What the selects of the form can hold: a listed state, a city of the
      chosen state, a listed issue type, or nothing yet. */
  ghost predicate FormInvariant(f: FormData) {
    && (f.state == "" || f.state in Values(States))
    && (f.city == "" || f.city in Values(CityOptions(f.state)))
    && (f.issueType == "" || f.issueType in Values(IssueTypes))
  }

  /** The `currentStep` and `formData` state of the page. */
  class RegistrationWizard {
    var currentStep: int
    var formData: FormData

    ghost predicate Valid()
      reads this
    {
      1 <= currentStep <= 3 && FormInvariant(formData)
    }

    constructor ()
      ensures Valid() && currentStep == 1 && formData == EmptyForm
    {
      currentStep := 1;
      formData := EmptyForm;
    }

    /** `handleNext`, offered while the step is below 3: the step advances by
        one when its checks pass, and nothing changes otherwise. */
    method Next() returns (error: Option<FormError>)
      requires Valid() && currentStep < 3
      modifies this
      ensures Valid()
      ensures error == CheckStep(old(currentStep), old(formData))
      ensures formData == old(formData)
      ensures currentStep == if error.None? then old(currentStep) + 1 else old(currentStep)
    {
      error := CheckStep(currentStep, formData);
      if error.None? {
        currentStep := currentStep + 1;
      }
    }

    /** The Previous button, offered from step 2 on. */
    method Previous()
      requires Valid() && currentStep > 1
      modifies this
      ensures Valid()
      ensures currentStep == old(currentStep) - 1 && formData == old(formData)
    {
      currentStep := currentStep - 1;
    }

    /** The state select: sets the state and clears the city. */
    method SelectState(value: string)
      requires Valid() && currentStep == 1 && value in Values(States)
      modifies this
      ensures Valid()
      ensures currentStep == old(currentStep)
      ensures formData == old(formData).(state := value, city := "")
    {
      formData := formData.(state := value, city := "");
    }

    /** The city select, enabled once a state is chosen and offering that
        state's cities. */
    method SelectCity(value: string)
      requires Valid() && currentStep == 1 && formData.state != ""
      requires value in Values(CityOptions(formData.state))
      modifies this
      ensures Valid()
      ensures currentStep == old(currentStep)
      ensures formData == old(formData).(city := value)
    {
      formData := formData.(city := value);
    }

    /** An issue-type button of step 2. */
    method SelectIssueType(value: string)
      requires Valid() && currentStep == 2 && value in Values(IssueTypes)
      modifies this
      ensures Valid()
      ensures currentStep == old(currentStep)
      ensures formData == old(formData).(issueType := value)
    {
      formData := formData.(issueType := value);
    }

    /** The custom-issue input, shown when the issue type is 'others'. */
    method EnterCustomIssue(text: string)
      requires Valid() && currentStep == 2 && formData.issueType == "others"
      modifies this
      ensures Valid()
      ensures currentStep == old(currentStep)
      ensures formData == old(formData).(customIssue := text)
    {
      formData := formData.(customIssue := text);
    }

    /** The description box of step 2. */
    method EnterDescription(text: string)
      requires Valid() && currentStep == 2
      modifies this
      ensures Valid()
      ensures currentStep == old(currentStep)
      ensures formData == old(formData).(description := text)
    {
      formData := formData.(description := text);
    }

    /** `handleFileUpload` on step 3: a selection of files is appended after
        the files already attached; no selection changes nothing. */
    method UploadFiles(files: Option<seq<MediaFile>>)
      requires Valid() && currentStep == 3
      modifies this
      ensures Valid()
      ensures currentStep == old(currentStep)
      ensures formData == old(formData).(mediaFiles := formData.mediaFiles)
      ensures files.Some? ==> formData.mediaFiles == old(formData.mediaFiles) + files.value
      ensures files.None? ==> formData.mediaFiles == old(formData.mediaFiles)
    {
      if files.Some? {
        formData := formData.(mediaFiles := formData.mediaFiles + files.value);
      }
    }
  }
}
