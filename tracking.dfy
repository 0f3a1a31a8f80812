/** The tracking page of one complaint: the four-step status timeline with
    its completion flags, the current step and the timestamp shown per step,
    the priority label, and the feedback panel of a resolved complaint. */
module ComplaintTracking {
  import opened Wrappers
  import opened Text
  import opened Seqs
  import opened Schema
  import TrackComplaints

  /** One entry of `statusSteps` (its icon and colour left out). */
  datatype StatusStep = StatusStep(status: string, title: string, completed: bool)

  /** The statuses of the four steps, in timeline order. */
  const StepStatuses: seq<string> := ["registered", "assigned", "in_progress", "resolved"]

  /** The timeline follows the order of the schema's `issue_status`. */
  lemma StepsFollowSchema()
    ensures StepStatuses == IssueStatusValues
    ensures forall s :: StepStatuses[StatusIndex(s)] == StatusName(s)
  {
    StatusConstantsExact();
  }

  /** `getCurrentStep`: the index of the step whose status is the
      complaint's, or 0 when no step has it. */
  function CurrentStep(status: string): (r: nat)
    ensures r < |StepStatuses|
    ensures status in StepStatuses ==> StepStatuses[r] == status
    ensures status !in StepStatuses ==> r == 0
  {
    var k := FindIndex(StepStatuses, (s: string) => s == status);
    if k >= 0 then k else 0
  }

  /** `statusSteps`: the first step is always completed, and each later step
      is completed when the status is that step's or a later one. For every
      status, known or not, a step is completed exactly when it is at or
      before the current step. */
  function StatusSteps(status: string): (steps: seq<StatusStep>)
    ensures |steps| == |StepStatuses|
    ensures forall i :: 0 <= i < |steps| ==> steps[i].status == StepStatuses[i]
    ensures steps[0].completed
    ensures forall i :: 0 <= i < |steps| ==> (steps[i].completed <==> i <= CurrentStep(status))
  {
    [ StatusStep("registered", "Registered", true),
      StatusStep("assigned", "Assigned",
                 status == "assigned" || status == "in_progress" || status == "resolved"),
      StatusStep("in_progress", "In Progress", status == "in_progress" || status == "resolved"),
      StatusStep("resolved", "Resolved", status == "resolved") ]
  }

  /** Completion is monotone along the timeline. */
  lemma CompletionMonotone(status: string, i: nat, j: nat)
    requires i <= j < |StepStatuses|
    ensures StatusSteps(status)[j].completed ==> StatusSteps(status)[i].completed
  {
  }

  /** For a status of the schema, the completed steps are those up to its
      position in `issue_status`. */
  lemma CompletedUpToStatus(s: IssueStatus, i: nat)
    requires i < |StepStatuses|
    ensures StatusSteps(StatusName(s))[i].completed <==> i <= StatusIndex(s)
  {
    StepsFollowSchema();
    assert StepStatuses[StatusIndex(s)] == StatusName(s);
  }

  /** One entry of the complaint's `updates` list. */
  datatype Update = Update(status: string, timestamp: string, notes: string)

  /** The timestamp of a step:
      `updates.find(u => u.status === step).timestamp || createdAt`. The first
      update with the step's status gives it, unless there is none or its
      timestamp is empty. */
  function StepTimestamp(updates: seq<Update>, stepStatus: string, createdAt: string): (t: string)
    ensures (forall i :: 0 <= i < |updates| ==> updates[i].status != stepStatus) ==> t == createdAt
    ensures forall i :: 0 <= i < |updates| && updates[i].status == stepStatus
                        && (forall j :: 0 <= j < i ==> updates[j].status != stepStatus)
                        ==> t == (if updates[i].timestamp != "" then updates[i].timestamp else createdAt)
  {
    var k := FindIndex(updates, (u: Update) => u.status == stepStatus);
    if k >= 0 && updates[k].timestamp != "" then updates[k].timestamp else createdAt
  }

  /** The timestamp shown beside step `i`: present exactly on completed
      steps. */
  function DisplayedTimestamp(status: string, i: nat, updates: seq<Update>, createdAt: string): (r: Option<string>)
    requires i < |StepStatuses|
    ensures r.Some? <==> i <= CurrentStep(status)
    ensures r.Some? ==> r.value == StepTimestamp(updates, StepStatuses[i], createdAt)
  {
    if StatusSteps(status)[i].completed then Some(StepTimestamp(updates, StepStatuses[i], createdAt)) else None
  }

  /** The feedback panel is rendered for a resolved complaint only. */
  predicate FeedbackShown(status: string) {
    status == "resolved"
  }

  /** The feedback panel shows exactly when the whole timeline is completed. */
  lemma FeedbackShownIffTimelineComplete(status: string)
    ensures FeedbackShown(status) <==> forall i :: 0 <= i < |StepStatuses| ==> StatusSteps(status)[i].completed
  {
    assert StatusSteps(status)[3].completed <==> 3 <= CurrentStep(status);
  }

  /** The priority shown in the details card: 1 is Low, 2 is Medium and every
      other value is High. */
  function PriorityLabel(priority: int): (text: string)
    ensures text == "Low" <==> priority == 1
    ensures text == "Medium" <==> priority == 2
    ensures text == "High" <==> priority != 1 && priority != 2
  {
    if priority == 1 then "Low" else if priority == 2 then "Medium" else "High"
  }

  /** This page and the complaint list label priorities 1 to 3 alike; every
      other value is High here and Medium there. */
  lemma PriorityLabelsComparedWithList(priority: int)
    ensures 1 <= priority <= 3 ==> PriorityLabel(priority) == TrackComplaints.PriorityText(priority)
    ensures !(1 <= priority <= 3) ==>
              PriorityLabel(priority) == "High" && TrackComplaints.PriorityText(priority) == "Medium"
  {
  }

  /** The `feedback` and `rating` state of the page for one complaint. */
  class FeedbackForm {
    const status: string
    var feedback: string
    var rating: int

    /** The rating is 0 (none chosen) or a number of stars. */
    ghost predicate Valid()
      reads this
    {
      0 <= rating <= 5
    }

    constructor (status: string)
      ensures Valid()
      ensures this.status == status && feedback == "" && rating == 0
    {
      this.status := status;
      feedback := "";
      rating := 0;
    }

    /** A star button of the panel. */
    method Rate(star: int)
      requires Valid() && FeedbackShown(status) && 1 <= star <= 5
      modifies this
      ensures Valid()
      ensures rating == star && feedback == old(feedback)
    {
      rating := star;
    }

    /** The comment box's `onChange`. */
    method Comment(text: string)
      requires Valid() && FeedbackShown(status)
      modifies this
      ensures Valid()
      ensures feedback == text && rating == old(rating)
    {
      feedback := text;
    }

    /** `handleFeedbackSubmit`: a blank comment or a missing rating rejects
      the feedback and leaves the form as it is (the comment is required,
      although the panel labels it optional); accepted feedback clears both. */
    method Submit() returns (accepted: bool)
      requires Valid() && FeedbackShown(status)
      modifies this
      ensures Valid()
      ensures accepted <==> !IsBlank(old(feedback)) && old(rating) != 0
      ensures accepted ==> feedback == "" && rating == 0
      ensures !accepted ==> feedback == old(feedback) && rating == old(rating)
    {
      if IsBlank(feedback) || rating == 0 {
        return false;
      }
      feedback := "";
      rating := 0;
      return true;
    }
  }
}
