/** The municipal authority's dashboard: the statistics over the complaint
    list, the search/status/location filter, the status labels, and the
    assignment dialog with its required fields. */
module AdminDashboard {
  import opened Wrappers
  import opened Text
  import opened Seqs
  import opened Schema
  import opened ComplaintCards

  // ------------------------------------------------------------ statistics

  datatype Stats = Stats(
    totalComplaints: nat,
    newComplaints: nat,
    assignedComplaints: nat,
    inProgressComplaints: nat,
    resolvedComplaints: nat,
    highPriorityComplaints: nat)

  /** `complaints.filter(c => c.priority === 3).length`: the high-priority
      cards and the others make up the list, so the count is zero exactly
      when no card has priority 3, and the length of the list exactly when
      every card has it. */
  function CountHighPriority(cs: seq<Card>): (n: nat)
    ensures n <= |cs|
    ensures n + |Filter(cs, (c: Card) => c.priority != 3)| == |cs|
    ensures n == 0 <==> forall c :: c in cs ==> c.priority != 3
    ensures n == |cs| <==> forall c :: c in cs ==> c.priority == 3
  {
    var high, other := (c: Card) => c.priority == 3, (c: Card) => c.priority != 3;
    FilterPartition(cs, high, other);
    var r := Filter(cs, high);
    assert r != [] ==> r[0] in r;
    assert Filter(cs, other) != [] ==> Filter(cs, other)[0] in Filter(cs, other);
    |r|
  }

  /** `stats`: the total, one count per status, and the high-priority count.
      Each card shows the count of its own status (registered complaints are
      the new ones); every count is bounded by the total, and when every
      complaint carries one of the schema's four statuses the status counts
      partition it. */
  function ComputeStats(cs: seq<Card>): (st: Stats)
    ensures st.totalComplaints == |cs|
    ensures st.newComplaints == CountStatus(cs, "registered")
    ensures st.assignedComplaints == CountStatus(cs, "assigned")
    ensures st.inProgressComplaints == CountStatus(cs, "in_progress")
    ensures st.resolvedComplaints == CountStatus(cs, "resolved")
    ensures st.highPriorityComplaints == CountHighPriority(cs)
    ensures st.newComplaints <= st.totalComplaints && st.assignedComplaints <= st.totalComplaints
    ensures st.inProgressComplaints <= st.totalComplaints && st.resolvedComplaints <= st.totalComplaints
    ensures st.highPriorityComplaints <= st.totalComplaints
    ensures (forall c :: c in cs ==> c.status in IssueStatusValues) ==>
              st.newComplaints + st.assignedComplaints + st.inProgressComplaints
              + st.resolvedComplaints == st.totalComplaints
  {
    var st := Stats(
      |cs|,
      CountStatus(cs, "registered"),
      CountStatus(cs, "assigned"),
      CountStatus(cs, "in_progress"),
      CountStatus(cs, "resolved"),
      CountHighPriority(cs));
    if forall c :: c in cs ==> c.status in IssueStatusValues then
      KnownStatusCountsSum(cs);
      st
    else
      st
  }

  /** The high-priority complaints and the others make up the whole list. */
  lemma HighPriorityPartition(cs: seq<Card>)
    ensures ComputeStats(cs).highPriorityComplaints + |Filter(cs, (c: Card) => c.priority != 3)|
            == ComputeStats(cs).totalComplaints
  {
    FilterPartition(cs, (c: Card) => c.priority == 3, (c: Card) => c.priority != 3);
  }

  // ---------------------------------------------------------------- labels

  /** `getStatusText` of the dashboard: a fixed label per known status, any
      other status shown as it is. */
  function StatusText(status: string): (text: string)
    ensures status in IssueStatusValues ==> text != status
    ensures status !in IssueStatusValues ==> text == status
    ensures status == "registered" ==> text == "New"
  {
    match status
    case "registered" => "New"
    case "assigned" => "Assigned"
    case "in_progress" => "In Progress"
    case "resolved" => "Resolved"
    case _ => status
  }

  /** The four known statuses get four different labels. */
  lemma StatusTextDistinct(s1: string, s2: string)
    requires s1 in IssueStatusValues && s2 in IssueStatusValues && s1 != s2
    ensures StatusText(s1) != StatusText(s2)
  {
  }

  // ------------------------------------------------------------- filtering

  /** The location filter: 'all', or part of the location ignoring case. */
  predicate MatchesLocation(c: Card, locationFilter: string) {
    locationFilter == "all" || MatchesIgnoringCase(c.location, locationFilter)
  }

  predicate Keeps(c: Card, query: string, statusFilter: string, locationFilter: string) {
    MatchesSearch(c, query) && MatchesStatus(c, statusFilter) && MatchesLocation(c, locationFilter)
  }

  /** `filteredComplaints`: the complaints that pass the search, the status
      filter and the location filter, in their original order. */
  function FilteredComplaints(cs: seq<Card>, query: string, statusFilter: string, locationFilter: string): (r: seq<Card>)
    ensures IsSubsequence(r, cs)
    ensures forall c :: c in r <==> c in cs && MatchesSearch(c, query) && MatchesStatus(c, statusFilter)
                                    && MatchesLocation(c, locationFilter)
    ensures forall c :: multiset(r)[c] == if Keeps(c, query, statusFilter, locationFilter) then multiset(cs)[c] else 0
  {
    var keep := (c: Card) => Keeps(c, query, statusFilter, locationFilter);
    FilterMultiplicity(cs, keep);
    Filter(cs, keep)
  }

  /** With an empty search and both filters on 'all', the whole list shows. */
  lemma NoFilterShowsAll(cs: seq<Card>)
    ensures FilteredComplaints(cs, "", "all", "all") == cs
  {
    forall c | c in cs ensures Keeps(c, "", "all", "all") {
      EmptySearchMatchesAll(c);
    }
    FilterKeepsAll(cs, (c: Card) => Keeps(c, "", "all", "all"));
  }

  /** Choosing a status in the filter, with an empty search and all
      locations, lists exactly as many complaints as that status's count. */
  lemma StatusFilterMatchesCount(cs: seq<Card>, status: string)
    requires status != "all"
    ensures |FilteredComplaints(cs, "", status, "all")| == CountStatus(cs, status)
  {
    forall c | c in cs ensures Keeps(c, "", status, "all") == (c.status == status) {
      EmptySearchMatchesAll(c);
    }
    FilterCongruent(cs, (c: Card) => Keeps(c, "", status, "all"), (c: Card) => c.status == status);
  }

  /** Each status card of the dashboard shows how many complaints the status
      filter of the list keeps for that status. */
  lemma StatsMatchStatusFilters(cs: seq<Card>)
    ensures |FilteredComplaints(cs, "", "registered", "all")| == ComputeStats(cs).newComplaints
    ensures |FilteredComplaints(cs, "", "assigned", "all")| == ComputeStats(cs).assignedComplaints
    ensures |FilteredComplaints(cs, "", "in_progress", "all")| == ComputeStats(cs).inProgressComplaints
    ensures |FilteredComplaints(cs, "", "resolved", "all")| == ComputeStats(cs).resolvedComplaints
  {
    StatusFilterMatchesCount(cs, "registered");
    StatusFilterMatchesCount(cs, "assigned");
    StatusFilterMatchesCount(cs, "in_progress");
    StatusFilterMatchesCount(cs, "resolved");
  }

  /** Search terms that differ only in letter case list the same complaints. */
  lemma SearchIgnoresCase(cs: seq<Card>, q1: string, q2: string, statusFilter: string, locationFilter: string)
    requires Lower(q1) == Lower(q2)
    ensures FilteredComplaints(cs, q1, statusFilter, locationFilter)
            == FilteredComplaints(cs, q2, statusFilter, locationFilter)
  {
    forall c | c in cs
      ensures Keeps(c, q1, statusFilter, locationFilter) == Keeps(c, q2, statusFilter, locationFilter)
    {
      MatchIgnoresQueryCase(c.title, q1, q2);
      MatchIgnoresQueryCase(c.location, q1, q2);
      MatchIgnoresQueryCase(c.id, q1, q2);
    }
    FilterCongruent(cs, (c: Card) => Keeps(c, q1, statusFilter, locationFilter),
                        (c: Card) => Keeps(c, q2, statusFilter, locationFilter));
  }

  // ------------------------------------------------------------ assignment

  /** The Assign button is rendered only on newly registered complaints. */
  predicate AssignOffered(c: Card) {
    c.status == "registered"
  }

  /** The complaints that offer Assign are exactly the ones counted as new. */
  lemma AssignOfferedOnNewComplaints(cs: seq<Card>)
    ensures |Filter(cs, AssignOffered)| == ComputeStats(cs).newComplaints
  {
    FilterCongruent(cs, AssignOffered, (c: Card) => c.status == "registered");
  }

  datatype AssignmentData = AssignmentData(
    officerId: string,
    officerName: string,
    officerPhone: string,
    department: string,
    notes: string)

  const EmptyAssignment := AssignmentData("", "", "", "", "")

  /** The values of the department select. */
  const DepartmentValues: seq<string> := ["pwd", "water", "waste", "electrical", "traffic"]

  /** The check of `handleAssignComplaint`: name, phone and department are
      required; the officer id and the notes are not. */
  predicate AssignmentComplete(d: AssignmentData) {
    d.officerName != "" && d.officerPhone != "" && d.department != ""
  }

  /** The fields the dialog's inputs can change. */
  datatype AssignmentField = OfficerName | OfficerPhone | Department | Notes

  /** The `assignmentData` and `selectedComplaint` state of the dashboard. */
  class AssignDialog {
    var assignmentData: AssignmentData
    var selectedComplaint: Option<Card>

    /** No input edits the officer id, and the department is one of the
        select's values or still empty. */
    ghost predicate Valid()
      reads this
    {
      && assignmentData.officerId == ""
      && (assignmentData.department == "" || assignmentData.department in DepartmentValues)
    }

    constructor ()
      ensures Valid()
      ensures assignmentData == EmptyAssignment && selectedComplaint == None
    {
      assignmentData := EmptyAssignment;
      selectedComplaint := None;
    }

    /** The Assign button of a listed complaint. */
    method Select(c: Card)
      requires Valid() && AssignOffered(c)
      modifies this
      ensures Valid()
      ensures selectedComplaint == Some(c) && assignmentData == old(assignmentData)
    {
      selectedComplaint := Some(c);
    }

    /** An input's `onChange`: one field replaced, the rest kept. */
    method Edit(field: AssignmentField, value: string)
      requires Valid()
      requires field == Department ==> value in DepartmentValues
      modifies this
      ensures Valid()
      ensures selectedComplaint == old(selectedComplaint)
      ensures assignmentData == match field
        case OfficerName => old(assignmentData).(officerName := value)
        case OfficerPhone => old(assignmentData).(officerPhone := value)
        case Department => old(assignmentData).(department := value)
        case Notes => old(assignmentData).(notes := value)
    {
      match field
      case OfficerName => assignmentData := assignmentData.(officerName := value);
      case OfficerPhone => assignmentData := assignmentData.(officerPhone := value);
      case Department => assignmentData := assignmentData.(department := value);
      case Notes => assignmentData := assignmentData.(notes := value);
    }

    /** `handleAssignComplaint`: an incomplete form is rejected and left as it
        is; a complete one clears the form and the selection. No complaint's
        status changes. */
    method Assign() returns (accepted: bool)
      requires Valid()
      modifies this
      ensures Valid()
      ensures accepted <==> AssignmentComplete(old(assignmentData))
      ensures accepted ==> assignmentData == EmptyAssignment && selectedComplaint == None
      ensures !accepted ==> assignmentData == old(assignmentData) && selectedComplaint == old(selectedComplaint)
    {
      if !AssignmentComplete(assignmentData) {
        return false;
      }
      assignmentData := EmptyAssignment;
      selectedComplaint := None;
      return true;
    }
  }
}
