/** The citizen's list of complaints: the search and status filter, the
    per-status counts and the priority and status labels. */
module TrackComplaints {
  import opened Seqs
  import opened Schema
  import opened ComplaintCards
  import AdminDashboard

  predicate Keeps(c: Card, query: string, statusFilter: string) {
    MatchesSearch(c, query) && MatchesStatus(c, statusFilter)
  }

  /** `filteredComplaints`: the complaints that pass the search and the
      status filter, in their original order. The page also holds a sort
      choice (`sortBy`), which the list never reads; it is a parameter here so
      that this can be stated. */
  function FilteredComplaints(cs: seq<Card>, query: string, statusFilter: string, sortBy: string): (r: seq<Card>)
    ensures IsSubsequence(r, cs)
    ensures forall c :: c in r <==> c in cs && MatchesSearch(c, query) && MatchesStatus(c, statusFilter)
    ensures forall c :: multiset(r)[c] == if Keeps(c, query, statusFilter) then multiset(cs)[c] else 0
  {
    var keep := (c: Card) => Keeps(c, query, statusFilter);
    FilterMultiplicity(cs, keep);
    Filter(cs, keep)
  }

  /** The sort choice does not change the list or its order. */
  lemma SortByIgnored(cs: seq<Card>, query: string, statusFilter: string, sort1: string, sort2: string)
    ensures FilteredComplaints(cs, query, statusFilter, sort1) == FilteredComplaints(cs, query, statusFilter, sort2)
  {
  }

  /** With an empty search and the 'all' status, every complaint is listed. */
  lemma NoFilterShowsAll(cs: seq<Card>, sortBy: string)
    ensures FilteredComplaints(cs, "", "all", sortBy) == cs
  {
    forall c | c in cs ensures Keeps(c, "", "all") {
      EmptySearchMatchesAll(c);
    }
    FilterKeepsAll(cs, (c: Card) => Keeps(c, "", "all"));
  }

  /** This list and the dashboard's list agree whenever the dashboard's
      location filter is on 'all'. */
  lemma AgreesWithDashboard(cs: seq<Card>, query: string, statusFilter: string, sortBy: string)
    ensures FilteredComplaints(cs, query, statusFilter, sortBy)
            == AdminDashboard.FilteredComplaints(cs, query, statusFilter, "all")
  {
    FilterCongruent(cs, (c: Card) => Keeps(c, query, statusFilter),
                        (c: Card) => AdminDashboard.Keeps(c, query, statusFilter, "all"));
  }

  /** The four counts shown above the list, in the order registered,
      assigned, in progress, resolved. */
  function DisplayedCounts(cs: seq<Card>): (r: seq<nat>)
    ensures |r| == |IssueStatusValues|
    ensures forall i :: 0 <= i < |r| ==> r[i] == CountStatus(cs, IssueStatusValues[i])
    ensures (forall c :: c in cs ==> c.status in IssueStatusValues) ==> r[0] + r[1] + r[2] + r[3] == |cs|
  {
    var counts := seq(4, i requires 0 <= i < 4 => CountStatus(cs, IssueStatusValues[i]));
    if forall c :: c in cs ==> c.status in IssueStatusValues then
      KnownStatusCountsSum(cs);
      assert counts[0] == CountStatus(cs, "registered") && counts[1] == CountStatus(cs, "assigned");
      assert counts[2] == CountStatus(cs, "in_progress") && counts[3] == CountStatus(cs, "resolved");
      assert counts[0] + counts[1] + counts[2] + counts[3] == |cs|;
      counts
    else
      counts
  }

  /** Each displayed count is the length of the list shown when that status
      is chosen in the filter and the search is empty. */
  lemma CountMatchesFilteredList(cs: seq<Card>, i: nat, sortBy: string)
    requires i < 4
    ensures DisplayedCounts(cs)[i] == |FilteredComplaints(cs, "", IssueStatusValues[i], sortBy)|
  {
    var status := IssueStatusValues[i];
    forall c | c in cs ensures Keeps(c, "", status) == (c.status == status) {
      EmptySearchMatchesAll(c);
    }
    FilterCongruent(cs, (c: Card) => Keeps(c, "", status), (c: Card) => c.status == status);
  }

  /** `getStatusText` of this page: a fixed label per known status, any other
      status shown as it is. */
  function StatusText(status: string): (text: string)
    ensures status in IssueStatusValues ==> text != status
    ensures status !in IssueStatusValues ==> text == status
  {
    match status
    case "registered" => "Registered"
    case "assigned" => "Assigned"
    case "in_progress" => "In Progress"
    case "resolved" => "Resolved"
    case _ => status
  }

  /** The two pages label every status alike except 'registered', which the
      dashboard calls "New". */
  lemma StatusTextsAgreeExceptRegistered(status: string)
    ensures StatusText(status) == AdminDashboard.StatusText(status) <==> status != "registered"
  {
  }

  /** `getPriorityText`: 1 is Low, 3 is High, and every other value,
      including values outside 1..3, is Medium. */
  function PriorityText(priority: int): (text: string)
    ensures text == "Low" <==> priority == 1
    ensures text == "High" <==> priority == 3
    ensures text == "Medium" <==> priority != 1 && priority != 3
  {
    match priority
    case 1 => "Low"
    case 2 => "Medium"
    case 3 => "High"
    case _ => "Medium"
  }
}
