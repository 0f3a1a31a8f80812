/** The helpline directory: a fixed list of numbers, searched by one query
    and shown in two groups, emergency numbers and department numbers. */
module Helpline {
  import opened Text
  import opened Seqs

  datatype HelplineNumber = HelplineNumber(
    id: string,
    department: string,
    contactNumber: string,
    description: string,
    city: string,
    isEmergency: bool,
    availability: string)

  /** `helplineNumbers`. */
  const Directory: seq<HelplineNumber> := [
    HelplineNumber("1", "Police", "100", "Emergency police services", "All Cities", true, "24/7"),
    HelplineNumber("2", "Fire Brigade", "101", "Fire emergency and rescue services", "All Cities", true, "24/7"),
    HelplineNumber("3", "Ambulance", "108", "Medical emergency services", "All Cities", true, "24/7"),
    HelplineNumber("4", "Municipal Corporation", "+91 22 2266 7799", "General civic issues and complaints",
                   "Mumbai", false, "9 AM - 6 PM"),
    HelplineNumber("5", "Public Works Department", "+91 22 2268 4455", "Road repairs, street lights, infrastructure",
                   "Mumbai", false, "9 AM - 5 PM"),
    HelplineNumber("6", "Water Supply Department", "+91 22 2267 3322", "Water supply issues, leakages, quality",
                   "Mumbai", false, "8 AM - 8 PM"),
    HelplineNumber("7", "Waste Management", "+91 22 2265 1188", "Garbage collection, waste disposal",
                   "Mumbai", false, "6 AM - 10 PM"),
    HelplineNumber("8", "Traffic Police", "+91 22 2262 0111", "Traffic violations, signal issues",
                   "Mumbai", false, "24/7"),
    HelplineNumber("9", "Electricity Board", "+91 22 2263 4477", "Power outages, electrical issues",
                   "Mumbai", false, "24/7"),
    HelplineNumber("10", "Women Helpline", "1091", "Women safety and harassment issues", "All Cities", true, "24/7")]

  /** The ids of the directory are distinct, and its emergency numbers are
      those with ids 1, 2, 3 and 10. */
  lemma DirectoryFacts()
    ensures |Directory| == 10
    ensures forall i, j :: 0 <= i < j < |Directory| ==> Directory[i].id != Directory[j].id
    ensures forall i :: 0 <= i < |Directory| ==>
              (Directory[i].isEmergency <==> Directory[i].id in {"1", "2", "3", "10"})
  {
  }

  /** The search test: the query, ignoring case, is part of the department or
      the description; or the query exactly as typed is part of the contact
      number. */
  predicate Keeps(h: HelplineNumber, query: string) {
    || MatchesIgnoringCase(h.department, query)
    || MatchesIgnoringCase(h.description, query)
    || Includes(h.contactNumber, query)
  }

  /** `filteredHelplines`: the directory entries that pass the search, in
      directory order. */
  function FilteredHelplines(query: string): (r: seq<HelplineNumber>)
    ensures IsSubsequence(r, Directory)
    ensures forall h :: h in r <==> h in Directory && Keeps(h, query)
    ensures forall h :: multiset(r)[h] == if Keeps(h, query) then multiset(Directory)[h] else 0
  {
    var keep := (h: HelplineNumber) => Keeps(h, query);
    FilterMultiplicity(Directory, keep);
    Filter(Directory, keep)
  }

  /** An empty search lists the whole directory. */
  lemma EmptyQueryKeepsAll()
    ensures FilteredHelplines("") == Directory
  {
    forall h | h in Directory ensures Keeps(h, "") {
      EmptyQueryMatches(h.department);
    }
    FilterKeepsAll(Directory, (h: HelplineNumber) => Keeps(h, ""));
  }

  /** Search terms that differ only in letter case find the same departments
      and descriptions; the contact number is matched as typed. */
  lemma SearchCaseOnlyMattersForNumbers(h: HelplineNumber, q1: string, q2: string)
    requires Lower(q1) == Lower(q2)
    requires Includes(h.contactNumber, q1) == Includes(h.contactNumber, q2)
    ensures Keeps(h, q1) == Keeps(h, q2)
  {
    MatchIgnoresQueryCase(h.department, q1, q2);
    MatchIgnoresQueryCase(h.description, q1, q2);
  }

  predicate IsEmergency(h: HelplineNumber) {
    h.isEmergency
  }

  predicate IsDepartment(h: HelplineNumber) {
    !h.isEmergency
  }

  /** `emergencyNumbers`. */
  function EmergencyNumbers(filtered: seq<HelplineNumber>): (r: seq<HelplineNumber>)
    ensures IsSubsequence(r, filtered)
    ensures forall i :: 0 <= i < |r| ==> r[i].isEmergency
    ensures forall h :: h in r <==> h in filtered && h.isEmergency
    ensures forall h :: multiset(r)[h] == if h.isEmergency then multiset(filtered)[h] else 0
  {
    FilterMultiplicity(filtered, IsEmergency);
    Filter(filtered, IsEmergency)
  }

  /** `departmentNumbers`. */
  function DepartmentNumbers(filtered: seq<HelplineNumber>): (r: seq<HelplineNumber>)
    ensures IsSubsequence(r, filtered)
    ensures forall i :: 0 <= i < |r| ==> !r[i].isEmergency
    ensures forall h :: h in r <==> h in filtered && !h.isEmergency
    ensures forall h :: multiset(r)[h] == if h.isEmergency then 0 else multiset(filtered)[h]
  {
    FilterMultiplicity(filtered, IsDepartment);
    Filter(filtered, IsDepartment)
  }

  /** The two groups split the filtered list: no entry is in both, and
      together they hold every entry of it exactly as often as it does. */
  lemma SplitPartitions(filtered: seq<HelplineNumber>)
    ensures forall h :: !(h in EmergencyNumbers(filtered) && h in DepartmentNumbers(filtered))
    ensures |EmergencyNumbers(filtered)| + |DepartmentNumbers(filtered)| == |filtered|
    ensures multiset(EmergencyNumbers(filtered)) + multiset(DepartmentNumbers(filtered)) == multiset(filtered)
  {
    FilterPartition(filtered, IsEmergency, IsDepartment);
  }
}
