/** The complaint cards listed by the admin dashboard and the citizen's
    complaint list, and the search and status tests both pages apply to them
    in the same words. */
module ComplaintCards {
  import opened Text
  import opened Seqs
  import opened Schema

  /** The fields of a listed complaint that filtering and counting read. */
  datatype Card = Card(id: string, title: string, location: string, status: string, priority: int)

  /** `matchesSearch`: the query, ignoring case, is part of the title, the
      location or the id. */
  predicate MatchesSearch(c: Card, query: string) {
    || MatchesIgnoringCase(c.title, query)
    || MatchesIgnoringCase(c.location, query)
    || MatchesIgnoringCase(c.id, query)
  }

  /** `matchesStatus`: the filter is 'all' or names the card's status. */
  predicate MatchesStatus(c: Card, statusFilter: string) {
    statusFilter == "all" || c.status == statusFilter
  }

  /** `complaints.filter(c => c.status === status).length`: the cards with
      the status and the cards without it make up the list, so the count is
      zero exactly when no card has the status, and the length of the list
      exactly when every card has it. */
  function CountStatus(cs: seq<Card>, status: string): (n: nat)
    ensures n <= |cs|
    ensures n + |Filter(cs, (c: Card) => c.status != status)| == |cs|
    ensures n == 0 <==> forall c :: c in cs ==> c.status != status
    ensures n == |cs| <==> forall c :: c in cs ==> c.status == status
  {
    var with, without := (c: Card) => c.status == status, (c: Card) => c.status != status;
    FilterPartition(cs, with, without);
    var r := Filter(cs, with);
    assert r != [] ==> r[0] in r;
    assert Filter(cs, without) != [] ==> Filter(cs, without)[0] in Filter(cs, without);
    |r|
  }

  /** Counting peels off one card at a time. */
  lemma CountStatusCons(cs: seq<Card>, status: string)
    requires cs != []
    ensures CountStatus(cs, status) == (if cs[0].status == status then 1 else 0) + CountStatus(cs[1..], status)
  {
  }

  /** When every card carries one of the four statuses of the schema, the
      four status counts add up to the number of cards. */
  lemma {:induction false} KnownStatusCountsSum(cs: seq<Card>)
    requires forall c :: c in cs ==> c.status in IssueStatusValues
    ensures CountStatus(cs, "registered") + CountStatus(cs, "assigned")
            + CountStatus(cs, "in_progress") + CountStatus(cs, "resolved") == |cs|
  {
    if cs != [] {
      assert cs[0] in cs;
      assert forall c :: c in cs[1..] ==> c in cs;
      var s := cs[0].status;
      assert s == "registered" || s == "assigned" || s == "in_progress" || s == "resolved";
      CountStatusCons(cs, "registered");
      CountStatusCons(cs, "assigned");
      CountStatusCons(cs, "in_progress");
      CountStatusCons(cs, "resolved");
      KnownStatusCountsSum(cs[1..]);
    }
  }

  /** With an empty query every card matches the search. */
  lemma EmptySearchMatchesAll(c: Card)
    ensures MatchesSearch(c, "")
  {
    EmptyQueryMatches(c.title);
  }
}
