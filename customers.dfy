/** The customer list page: a search box, a bucket filter and a sort order
    applied to the mock customers, and the colours each row is drawn in. */
module CustomersPage {

  import opened Text
  import opened Sorting
  import opened MockData
  import RiskScore

  datatype BucketFilter = All | Only(bucket: Bucket)

  datatype SortBy = Risk | Name | Utilization

  /** `localeCompare`, left abstract: negative, zero or positive as the first
      name sorts before, with or after the second. */
  type Collation = (string, string) -> int

  /** What the page relies on of the collation: it orders any two names, and
      transitively. */
  ghost predicate IsCollation(collate: Collation)
  {
    && (forall a, b :: collate(a, b) <= 0 || collate(b, a) <= 0)
    && (forall a, b, c :: collate(a, b) <= 0 && collate(b, c) <= 0 ==> collate(a, c) <= 0)
  }

  /** The search: the lower-cased name contains the lower-cased search text,
      or the account number contains the search text as typed. */
  predicate MatchesSearch(c: Customer, searchTerm: string)
  {
    Contains(ToLower(c.name), ToLower(searchTerm)) || Contains(c.accountNumber, searchTerm)
  }

  predicate MatchesFilter(c: Customer, filterRisk: BucketFilter)
  {
    filterRisk == All || c.riskBucket == filterRisk.bucket
  }

  /** The filter callback: the search and the bucket filter must both match. */
  function Matches(searchTerm: string, filterRisk: BucketFilter): Customer -> bool
  {
    c => MatchesSearch(c, searchTerm) && MatchesFilter(c, filterRisk)
  }

  /** The comparator of each sort order, as "may come first": by score and by
      utilisation the larger value comes first, by name the earlier name. */
  predicate Precedes(sortBy: SortBy, collate: Collation, a: Customer, b: Customer)
  {
    match sortBy
    case Risk => b.riskScore - a.riskScore <= 0.0
    case Name => collate(a.name, b.name) <= 0
    case Utilization => b.utilizationRate - a.utilizationRate <= 0.0
  }

  function Order(sortBy: SortBy, collate: Collation): (Customer, Customer) -> bool
  {
    (a, b) => Precedes(sortBy, collate, a, b)
  }

  /** `filteredCustomers`: filter, then sort the filtered array stably. */
  function FilteredCustomers(customers: seq<Customer>, searchTerm: string, filterRisk: BucketFilter,
                             sortBy: SortBy, collate: Collation): seq<Customer>
  {
    Sort(Keep(customers, Matches(searchTerm, filterRisk)), Order(sortBy, collate))
  }

  /** Every sort order is a total preorder, provided the collation is. */
  lemma OrderIsTotalPreorder(sortBy: SortBy, collate: Collation)
    requires IsCollation(collate)
    ensures TotalPreorder(Order(sortBy, collate))
  {
  }

  /** A customer is shown exactly as often as it appears in the input when it
      matches the search and the filter, and not at all otherwise; so nothing
      is duplicated or lost, and the page never shows more than it was given. */
  lemma FilteredMembership(customers: seq<Customer>, searchTerm: string, filterRisk: BucketFilter,
                           sortBy: SortBy, collate: Collation, c: Customer)
    ensures var shown := FilteredCustomers(customers, searchTerm, filterRisk, sortBy, collate);
      && multiset(shown)[c] == (if MatchesSearch(c, searchTerm) && MatchesFilter(c, filterRisk) then multiset(customers)[c] else 0)
      && |shown| <= |customers|
  {
    KeepCounts(customers, Matches(searchTerm, filterRisk), c);
  }

  /** An empty search under "All" shows every customer. */
  lemma EmptySearchShowsAll(customers: seq<Customer>, sortBy: SortBy, collate: Collation)
    ensures multiset(FilteredCustomers(customers, "", All, sortBy, collate)) == multiset(customers)
  {
    forall c | c in customers
      ensures Matches("", All)(c)
    {
      assert OccursAt(ToLower(c.name), ToLower(""), 0);
    }
    KeepAll(customers, Matches("", All));
  }

  /** The list is ordered: by descending score, by ascending name under the
      collation, or by descending utilisation. */
  lemma FilteredIsOrdered(customers: seq<Customer>, searchTerm: string, filterRisk: BucketFilter,
                          sortBy: SortBy, collate: Collation, i: nat, j: nat)
    requires IsCollation(collate)
    requires i < j < |FilteredCustomers(customers, searchTerm, filterRisk, sortBy, collate)|
    ensures var shown := FilteredCustomers(customers, searchTerm, filterRisk, sortBy, collate);
      match sortBy
      case Risk => shown[i].riskScore >= shown[j].riskScore
      case Name => collate(shown[i].name, shown[j].name) <= 0
      case Utilization => shown[i].utilizationRate >= shown[j].utilizationRate
  {
    var kept := Keep(customers, Matches(searchTerm, filterRisk));
    SortSorted(kept, Order(sortBy, collate));
  }

  /** Customers that tie under the sort order appear in their input order. */
  lemma FilteredIsStable(customers: seq<Customer>, searchTerm: string, filterRisk: BucketFilter,
                         sortBy: SortBy, collate: Collation, c: Customer)
    requires IsCollation(collate)
    ensures var ties := TiesWith(c, Order(sortBy, collate));
      var matching := Keep(customers, Matches(searchTerm, filterRisk));
      Keep(FilteredCustomers(customers, searchTerm, filterRisk, sortBy, collate), ties) == Keep(matching, ties)
  {
    var kept := Keep(customers, Matches(searchTerm, filterRisk));
    SortStable(kept, Order(sortBy, collate), c);
  }

  /** Applying the same search, filter and sort to the page's own list gives
      the same list back. */
  lemma FilteredIdempotent(customers: seq<Customer>, searchTerm: string, filterRisk: BucketFilter,
                           sortBy: SortBy, collate: Collation)
    requires IsCollation(collate)
    ensures var shown := FilteredCustomers(customers, searchTerm, filterRisk, sortBy, collate);
      FilteredCustomers(shown, searchTerm, filterRisk, sortBy, collate) == shown
  {
    FilterSortIdempotent(customers, Matches(searchTerm, filterRisk), Order(sortBy, collate));
  }

  /** The left border and score-disc colours of a row, by stored bucket. */
  function BorderColor(bucket: Bucket): string
  {
    if bucket == Bucket.High then "#DC2626" else if bucket == Bucket.Medium then "#F59E0B" else "#3B82F6"
  }

  function DiscBackground(bucket: Bucket): string
  {
    if bucket == Bucket.High then "#FEE2E2" else if bucket == Bucket.Medium then "#FEF3C7" else "#DBEAFE"
  }

  /** A row whose stored bucket agrees with its score is drawn in the gauge's
      colours; every mock customer's is. */
  lemma RowColorsMatchGauge(c: Customer)
    requires c.riskBucket == ScoreBucket(c.riskScore)
    ensures BorderColor(c.riskBucket) == RiskScore.Color(c.riskScore)
    ensures DiscBackground(c.riskBucket) == RiskScore.BgColor(c.riskScore)
  {
  }

  /** The utilisation bar: red from 0.8, amber from 0.5, blue below. */
  function UtilizationColor(utilizationRate: real): (color: string)
    ensures color == "#DC2626" <==> utilizationRate >= 0.8
    ensures color == "#F59E0B" <==> 0.5 <= utilizationRate < 0.8
    ensures color == "#3B82F6" <==> utilizationRate < 0.5
  {
    if utilizationRate >= 0.8 then "#DC2626" else if utilizationRate >= 0.5 then "#F59E0B" else "#3B82F6"
  }
}
