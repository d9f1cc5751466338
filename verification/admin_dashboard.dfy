/**
 * The query logic of `src/pages/AdminDashboardPage.jsx`: the issue list shown
 * to administrators (store issues plus three sample issues), the status,
 * category and free-text filters, the sort by creation time, and the
 * per-status and per-category statistics.
 */
module AdminDashboard {
  import opened Js
  import opened Lists
  import opened IssueStore

  /** The sample issues appended for demonstration; times are milliseconds since the epoch. */
  const DummyIssues: seq<Issue> := [
    Issue("dummy-1", "ZTH12345", "Library Computer Issues",
          "Several computers in the library are not working properly. Need maintenance.",
          "Facilities", "Pending", 1694773800000, 1694773800000, None, []),
    Issue("dummy-2", "ZTH12346", "Cafeteria Food Quality",
          "The food quality in the cafeteria has declined recently. Please improve the menu options.",
          "Cafeteria", "In Review", 1694701200000, 1694855700000, None,
          [Response("resp-1", "Thank you for your feedback. We are reviewing the cafeteria services.",
                    "1", "Admin User", 1694855700000)]),
    Issue("dummy-3", "ZTH12347", "Wi-Fi Connectivity Problems",
          "The Wi-Fi in Block B is very slow and disconnects frequently. Please fix this issue.",
          "Facilities", "Resolved", 1694346300000, 1694968200000, None,
          [Response("resp-2", "We have identified the issue with the router in Block B.",
                    "1", "Admin User", 1694787600000),
           Response("resp-3", "The router has been replaced and the Wi-Fi should be working properly now.",
                    "1", "Admin User", 1694968200000)])
  ]

  /** `allIssues`: the store's issues first, then the three sample issues. */
  function AllIssues(issues: seq<Issue>): (r: seq<Issue>)
    ensures |r| == |issues| + 3
    ensures r[..|issues|] == issues
    ensures r[|issues|..] == DummyIssues
  {
    issues + DummyIssues
  }

  /** The `filteredIssues` callback: status, then category, then the lower-cased search text. */
  predicate Keep(issue: Issue, statusFilter: string, categoryFilter: string, searchQuery: string): (b: bool)
    ensures b ==> statusFilter == "All" || issue.status == statusFilter
    ensures b ==> categoryFilter == "All" || issue.category == categoryFilter
    ensures searchQuery == "" ==> (b <==> (statusFilter == "All" || issue.status == statusFilter) &&
                                          (categoryFilter == "All" || issue.category == categoryFilter))
    ensures Includes(ToLower(issue.ticketId), ToLower(searchQuery)) ==>
      (b <==> (statusFilter == "All" || issue.status == statusFilter) &&
              (categoryFilter == "All" || issue.category == categoryFilter))
  {
    if statusFilter != "All" && issue.status != statusFilter then false
    else if categoryFilter != "All" && issue.category != categoryFilter then false
    else if searchQuery != "" then
      var query := ToLower(searchQuery);
      Includes(ToLower(issue.title), query) || Includes(ToLower(issue.description), query) ||
      Includes(ToLower(issue.ticketId), query)
    else true
  }

  /** `filteredIssues`. */
  function FilteredIssues(all: seq<Issue>, statusFilter: string, categoryFilter: string, searchQuery: string)
    : (r: seq<Issue>)
    ensures IsSubsequence(r, all)
    ensures forall i | 0 <= i < |r| :: Keep(r[i], statusFilter, categoryFilter, searchQuery) && r[i] in all
    ensures forall i | 0 <= i < |all| && Keep(all[i], statusFilter, categoryFilter, searchQuery) :: all[i] in r
    ensures forall x | x in all ::
      multiset(r)[x] == if Keep(x, statusFilter, categoryFilter, searchQuery) then multiset(all)[x] else 0
  {
    var p := (i: Issue) => Keep(i, statusFilter, categoryFilter, searchQuery);
    FilterIsSubsequence(all, p);
    Filter(all, p)
  }

  /** With every filter at its initial value, nothing is filtered out. */
  lemma NoFilterKeepsEverything(all: seq<Issue>)
    ensures FilteredIssues(all, "All", "All", "") == all
  {
    FilterKeepsAll(all, (i: Issue) => Keep(i, "All", "All", ""));
  }

  /** A status or category filter other than 'All' keeps only exact matches. */
  lemma FiltersAreExact(all: seq<Issue>, statusFilter: string, categoryFilter: string, searchQuery: string)
    ensures var r := FilteredIssues(all, statusFilter, categoryFilter, searchQuery);
      (statusFilter != "All" ==> forall i | 0 <= i < |r| :: r[i].status == statusFilter) &&
      (categoryFilter != "All" ==> forall i | 0 <= i < |r| :: r[i].category == categoryFilter)
  {
  }

  /**
   * With a non-empty query, an issue that passes the status and category
   * filters is kept exactly when the lower-cased query occurs in its
   * lower-cased title, description or ticket ID.
   */
  lemma SearchKeepsExactlyMatches(all: seq<Issue>, statusFilter: string, categoryFilter: string,
                                  searchQuery: string, k: nat)
    requires searchQuery != "" && k < |all|
    requires statusFilter == "All" || all[k].status == statusFilter
    requires categoryFilter == "All" || all[k].category == categoryFilter
    ensures var q := ToLower(searchQuery);
      all[k] in FilteredIssues(all, statusFilter, categoryFilter, searchQuery) <==>
      (Includes(ToLower(all[k].title), q) || Includes(ToLower(all[k].description), q) ||
       Includes(ToLower(all[k].ticketId), q))
  {
  }

  /** `a` may stand before `b` under the comparator of `sortedIssues`. */
  predicate Precedes(a: Issue, b: Issue, newest: bool) {
    if newest then a.createdAt >= b.createdAt else a.createdAt <= b.createdAt
  }

  /** Each issue may stand before the next one. */
  predicate SortedBy(s: seq<Issue>, newest: bool) {
    forall i | 0 < i < |s| :: Precedes(s[i - 1], s[i], newest)
  }

  /** Insert `x` in front of the first element it may precede; equal times keep `x` first. */
  function Insert(x: Issue, s: seq<Issue>, newest: bool): (r: seq<Issue>)
    requires SortedBy(s, newest)
    ensures multiset(r) == multiset(s) + multiset{x}
    ensures |r| == |s| + 1 && (r[0] == x || (s != [] && r[0] == s[0]))
    ensures SortedBy(r, newest)
  {
    if s == [] || Precedes(x, s[0], newest) then [x] + s
    else
      assert s == [s[0]] + s[1..];
      [s[0]] + Insert(x, s[1..], newest)
  }

  /** The sort `[...filtered].sort(cmp)`: newest first, or oldest first for any other choice. */
  function SortByCreatedAt(s: seq<Issue>, newest: bool): (r: seq<Issue>)
    ensures multiset(r) == multiset(s)
    ensures SortedBy(r, newest)
  {
    if s == [] then []
    else
      assert s == [s[0]] + s[1..];
      Insert(s[0], SortByCreatedAt(s[1..], newest), newest)
  }

  /** `sortedIssues`: `dateFilter === 'newest'` sorts newest first. */
  function SortedIssues(filtered: seq<Issue>, dateFilter: string): (r: seq<Issue>)
    ensures multiset(r) == multiset(filtered)
    ensures dateFilter == "newest" ==> forall i | 0 < i < |r| :: r[i - 1].createdAt >= r[i].createdAt
    ensures dateFilter != "newest" ==> forall i | 0 < i < |r| :: r[i - 1].createdAt <= r[i].createdAt
  {
    SortByCreatedAt(filtered, dateFilter == "newest")
  }

  /** The list the dashboard renders for a choice of filters. */
  function Visible(issues: seq<Issue>, statusFilter: string, categoryFilter: string, dateFilter: string,
                   searchQuery: string): (r: seq<Issue>)
    ensures multiset(r) == multiset(FilteredIssues(AllIssues(issues), statusFilter, categoryFilter, searchQuery))
    ensures SortedBy(r, dateFilter == "newest")
  {
    SortedIssues(FilteredIssues(AllIssues(issues), statusFilter, categoryFilter, searchQuery), dateFilter)
  }

  /** After `resetFilters`, every issue, sample ones included, is shown, newest first. */
  lemma DefaultFiltersShowEverything(issues: seq<Issue>)
    ensures var r := Visible(issues, "All", "All", "newest", "");
      multiset(r) == multiset(issues + DummyIssues) && SortedBy(r, true) && |r| == |issues| + 3
  {
    NoFilterKeepsEverything(AllIssues(issues));
    var r := Visible(issues, "All", "All", "newest", "");
    assert |r| == |multiset(r)|;
  }

  /** Every row the dashboard renders is a stored or sample issue that passes the filters. */
  lemma {:induction false} VisibleRowsPassTheFilters(issues: seq<Issue>, statusFilter: string, categoryFilter: string,
                                                     dateFilter: string, searchQuery: string, k: nat)
    requires k < |Visible(issues, statusFilter, categoryFilter, dateFilter, searchQuery)|
    ensures var x := Visible(issues, statusFilter, categoryFilter, dateFilter, searchQuery)[k];
      Keep(x, statusFilter, categoryFilter, searchQuery) && (x in issues || x in DummyIssues)
  {
    var all := AllIssues(issues);
    var f := FilteredIssues(all, statusFilter, categoryFilter, searchQuery);
    var x := Visible(issues, statusFilter, categoryFilter, dateFilter, searchQuery)[k];
    assert x in multiset(f);
    var j :| 0 <= j < |f| && f[j] == x;
    assert x in all;
  }

  /** One key of a JavaScript object used as a counter. */
  datatype Entry = Entry(key: string, count: int)

  /** `obj[k]`: the value stored under `k`, if any. */
  function Lookup(t: seq<Entry>, k: string): Option<int> {
    if t == [] then None
    else if t[0].key == k then Some(t[0].count)
    else Lookup(t[1..], k)
  }

  /** `obj[k] = v`: overwrite the existing key in place, or add it last. */
  function Put(t: seq<Entry>, k: string, v: int): seq<Entry> {
    if t == [] then [Entry(k, v)]
    else if t[0].key == k then [Entry(k, v)] + t[1..]
    else [t[0]] + Put(t[1..], k, v)
  }

  function Keys(t: seq<Entry>): seq<string> {
    if t == [] then [] else [t[0].key] + Keys(t[1..])
  }

  function Sum(t: seq<Entry>): int {
    if t == [] then 0 else t[0].count + Sum(t[1..])
  }

  lemma {:induction false} LookupPut(t: seq<Entry>, k: string, v: int, k': string)
    ensures Lookup(Put(t, k, v), k') == if k' == k then Some(v) else Lookup(t, k')
  {
    if t != [] && t[0].key != k {
      LookupPut(t[1..], k, v, k');
    }
  }

  lemma {:induction false} KeysPut(t: seq<Entry>, k: string, v: int)
    ensures Keys(Put(t, k, v)) == if Lookup(t, k).Some? then Keys(t) else Keys(t) + [k]
  {
    if t != [] && t[0].key != k {
      KeysPut(t[1..], k, v);
    }
  }

  lemma {:induction false} SumPut(t: seq<Entry>, k: string, v: int)
    ensures Sum(Put(t, k, v)) == Sum(t) + v - (if Lookup(t, k).Some? then Lookup(t, k).value else 0)
  {
    if t != [] && t[0].key != k {
      SumPut(t[1..], k, v);
    }
  }

  lemma {:induction false} LookupInKeys(t: seq<Entry>, k: string)
    ensures Lookup(t, k).Some? <==> k in Keys(t)
  {
    if t != [] {
      LookupInKeys(t[1..], k);
    }
  }

  const StatusKeys: seq<string> := ["Pending", "In Review", "Resolved", "Closed"]

  const InitialStatusCounts: seq<Entry> :=
    [Entry("Pending", 0), Entry("In Review", 0), Entry("Resolved", 0), Entry("Closed", 0)]

  function CountStatus(s: seq<Issue>, status: string): nat {
    if s == [] then 0
    else CountStatus(s[..|s| - 1], status) + (if s[|s| - 1].status == status then 1 else 0)
  }

  function CountCategory(s: seq<Issue>, category: string): nat {
    if s == [] then 0
    else CountCategory(s[..|s| - 1], category) + (if s[|s| - 1].category == category then 1 else 0)
  }

  /** A category occurs in `s` exactly when it is counted at least once. */
  lemma {:induction false} CountCategoryPositive(s: seq<Issue>, category: string)
    ensures CountCategory(s, category) > 0 <==> exists i | 0 <= i < |s| :: s[i].category == category
  {
    if s != [] {
      var prefix := s[..|s| - 1];
      CountCategoryPositive(prefix, category);
      if exists i | 0 <= i < |prefix| :: prefix[i].category == category {
        var i :| 0 <= i < |prefix| && prefix[i].category == category;
        assert s[i] == prefix[i];
      }
      if exists i | 0 <= i < |s| :: s[i].category == category {
        var i :| 0 <= i < |s| && s[i].category == category;
        if i < |prefix| { assert prefix[i] == s[i]; }
      }
    }
  }

  /** Issues whose status is none of the four counted ones. */
  function CountOtherStatus(s: seq<Issue>): nat {
    if s == [] then 0
    else CountOtherStatus(s[..|s| - 1]) + (if s[|s| - 1].status in StatusKeys then 0 else 1)
  }

  /** `statusCounts` after the `forEach` has seen the issues of `s`. */
  function StatusTally(s: seq<Issue>): seq<Entry> {
    if s == [] then InitialStatusCounts
    else
      var t := StatusTally(s[..|s| - 1]);
      var status := s[|s| - 1].status;
      if Lookup(t, status).Some? then Put(t, status, Lookup(t, status).value + 1) else t
  }

  /** `categoryCounts` after the `forEach` has seen the issues of `s`. */
  function CategoryTally(s: seq<Issue>): seq<Entry> {
    if s == [] then []
    else
      var t := CategoryTally(s[..|s| - 1]);
      var category := s[|s| - 1].category;
      var current := Lookup(t, category);
      if current.Some? && current.value != 0 then Put(t, category, current.value + 1) else Put(t, category, 1)
  }

  /**
   * `calculateStats`: one pass over `allIssues`, the store's issues and the
   * samples, bumping two dictionaries in place. No filter is an input.
   */
  method CalculateStats(issues: seq<Issue>) returns (statusCounts: seq<Entry>, categoryCounts: seq<Entry>)
    ensures statusCounts == StatusTally(AllIssues(issues))
    ensures categoryCounts == CategoryTally(AllIssues(issues))
  {
    var all := AllIssues(issues);
    statusCounts := InitialStatusCounts;
    categoryCounts := [];
    var i := 0;
    while i < |all|
      invariant 0 <= i <= |all|
      invariant statusCounts == StatusTally(all[..i])
      invariant categoryCounts == CategoryTally(all[..i])
    {
      var issue := all[i];
      assert all[..i + 1][..i] == all[..i];
      var seen := Lookup(statusCounts, issue.status);
      if seen.Some? {
        statusCounts := Put(statusCounts, issue.status, seen.value + 1);
      }
      var current := Lookup(categoryCounts, issue.category);
      if current.Some? && current.value != 0 {
        categoryCounts := Put(categoryCounts, issue.category, current.value + 1);
      } else {
        categoryCounts := Put(categoryCounts, issue.category, 1);
      }
      i := i + 1;
    }
    assert all[..|all|] == all;
  }

  /**
   * The status dictionary always has exactly the four keys, in order, each
   * holding the number of issues with that status; no other status is counted.
   */
  lemma {:induction false} StatusTallyCounts(s: seq<Issue>, status: string)
    ensures Keys(StatusTally(s)) == StatusKeys
    ensures Lookup(StatusTally(s), status) == if status in StatusKeys then Some(CountStatus(s, status)) else None
  {
    if s == [] {
      var t := InitialStatusCounts;
      assert t[1..] == [Entry("In Review", 0), Entry("Resolved", 0), Entry("Closed", 0)];
      assert t[1..][1..] == [Entry("Resolved", 0), Entry("Closed", 0)];
      assert t[1..][1..][1..] == [Entry("Closed", 0)];
      assert t[1..][1..][1..][1..] == [];
      assert Keys(t) == StatusKeys;
      assert status in StatusKeys <==>
             status == "Pending" || status == "In Review" || status == "Resolved" || status == "Closed";
      assert Lookup(t[1..][1..][1..][1..], status) == None;
      assert Lookup(t[1..][1..][1..], status) == if status == "Closed" then Some(0) else None;
      assert Lookup(t[1..][1..], status) ==
             if status == "Resolved" then Some(0) else Lookup(t[1..][1..][1..], status);
      assert Lookup(t[1..], status) == if status == "In Review" then Some(0) else Lookup(t[1..][1..], status);
      assert Lookup(t, status) == if status == "Pending" then Some(0) else Lookup(t[1..], status);
    } else {
      var prefix := s[..|s| - 1];
      var t := StatusTally(prefix);
      var last := s[|s| - 1].status;
      StatusTallyCounts(prefix, status);
      StatusTallyCounts(prefix, last);
      LookupInKeys(t, last);
      if Lookup(t, last).Some? {
        LookupPut(t, last, Lookup(t, last).value + 1, status);
        KeysPut(t, last, Lookup(t, last).value + 1);
      }
    }
  }

  /** The status counts add up to the number of issues minus those with some other status. */
  lemma {:induction false} StatusTallySum(s: seq<Issue>)
    ensures Sum(StatusTally(s)) + CountOtherStatus(s) == |s|
  {
    if s != [] {
      var prefix := s[..|s| - 1];
      var t := StatusTally(prefix);
      var last := s[|s| - 1].status;
      StatusTallySum(prefix);
      StatusTallyCounts(prefix, last);
      LookupInKeys(t, last);
      if Lookup(t, last).Some? {
        SumPut(t, last, Lookup(t, last).value + 1);
      }
    }
  }

  /** The category dictionary holds, for each category that occurs, the number of issues in it. */
  lemma {:induction false} CategoryTallyCounts(s: seq<Issue>, category: string)
    ensures Lookup(CategoryTally(s), category) ==
            if exists i | 0 <= i < |s| :: s[i].category == category then Some(CountCategory(s, category)) else None
  {
    if s != [] {
      var prefix := s[..|s| - 1];
      var t := CategoryTally(prefix);
      var last := s[|s| - 1].category;
      CategoryTallyCounts(prefix, category);
      CategoryTallyCounts(prefix, last);
      CountCategoryPositive(prefix, last);
      CountCategoryPositive(s, category);
      var v := if Lookup(t, last).Some? && Lookup(t, last).value != 0 then Lookup(t, last).value + 1 else 1;
      LookupPut(t, last, v, category);
      CategoryOccursStep(s, prefix, category);
    }
  }

  /** A category occurs in a non-empty list exactly when it occurs before the last issue or in it. */
  lemma CategoryOccursStep(s: seq<Issue>, prefix: seq<Issue>, category: string)
    requires s != [] && prefix == s[..|s| - 1]
    ensures (exists i | 0 <= i < |s| :: s[i].category == category) <==>
            (exists i | 0 <= i < |prefix| :: prefix[i].category == category) || s[|s| - 1].category == category
  {
    if exists i | 0 <= i < |s| :: s[i].category == category {
      var i :| 0 <= i < |s| && s[i].category == category;
      if i < |prefix| {
        assert prefix[i] == s[i];
      }
    }
    if exists i | 0 <= i < |prefix| :: prefix[i].category == category {
      var i :| 0 <= i < |prefix| && prefix[i].category == category;
      assert s[i] == prefix[i];
    }
  }

  /** Every issue is counted under exactly one category: the category counts sum to the number of issues. */
  lemma {:induction false} CategoryTallySum(s: seq<Issue>)
    ensures Sum(CategoryTally(s)) == |s|
  {
    if s != [] {
      var prefix := s[..|s| - 1];
      var t := CategoryTally(prefix);
      var last := s[|s| - 1].category;
      CategoryTallySum(prefix);
      CategoryTallyCounts(prefix, last);
      var v := if Lookup(t, last).Some? && Lookup(t, last).value != 0 then Lookup(t, last).value + 1 else 1;
      SumPut(t, last, v);
    }
  }

  /** The statistics are taken over every issue, whatever the filters: the counts cover `allIssues`. */
  lemma StatsIgnoreFilters(issues: seq<Issue>)
    ensures Sum(CategoryTally(AllIssues(issues))) == |issues| + 3
    ensures Sum(StatusTally(AllIssues(issues))) + CountOtherStatus(AllIssues(issues)) == |issues| + 3
  {
    CategoryTallySum(AllIssues(issues));
    StatusTallySum(AllIssues(issues));
  }

  /** The dashboard's four filter fields. */
  class Filters {
    var statusFilter: string
    var categoryFilter: string
    var dateFilter: string
    var searchQuery: string

    constructor ()
      ensures statusFilter == "All" && categoryFilter == "All" && dateFilter == "newest" && searchQuery == ""
    {
      statusFilter, categoryFilter, dateFilter, searchQuery := "All", "All", "newest", "";
    }

    /** `resetFilters`: back to the initial values. */
    method ResetFilters()
      modifies this
      ensures statusFilter == "All" && categoryFilter == "All" && dateFilter == "newest" && searchQuery == ""
    {
      statusFilter := "All";
      categoryFilter := "All";
      dateFilter := "newest";
      searchQuery := "";
    }
  }
}
