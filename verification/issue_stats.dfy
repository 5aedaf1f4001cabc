/**
 * The statistics the weekly summary is made from: which issues count as this
 * week's, how many each author opened, the seven focus-area counters, and the
 * four busiest focus areas.
 */
module IssueStats {
  import opened Wrappers
  import opened Text
  import opened Collections

  /** One record of `issues_data/latest_issues.json`; `labels` may be missing. */
  datatype Issue = Issue(number: int, state: string, author: string, title: string, labels: Option<seq<string>>)

  /** This week's issues are picked by number, not by date. */
  const RecentFrom: int := 2455

  predicate IsRecent(issue: Issue)
  {
    issue.number >= RecentFrom
  }

  predicate IsClosed(issue: Issue)
  {
    issue.state == "CLOSED"
  }

  /** The seven focus areas, in the order the counters object declares them. */
  datatype Category = Accessibility | Performance | Ux | Dx | Bugfix | Enhancement | Cleanup

  const Categories: seq<Category> := [Accessibility, Performance, Ux, Dx, Bugfix, Enhancement, Cleanup]

  /** The counter's property name. */
  function Key(c: Category): string
  {
    match c
    case Accessibility => "accessibility"
    case Performance => "performance"
    case Ux => "ux"
    case Dx => "dx"
    case Bugfix => "bugfix"
    case Enhancement => "enhancement"
    case Cleanup => "cleanup"
  }

  /** The label names, lower-cased; a missing label list is an empty one. */
  function LowerLabels(issue: Issue): (labels: seq<string>)
    ensures issue.labels.None? ==> labels == []
    ensures issue.labels.Some? ==> |labels| == |issue.labels.value|
    ensures issue.labels.Some? ==> forall k :: 0 <= k < |labels| ==> labels[k] == ToLower(issue.labels.value[k])
  {
    match issue.labels
    case None => []
    case Some(ls) => seq(|ls|, k requires 0 <= k < |ls| => ToLower(ls[k]))
  }

  /*
   * The seven tests of `categorizeIssues`, on the lower-cased title and labels:
   * a label equal to a keyword, or a keyword inside the title.
   */

  predicate IsAccessibility(title: string, labels: seq<string>)
  {
    "pillar: accessibility" in labels || Contains(title, "a11y") || Contains(title, "accessibility")
  }

  predicate IsPerformance(title: string, labels: seq<string>)
  {
    "performance" in labels || Contains(title, "performance") || Contains(title, "optimization")
  }

  predicate IsUx(title: string, labels: seq<string>)
  {
    "ux" in labels || Contains(title, "user experience")
  }

  predicate IsDx(title: string, labels: seq<string>)
  {
    "dx" in labels || Contains(title, "developer experience")
  }

  predicate IsBugfix(title: string, labels: seq<string>)
  {
    "bug" in labels || Contains(title, "bug") || Contains(title, "fix")
  }

  predicate IsEnhancement(title: string, labels: seq<string>)
  {
    "enhancement" in labels || Contains(title, "feature")
  }

  /** The one test that reads no labels. */
  predicate IsCleanup(title: string)
  {
    Contains(title, "cleanup") || Contains(title, "remove") || Contains(title, "refactor")
  }

  /** The outcome of the seven tests on one issue, one flag per counter. */
  datatype Hits = Hits(
    accessibility: bool, performance: bool, ux: bool, dx: bool,
    bugfix: bool, enhancement: bool, cleanup: bool)
  {
    /** The flag of one focus area. */
    predicate Get(c: Category)
    {
      match c
      case Accessibility => accessibility
      case Performance => performance
      case Ux => ux
      case Dx => dx
      case Bugfix => bugfix
      case Enhancement => enhancement
      case Cleanup => cleanup
    }
  }

  /** The callback's tests on one issue: the title and the labels are lower-cased once, then tested seven times. */
  function Tests(issue: Issue): (h: Hits)
    ensures h.cleanup == IsCleanup(ToLower(issue.title))
  {
    var title := ToLower(issue.title);
    var labels := LowerLabels(issue);
    Hits(
      IsAccessibility(title, labels), IsPerformance(title, labels), IsUx(title, labels),
      IsDx(title, labels), IsBugfix(title, labels), IsEnhancement(title, labels), IsCleanup(title))
  }

  /** Whether an issue bumps a counter. */
  predicate Matches(issue: Issue, c: Category)
  {
    Tests(issue).Get(c)
  }

  /** How many of `issues` a counter ends at. */
  function CountMatching(issues: seq<Issue>, c: Category): nat
  {
    |Filter(issues, (i: Issue) => Matches(i, c))|
  }

  /** The counters object of `categorizeIssues`, one field per property. */
  datatype Counters = Counters(
    accessibility: nat, performance: nat, ux: nat, dx: nat,
    bugfix: nat, enhancement: nat, cleanup: nat)
  {
    /** The counter of one focus area. */
    function Get(c: Category): nat
    {
      match c
      case Accessibility => accessibility
      case Performance => performance
      case Ux => ux
      case Dx => dx
      case Bugfix => bugfix
      case Enhancement => enhancement
      case Cleanup => cleanup
    }
  }

  /** Counters that agree on every focus area are the same counters. */
  lemma CountersEqual(a: Counters, b: Counters)
    requires forall c: Category :: a.Get(c) == b.Get(c)
    ensures a == b
  {
    assert a.accessibility == b.accessibility by { assert a.Get(Accessibility) == b.Get(Accessibility); }
    assert a.performance == b.performance by { assert a.Get(Performance) == b.Get(Performance); }
    assert a.ux == b.ux by { assert a.Get(Ux) == b.Get(Ux); }
    assert a.dx == b.dx by { assert a.Get(Dx) == b.Get(Dx); }
    assert a.bugfix == b.bugfix by { assert a.Get(Bugfix) == b.Get(Bugfix); }
    assert a.enhancement == b.enhancement by { assert a.Get(Enhancement) == b.Get(Enhancement); }
    assert a.cleanup == b.cleanup by { assert a.Get(Cleanup) == b.Get(Cleanup); }
  }

  /** The counters after one issue: each whose test passed goes up by one, the others stay. */
  function Add(counts: Counters, hits: Hits): (r: Counters)
    ensures forall c: Category :: r.Get(c) == counts.Get(c) + (if hits.Get(c) then 1 else 0)
  {
    Counters(
      counts.accessibility + (if hits.accessibility then 1 else 0),
      counts.performance + (if hits.performance then 1 else 0),
      counts.ux + (if hits.ux then 1 else 0),
      counts.dx + (if hits.dx then 1 else 0),
      counts.bugfix + (if hits.bugfix then 1 else 0),
      counts.enhancement + (if hits.enhancement then 1 else 0),
      counts.cleanup + (if hits.cleanup then 1 else 0))
  }

  /** What the counters read after some issues: each one counts the issues it matches. */
  function Tally(issues: seq<Issue>): (t: Counters)
    ensures forall c: Category :: t.Get(c) == CountMatching(issues, c) <= |issues|
  {
    Counters(
      CountMatching(issues, Accessibility), CountMatching(issues, Performance),
      CountMatching(issues, Ux), CountMatching(issues, Dx), CountMatching(issues, Bugfix),
      CountMatching(issues, Enhancement), CountMatching(issues, Cleanup))
  }

  /** One more issue bumps exactly the counters it matches. */
  lemma TallyPrefix(issues: seq<Issue>, k: nat)
    requires k < |issues|
    ensures Tally(issues[..k + 1]) == Add(Tally(issues[..k]), Tests(issues[k]))
  {
    forall c: Category
      ensures Tally(issues[..k + 1]).Get(c) == Add(Tally(issues[..k]), Tests(issues[k])).Get(c)
    {
      FilterPrefix(issues, k, (i: Issue) => Matches(i, c));
    }
    CountersEqual(Tally(issues[..k + 1]), Add(Tally(issues[..k]), Tests(issues[k])));
  }

  /** The seven `if`s of the callback on the outcome of its tests. */
  method CountIssue(counts: Counters, hits: Hits) returns (updated: Counters)
    ensures updated == Add(counts, hits)
  {
    updated := counts;
    if hits.accessibility {
      updated := updated.(accessibility := updated.accessibility + 1);
    }
    if hits.performance {
      updated := updated.(performance := updated.performance + 1);
    }
    if hits.ux {
      updated := updated.(ux := updated.ux + 1);
    }
    if hits.dx {
      updated := updated.(dx := updated.dx + 1);
    }
    if hits.bugfix {
      updated := updated.(bugfix := updated.bugfix + 1);
    }
    if hits.enhancement {
      updated := updated.(enhancement := updated.enhancement + 1);
    }
    if hits.cleanup {
      updated := updated.(cleanup := updated.cleanup + 1);
    }
  }

  /** `categorizeIssues`: seven counters from zero, each bumped once per matching issue. */
  method CategorizeIssues(issues: seq<Issue>) returns (counts: Counters)
    ensures counts == Tally(issues)
    ensures forall c: Category :: counts.Get(c) == CountMatching(issues, c) <= |issues|
  {
    counts := Counters(0, 0, 0, 0, 0, 0, 0);
    for k := 0 to |issues|
      invariant counts == Tally(issues[..k])
    {
      var hits := Tests(issues[k]);
      TallyPrefix(issues, k);
      counts := CountIssue(counts, hits);
    }
    assert issues[..|issues|] == issues;
  }

  /** The cleanup counter never looks at labels: equal titles give equal counts. */
  lemma {:induction false} CleanupByTitleOnly(a: seq<Issue>, b: seq<Issue>)
    requires |a| == |b|
    requires forall k :: 0 <= k < |a| ==> a[k].title == b[k].title
    ensures CountMatching(a, Cleanup) == CountMatching(b, Cleanup)
    decreases |a|
  {
    if a != [] {
      var n := |a| - 1;
      CleanupByTitleOnly(a[..n], b[..n]);
      FilterPrefix(a, n, (i: Issue) => Matches(i, Cleanup));
      FilterPrefix(b, n, (i: Issue) => Matches(i, Cleanup));
      assert a[..n + 1] == a && b[..n + 1] == b;
    }
  }

  /** One issue can bump several counters at once: a title reading "a11y bug", in any case, bumps two. */
  lemma OneIssueSeveralCounters(issue: Issue)
    requires ToLower(issue.title) == "a11y bug"
    ensures Matches(issue, Accessibility) && Matches(issue, Bugfix)
  {
    var title := ToLower(issue.title);
    ContainsAt(title, "a11y", 0);
    ContainsAt(title, "bug", 5);
  }

  /** The authors of some issues. */
  function Authors(issues: seq<Issue>): set<string>
  {
    set i | i in issues :: i.author
  }

  /** The issues one author opened, counted. */
  function CountBy(issues: seq<Issue>, author: string): nat
  {
    |Filter(issues, (i: Issue) => i.author == author)|
  }

  /** One more issue adds one to its author's count and leaves every other count alone. */
  lemma CountByPrefix(issues: seq<Issue>, k: nat, b: string)
    requires k < |issues|
    ensures CountBy(issues[..k + 1], b) == CountBy(issues[..k], b) + (if issues[k].author == b then 1 else 0)
  {
    FilterPrefix(issues, k, (i: Issue) => i.author == b);
  }

  /** An author has a positive count exactly when they opened one of the issues. */
  lemma CountByPositive(issues: seq<Issue>, b: string)
    ensures CountBy(issues, b) > 0 <==> b in Authors(issues)
  {
    var f := Filter(issues, (i: Issue) => i.author == b);
    if b in Authors(issues) {
      var i :| i in issues && i.author == b;
      assert i in f;
    }
    if |f| > 0 {
      assert f[0] in issues && f[0].author == b;
    }
  }

  /** One more issue adds its author to the set of authors. */
  lemma AuthorsPrefix(issues: seq<Issue>, k: nat)
    requires k < |issues|
    ensures Authors(issues[..k + 1]) == Authors(issues[..k]) + {issues[k].author}
  {
    var s := issues[..k + 1];
    assert s == issues[..k] + [issues[k]];
    forall b | b in Authors(s) ensures b in Authors(issues[..k]) + {issues[k].author} {
      var i :| i in s && i.author == b;
      if i != issues[k] {
        assert i in issues[..k];
      }
    }
  }

  /** The dictionary the author `reduce` builds: the last issue adds one to its author's entry, creating it at one. */
  function AuthorTally(issues: seq<Issue>): map<string, nat>
    decreases |issues|
  {
    if issues == [] then map[]
    else
      var m := AuthorTally(issues[..|issues| - 1]);
      var a := issues[|issues| - 1].author;
      m[a := (if a in m then m[a] else 0) + 1]
  }

  /** The dictionary has an entry for exactly the authors, holding the number of issues each opened. */
  lemma {:induction false} AuthorTallyEntry(issues: seq<Issue>, b: string)
    ensures b in AuthorTally(issues) <==> b in Authors(issues)
    ensures b in AuthorTally(issues) ==> AuthorTally(issues)[b] == CountBy(issues, b)
    decreases |issues|
  {
    if issues != [] {
      var n := |issues| - 1;
      AuthorTallyEntry(issues[..n], b);
      AuthorsPrefix(issues, n);
      CountByPrefix(issues, n, b);
      CountByPositive(issues[..n], b);
      assert issues[..n + 1] == issues;
    }
  }

  /** The entries of the dictionary add up to the number of issues. */
  lemma {:induction false} AuthorTallyTotal(issues: seq<Issue>)
    ensures Total(AuthorTally(issues)) == |issues|
    decreases |issues|
  {
    if issues != [] {
      var n := |issues| - 1;
      AuthorTallyTotal(issues[..n]);
      var m := AuthorTally(issues[..n]);
      var a := issues[n].author;
      TotalUpdate(m, a, (if a in m then m[a] else 0) + 1);
    }
  }

  /** The whole dictionary: one entry per author, each the author's issue count, adding up to all issues. */
  lemma {:induction false} AuthorTallyMeaning(issues: seq<Issue>)
    ensures AuthorTally(issues).Keys == Authors(issues)
    ensures forall a :: a in AuthorTally(issues) ==>
      AuthorTally(issues)[a] == CountBy(issues, a) && 0 < AuthorTally(issues)[a] <= |issues|
    ensures Total(AuthorTally(issues)) == |issues|
  {
    var m := AuthorTally(issues);
    AuthorTallyTotal(issues);
    forall a | a in m
      ensures a in Authors(issues) && m[a] == CountBy(issues, a) && 0 < m[a]
    {
      AuthorTallyEntry(issues, a);
      CountByPositive(issues, a);
    }
    forall a | a in Authors(issues)
      ensures a in m
    {
      AuthorTallyEntry(issues, a);
    }
  }

  /** The `reduce` of `generateWeeklyStats`: a dictionary updated in place, one issue at a time. */
  method AuthorStats(issues: seq<Issue>) returns (acc: map<string, nat>)
    ensures acc == AuthorTally(issues)
    ensures acc.Keys == Authors(issues)
    ensures forall a :: a in acc ==> acc[a] == CountBy(issues, a) && 0 < acc[a] <= |issues|
    ensures Total(acc) == |issues|
  {
    acc := map[];
    for k := 0 to |issues|
      invariant acc == AuthorTally(issues[..k])
    {
      assert issues[..k + 1][..k] == issues[..k];
      var author := issues[k].author;
      acc := acc[author := (if author in acc then acc[author] else 0) + 1];
    }
    assert issues[..|issues|] == issues;
    AuthorTallyMeaning(issues);
  }

  /** The counts `generateWeeklyStats` returns; the percentages are left out. */
  datatype WeeklyStats = WeeklyStats(
    created: nat,
    resolved: nat,
    authors: map<string, nat>,
    categories: Counters,
    total: nat,
    totalClosed: nat,
    active: int)

  /** What `generateWeeklyStats` computes from the whole issue list. */
  function StatsOf(issues: seq<Issue>): WeeklyStats
  {
    var recent := Filter(issues, IsRecent);
    var closed := Filter(issues, IsClosed);
    WeeklyStats(
      |recent|, |Filter(recent, IsClosed)|, AuthorTally(recent), Tally(recent),
      |issues|, |closed|, |issues| - |closed|)
  }

  /** The bounds and sums the weekly figures keep, whatever the issues. */
  lemma StatsConsistent(issues: seq<Issue>)
    ensures var st := StatsOf(issues);
      && st.resolved <= st.created
      && st.resolved <= st.totalClosed
      && Total(st.authors) == st.created
      && st.active == st.total - st.totalClosed
      && st.active >= 0
      && (forall c: Category :: st.categories.Get(c) <= st.created)
  {
    var recent := Filter(issues, IsRecent);
    FilterOfFilter(issues, IsRecent, IsClosed);
    AuthorTallyTotal(recent);
  }

  /** `generateWeeklyStats`, which filters, runs the author `reduce` and `categorizeIssues`. */
  method GenerateWeeklyStats(issues: seq<Issue>) returns (st: WeeklyStats)
    ensures st == StatsOf(issues)
    ensures forall i :: i in Filter(issues, IsRecent) <==> i in issues && i.number >= 2455
    ensures st.created == |Filter(issues, IsRecent)| && st.total == |issues|
    ensures st.resolved <= st.created && st.resolved <= st.totalClosed
    ensures Total(st.authors) == st.created
    ensures st.active == st.total - st.totalClosed >= 0
  {
    var recent := Filter(issues, IsRecent);
    var closed := Filter(recent, IsClosed);
    var authors := AuthorStats(recent);
    var categories := CategorizeIssues(recent);
    var totalClosed := |Filter(issues, IsClosed)|;
    st := WeeklyStats(|recent|, |closed|, authors, categories,
                      |issues|, totalClosed, |issues| - totalClosed);
    StatsConsistent(issues);
  }

  /** An entry of `Object.entries(categories)`: a property name and its count. */
  type Entry = (string, int)

  /** The counters object as `Object.entries` lists it, in declaration order. */
  function Entries(counts: Counters): (es: seq<Entry>)
    ensures |es| == 7
    ensures forall k :: 0 <= k < 7 ==> es[k] == (Key(Categories[k]), counts.Get(Categories[k]) as int)
  {
    seq(7, k requires 0 <= k < 7 => (Key(Categories[k]), counts.Get(Categories[k]) as int))
  }

  predicate NonIncreasing(s: seq<Entry>)
  {
    forall i, j :: 0 <= i < j < |s| ==> s[i].1 >= s[j].1
  }

  /** Insertion in front of the first entry whose count is not larger, so that equal counts keep their order. */
  function Insert(e: Entry, s: seq<Entry>): (r: seq<Entry>)
    requires NonIncreasing(s)
    ensures NonIncreasing(r)
    ensures multiset(r) == multiset(s) + multiset{e}
    ensures |r| == |s| + 1 && r[0] == (if s == [] || s[0].1 <= e.1 then e else s[0])
    decreases |s|
  {
    if s == [] || s[0].1 <= e.1 then [e] + s
    else
      var rest := Insert(e, s[1..]);
      assert s == [s[0]] + s[1..];
      [s[0]] + rest
  }

  /** `sort(([,a], [,b]) => b - a)`: largest count first, a stable sort. */
  function SortByCount(s: seq<Entry>): (r: seq<Entry>)
    ensures NonIncreasing(r)
    ensures multiset(r) == multiset(s)
    decreases |s|
  {
    if s == [] then []
    else
      assert s == [s[0]] + s[1..];
      Insert(s[0], SortByCount(s[1..]))
  }

  /** Sorting keeps the entries, so a list of positive counts stays one. */
  lemma PositiveAfterSort(s: seq<Entry>, r: seq<Entry>)
    requires multiset(r) == multiset(s)
    requires forall k :: 0 <= k < |s| ==> s[k].1 > 0
    ensures forall k :: 0 <= k < |r| ==> r[k].1 > 0
  {
    forall k | 0 <= k < |r| ensures r[k].1 > 0 {
      assert r[k] in multiset(r);
      assert r[k] in s;
    }
  }

  /** The selection in `generateLinkedInPost`: positive counts, largest first, at most four. */
  function TopCategories(entries: seq<Entry>): (top: seq<Entry>)
    ensures |top| <= 4
    ensures forall k :: 0 <= k < |top| ==> top[k].1 > 0
    ensures NonIncreasing(top)
    ensures multiset(top) <= multiset(entries)
  {
    var positive := Filter(entries, (e: Entry) => e.1 > 0);
    forall k | 0 <= k < |positive| ensures positive[k].1 > 0 {
      assert positive[k] in positive;
    }
    var sorted := SortByCount(positive);
    PositiveAfterSort(positive, sorted);
    if |sorted| <= 4 then sorted
    else
      assert sorted == sorted[..4] + sorted[4..];
      sorted[..4]
  }

  /** Nothing left out of the selection beats what is in it. */
  lemma TopCategoriesAreTop(entries: seq<Entry>, e: Entry)
    requires e in entries && e.1 > 0 && e !in TopCategories(entries)
    ensures |TopCategories(entries)| == 4
    ensures e.1 <= TopCategories(entries)[3].1
  {
    var filtered := Filter(entries, (x: Entry) => x.1 > 0);
    var sorted := SortByCount(filtered);
    assert e in filtered;
    assert e in multiset(filtered);
    assert e in sorted;
    var j :| 0 <= j < |sorted| && sorted[j] == e;
    assert j >= 4;
  }

  /** The labels `formatCategory` prints for the seven counters. */
  const CategoryLabels: map<string, string> := map[
    "accessibility" := "\U{2660} Accessibility",
    "performance" := "\U{26A1} Performance",
    "ux" := "\U{1F3A8} UX Design",
    "dx" := "\U{1F6E0}\U{FE0F} Developer Experience",
    "bugfix" := "\U{1F41B} Bug Fixes",
    "enhancement" := "\U{2728} Enhancements",
    "cleanup" := "\U{1F9F9} Code Cleanup"]

  /** `formatCategory`: a counter's label, or the name itself when it is not one of the seven. */
  function FormatCategory(category: string): (shown: string)
    ensures (exists c: Category :: Key(c) == category) <==> shown != category
    ensures category !in CategoryLabels ==> shown == category
    ensures forall c: Category :: Key(c) == category ==> shown == CategoryLabels[Key(c)] && |shown| > |category|
  {
    KnownCategories(category);
    if category in CategoryLabels then CategoryLabels[category] else category
  }

  /** The label table has an entry for exactly the seven counter names. */
  lemma KnownCategories(category: string)
    ensures category in CategoryLabels <==> exists c: Category :: Key(c) == category
    ensures forall c: Category :: Key(c) in CategoryLabels && |CategoryLabels[Key(c)]| > |Key(c)|
  {
    if category == "accessibility" { assert Key(Accessibility) == category; }
    else if category == "performance" { assert Key(Performance) == category; }
    else if category == "ux" { assert Key(Ux) == category; }
    else if category == "dx" { assert Key(Dx) == category; }
    else if category == "bugfix" { assert Key(Bugfix) == category; }
    else if category == "enhancement" { assert Key(Enhancement) == category; }
    else if category == "cleanup" { assert Key(Cleanup) == category; }
  }

  /** The focus-area lines of the LinkedIn post, before the counts are printed: label and count, busiest first. */
  function FocusAreas(counts: Counters): (focus: seq<Entry>)
    ensures |focus| <= 4
    ensures forall k :: 0 <= k < |focus| ==> focus[k].1 > 0
    ensures NonIncreasing(focus)
    ensures |focus| == |TopCategories(Entries(counts))|
    ensures forall k :: 0 <= k < |focus| ==>
      focus[k] == (FormatCategory(TopCategories(Entries(counts))[k].0), TopCategories(Entries(counts))[k].1)
  {
    var top := TopCategories(Entries(counts));
    seq(|top|, k requires 0 <= k < |top| => (FormatCategory(top[k].0), top[k].1))
  }

  /** Every focus-area line shows one of the seven labels, never a bare property name. */
  lemma FocusShowsLabels(counts: Counters)
    ensures forall k :: 0 <= k < |FocusAreas(counts)| ==> FocusAreas(counts)[k].0 in CategoryLabels.Values
  {
    var entries := Entries(counts);
    var top := TopCategories(entries);
    forall k | 0 <= k < |top|
      ensures FocusAreas(counts)[k].0 in CategoryLabels.Values
    {
      assert top[k] in multiset(entries);
      var j :| 0 <= j < 7 && entries[j] == top[k];
      var c := Categories[j];
      KnownCategories(Key(c));
      assert FormatCategory(top[k].0) == CategoryLabels[Key(c)];
    }
  }
}
