/** The home page's catalogue filter: a stable filter over the catalogue
    that applies a category test and a free-text search, both conjunctive,
    plus the small page rules around it (result-count label, empty state,
    "clear filters"). */
module Catalogue {
  import opened Text
  import opened Types

  /** The sentinel category value meaning "no category restriction". */
  const AllCategories: string := "all"

  // ---------------------------------------------------------------------
  // The per-entry predicate
  // ---------------------------------------------------------------------

  /** The category test. Only the entry's category is lower-cased; the
      selected value is compared as it is. */
  predicate PassesCategory(app: App, selected: string) {
    selected == AllCategories || ToLower(app.category) == selected
  }

  /** Some tag contains `q` once lower-cased (`tags.some(...)`). */
  predicate AnyTagIncludes(tags: seq<string>, q: string) {
    exists i :: 0 <= i < |tags| && Includes(ToLower(tags[i]), q)
  }

  /** The four-way search: the lower-cased query must occur in the
      lower-cased name, description, some tag or author. */
  predicate MatchesQuery(app: App, query: string) {
    var q := ToLower(query);
    || Includes(ToLower(app.name), q)
    || Includes(ToLower(app.description), q)
    || AnyTagIncludes(app.tags, q)
    || Includes(ToLower(app.author), q)
  }

  /** The search test: an empty query is falsy and skips the search; any
      other query, whitespace included, is searched for literally. */
  predicate PassesSearch(app: App, query: string) {
    query == [] || MatchesQuery(app, query)
  }

  /** The callback given to `apps.filter`. */
  predicate Keep(app: App, query: string, selected: string) {
    PassesCategory(app, selected) && PassesSearch(app, query)
  }

  // ---------------------------------------------------------------------
  // The filter
  // ---------------------------------------------------------------------

  /** `apps.filter(...)`: the entries that pass both tests, in catalogue
      order. */
  function FilterApps(apps: seq<App>, query: string, selected: string): (r: seq<App>)
    ensures |r| <= |apps|
    ensures forall i :: 0 <= i < |r| ==> r[i] in apps && Keep(r[i], query, selected)
    ensures apps == [] ==> r == []
    decreases |apps|
  {
    if apps == [] then []
    else
      var rest := FilterApps(apps[1..], query, selected);
      if Keep(apps[0], query, selected) then [apps[0]] + rest else rest
  }

  /** `a` can be obtained from `b` by deleting elements: order is kept and
      nothing is added or duplicated. */
  ghost predicate IsSubsequence<T>(a: seq<T>, b: seq<T>)
    decreases |b|
  {
    if a == [] then true
    else if b == [] then false
    else if a[0] == b[0] then IsSubsequence(a[1..], b[1..])
    else IsSubsequence(a, b[1..])
  }

  /** The result of the filter is a subsequence of the catalogue. */
  lemma {:induction false} FilterIsSubsequence(apps: seq<App>, query: string, selected: string)
    ensures IsSubsequence(FilterApps(apps, query, selected), apps)
    decreases |apps|
  {
    if apps != [] {
      var rest := FilterApps(apps[1..], query, selected);
      FilterIsSubsequence(apps[1..], query, selected);
      if Keep(apps[0], query, selected) {
        assert ([apps[0]] + rest)[1..] == rest;
      } else if rest != [] {
        if rest[0] == apps[0] {
          // The first kept entry would equal a dropped one, which fails `Keep`.
          assert false;
        }
      }
    }
  }

  /** Exact content of the result: every entry occurs in it exactly as many
      times as in the catalogue when it passes the tests, and not at all
      otherwise. With the subsequence lemma this pins the result down. */
  lemma {:induction false} FilterCounts(apps: seq<App>, query: string, selected: string, a: App)
    ensures multiset(FilterApps(apps, query, selected))[a]
         == if Keep(a, query, selected) then multiset(apps)[a] else 0
    decreases |apps|
  {
    if apps != [] {
      FilterCounts(apps[1..], query, selected, a);
      assert apps == [apps[0]] + apps[1..];
      assert multiset(apps) == multiset([apps[0]]) + multiset(apps[1..]);
    }
  }

  /** Soundness and completeness together: an entry is shown exactly when
      it is in the catalogue and passes both tests. */
  lemma {:induction false} FilterMembership(apps: seq<App>, query: string, selected: string, a: App)
    ensures a in FilterApps(apps, query, selected) <==> a in apps && Keep(a, query, selected)
  {
    FilterCounts(apps, query, selected, a);
  }

  /** With every category and an empty query the catalogue is shown
      unchanged, same entries in the same order. */
  lemma {:induction false} FilterIdentity(apps: seq<App>)
    ensures FilterApps(apps, [], AllCategories) == apps
    decreases |apps|
  {
    if apps != [] {
      FilterIdentity(apps[1..]);
      assert apps == [apps[0]] + apps[1..];
    }
  }

  /** A list whose entries all pass both tests is its own filter result. */
  lemma {:induction false} FilterKeepsAllPassing(apps: seq<App>, query: string, selected: string)
    requires forall i :: 0 <= i < |apps| ==> Keep(apps[i], query, selected)
    ensures FilterApps(apps, query, selected) == apps
    decreases |apps|
  {
    if apps != [] {
      FilterKeepsAllPassing(apps[1..], query, selected);
      assert apps == [apps[0]] + apps[1..];
    }
  }

  /** Filtering the result again with the same query and category changes
      nothing. */
  lemma {:induction false} FilterIdempotent(apps: seq<App>, query: string, selected: string)
    ensures FilterApps(FilterApps(apps, query, selected), query, selected)
         == FilterApps(apps, query, selected)
  {
    FilterKeepsAllPassing(FilterApps(apps, query, selected), query, selected);
  }

  /** A concrete category keeps only entries whose lower-cased category is
      exactly the selected value. */
  lemma CategorySoundness(apps: seq<App>, query: string, selected: string)
    requires selected != AllCategories
    ensures forall a :: a in FilterApps(apps, query, selected) ==> ToLower(a.category) == selected
  {
  }

  /** Since only the entry side is lower-cased, a selected value with an
      upper-case letter matches nothing. */
  lemma {:induction false} UpperCaseSelectionKeepsNothing(apps: seq<App>, query: string, selected: string, k: nat)
    requires k < |selected| && IsUpperChar(selected[k])
    ensures FilterApps(apps, query, selected) == []
  {
    assert !IsLowerCase(selected);
    forall a | a in apps
      ensures !Keep(a, query, selected)
    {
      var l := ToLower(a.category);
      if k < |l| {
        assert l[k] != selected[k];
      }
    }
    EmptyStateIffNoMatch(apps, query, selected);
  }

  /** A non-empty query keeps only entries in one of whose four search
      fields the lower-cased query occurs. */
  lemma {:induction false} SearchSoundness(apps: seq<App>, query: string, selected: string)
    requires query != []
    ensures forall a :: a in FilterApps(apps, query, selected) ==>
      var q := ToLower(query);
      || IsSubstring(q, ToLower(a.name))
      || IsSubstring(q, ToLower(a.description))
      || (exists t :: t in a.tags && IsSubstring(q, ToLower(t)))
      || IsSubstring(q, ToLower(a.author))
  {
    forall a | a in FilterApps(apps, query, selected)
      ensures
        var q := ToLower(query);
        || IsSubstring(q, ToLower(a.name))
        || IsSubstring(q, ToLower(a.description))
        || (exists t :: t in a.tags && IsSubstring(q, ToLower(t)))
        || IsSubstring(q, ToLower(a.author))
    {
      assert MatchesQuery(a, query);
      var q := ToLower(query);
      if AnyTagIncludes(a.tags, q) {
        var i :| 0 <= i < |a.tags| && Includes(ToLower(a.tags[i]), q);
        assert a.tags[i] in a.tags;
      }
    }
  }

  /** An empty query skips the search: the result is exactly the entries
      that pass the category test. */
  lemma {:induction false} EmptyQueryKeepsCategory(apps: seq<App>, selected: string, a: App)
    ensures a in FilterApps(apps, [], selected) <==> a in apps && PassesCategory(a, selected)
  {
    FilterMembership(apps, [], selected, a);
  }

  // ---------------------------------------------------------------------
  // The search as a list of per-field predicates
  // ---------------------------------------------------------------------

  /** The searched fields in the order the search callback tests them. */
  function SearchFields(app: App): (fs: seq<string>)
    ensures |fs| == |app.tags| + 3
    ensures fs[0] == app.name && fs[1] == app.description && fs[|fs| - 1] == app.author
    ensures fs[2..|fs| - 1] == app.tags
  {
    [app.name, app.description] + app.tags + [app.author]
  }

  /** The inlined four-way disjunction is the same as "some search field
      contains the lower-cased query". */
  lemma {:induction false} MatchesQueryIffSomeField(app: App, query: string)
    ensures MatchesQuery(app, query) <==>
      exists f :: f in SearchFields(app) && IsSubstring(ToLower(query), ToLower(f))
  {
    var fs := SearchFields(app);
    var q := ToLower(query);
    if MatchesQuery(app, query) {
      if AnyTagIncludes(app.tags, q) {
        var i :| 0 <= i < |app.tags| && Includes(ToLower(app.tags[i]), q);
        assert fs[i + 2] == app.tags[i];
        assert fs[i + 2] in fs;
      } else if Includes(ToLower(app.author), q) {
        assert fs[|fs| - 1] in fs;
      }
    }
    if exists f :: f in fs && IsSubstring(q, ToLower(f)) {
      var f :| f in fs && IsSubstring(q, ToLower(f));
      var k :| 0 <= k < |fs| && fs[k] == f;
      if 2 <= k < |fs| - 1 {
        assert app.tags[k - 2] == f;
        assert Includes(ToLower(app.tags[k - 2]), q);
      }
    }
  }

  // ---------------------------------------------------------------------
  // Page rules around the filter
  // ---------------------------------------------------------------------

  /** "N app(s) available": the count in decimal, then "app", with an "s"
      unless the count is one. */
  function ResultCountLabel(n: nat): string {
    NatToDecimal(n) + " app" + (if n != 1 then "s" else "") + " available"
  }

  /** The plural "s" is written exactly when the count is not one, and the
      label starts with the count. */
  lemma ResultCountLabelPlural(n: nat)
    ensures var l := ResultCountLabel(n);
      && |l| >= 11
      && (l[|l| - 11..] == "s available" <==> n != 1)
      && l[..|NatToDecimal(n)|] == NatToDecimal(n)
      && l[|NatToDecimal(n)|..|NatToDecimal(n)| + 4] == " app"
  {
    var l := ResultCountLabel(n);
    var d := NatToDecimal(n);
    if n == 1 {
      assert l[|l| - 11] == 'p';
    } else {
      assert l[|l| - 11..] == "s available";
    }
  }

  /** The empty-state view ("No apps found") replaces the grid exactly when
      nothing passes the filter. */
  predicate ShowsEmptyState(apps: seq<App>, query: string, selected: string) {
    |FilterApps(apps, query, selected)| == 0
  }

  /** The "Clear filters" link is offered while a query or a category is
      active. */
  predicate ShowsClearLink(query: string, selected: string) {
    query != [] || selected != AllCategories
  }

  /** The query and category after "Clear filters". */
  datatype FilterState = FilterState(query: string, selected: string)

  function ClearFilters(): (s: FilterState)
    ensures !ShowsClearLink(s.query, s.selected)
    ensures forall apps :: FilterApps(apps, s.query, s.selected) == apps
  {
    forall apps ensures FilterApps(apps, [], AllCategories) == apps {
      FilterIdentity(apps);
    }
    FilterState([], AllCategories)
  }

  /** The empty state shows exactly when no catalogue entry passes both
      tests; in particular an empty catalogue always shows it. */
  lemma {:induction false} EmptyStateIffNoMatch(apps: seq<App>, query: string, selected: string)
    ensures ShowsEmptyState(apps, query, selected) <==>
      forall a :: a in apps ==> !Keep(a, query, selected)
  {
    if !ShowsEmptyState(apps, query, selected) {
      var r := FilterApps(apps, query, selected);
      assert r[0] in r;
      FilterMembership(apps, query, selected, r[0]);
    } else {
      forall a | a in apps
        ensures !Keep(a, query, selected)
      {
        FilterMembership(apps, query, selected, a);
      }
    }
  }
}
