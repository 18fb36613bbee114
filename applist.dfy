/**
 * The app list's filter-and-sort pipeline: a search on the app name (only
 * when the query is not blank), then the category filter, then a stable sort
 * by name, with blocked apps first when that option is on.
 */
module AppList {

  import opened Wrappers
  import opened Text
  import opened FirewallTypes

  /** The apps of `apps` that `keep` accepts, in their order. */
  function Keep(apps: seq<AppInfo>, keep: AppInfo -> bool): (r: seq<AppInfo>)
    ensures forall a | a in r :: a in apps
  {
    if |apps| == 0 then []
    else (if keep(apps[0]) then [apps[0]] else []) + Keep(apps[1..], keep)
  }

  /** `Keep` keeps every accepted app as often as it occurs, and drops every other one. */
  lemma {:induction false} KeepCounts(apps: seq<AppInfo>, keep: AppInfo -> bool)
    ensures forall a :: multiset(Keep(apps, keep))[a] == if keep(a) then multiset(apps)[a] else 0
  {
    if |apps| > 0 {
      KeepCounts(apps[1..], keep);
      assert apps == [apps[0]] + apps[1..];
    }
  }

  /** An app passes the search: no query, a blank query, or a name containing it in any case. */
  predicate MatchesSearch(a: AppInfo, query: Option<string>) {
    query.None? || IsBlank(query.value) || ContainsIgnoreCase(a.appName, query.value)
  }

  /** An app passes the category filter; NAME lists every app. */
  predicate MatchesCategory(a: AppInfo, mode: SortFilterMode) {
    match mode
    case NAME => true
    case SYSTEM => a.isSystemApp
    case USER => !a.isSystemApp
    case INTERNET_ONLY => a.hasInternetPermission
  }

  function SearchFilter(apps: seq<AppInfo>, query: Option<string>): (r: seq<AppInfo>)
    ensures forall a | a in r :: a in apps
  {
    if query.None? || IsBlank(query.value) then apps
    else Keep(apps, (a: AppInfo) => ContainsIgnoreCase(a.appName, query.value))
  }

  function CategoryFilter(apps: seq<AppInfo>, mode: SortFilterMode): (r: seq<AppInfo>)
    ensures forall a | a in r :: a in apps
  {
    match mode
    case SYSTEM => Keep(apps, (a: AppInfo) => a.isSystemApp)
    case USER => Keep(apps, (a: AppInfo) => !a.isSystemApp)
    case INTERNET_ONLY => Keep(apps, (a: AppInfo) => a.hasInternetPermission)
    case NAME => apps
  }

  /** Both filters keep each app of the list exactly as often as it occurs when it passes both, and never otherwise. */
  lemma FiltersKeepMatching(apps: seq<AppInfo>, query: Option<string>, mode: SortFilterMode)
    ensures forall a :: multiset(CategoryFilter(SearchFilter(apps, query), mode))[a] ==
                        if MatchesSearch(a, query) && MatchesCategory(a, mode) then multiset(apps)[a] else 0
  {
    var searched := SearchFilter(apps, query);
    if !(query.None? || IsBlank(query.value)) {
      KeepCounts(apps, (a: AppInfo) => ContainsIgnoreCase(a.appName, query.value));
    }
    match mode
    case SYSTEM => KeepCounts(searched, (a: AppInfo) => a.isSystemApp);
    case USER => KeepCounts(searched, (a: AppInfo) => !a.isSystemApp);
    case INTERNET_ONLY => KeepCounts(searched, (a: AppInfo) => a.hasInternetPermission);
    case NAME =>
  }

  // ---------------------------------------------------------------------------
  // The sort.

  predicate IsBlocked(a: AppInfo)
    reads a`isWifiBlocked, a`isDataBlocked
  {
    a.isWifiBlocked || a.isDataBlocked
  }

  /** The first sort key: with blocked-first on, blocked apps rank before the others. */
  function Rank(a: AppInfo, blockedFirst: bool): int
    reads a`isWifiBlocked, a`isDataBlocked
  {
    if blockedFirst && !IsBlocked(a) then 1 else 0
  }

  /** `a` may come before `b`: lower rank, or equal rank and a lowercased name not after `b`'s. */
  predicate KeyLe(a: AppInfo, b: AppInfo, blockedFirst: bool)
    reads a`isWifiBlocked, a`isDataBlocked, b`isWifiBlocked, b`isDataBlocked
  {
    Rank(a, blockedFirst) < Rank(b, blockedFirst) ||
    (Rank(a, blockedFirst) == Rank(b, blockedFirst) && LexLe(Lower(a.appName), Lower(b.appName)))
  }

  lemma KeyLeTotal(a: AppInfo, b: AppInfo, blockedFirst: bool)
    ensures KeyLe(a, b, blockedFirst) || KeyLe(b, a, blockedFirst)
  {
    LexLeTotal(Lower(a.appName), Lower(b.appName));
  }

  lemma KeyLeTransitive(a: AppInfo, b: AppInfo, c: AppInfo, blockedFirst: bool)
    requires KeyLe(a, b, blockedFirst) && KeyLe(b, c, blockedFirst)
    ensures KeyLe(a, c, blockedFirst)
  {
    if Rank(a, blockedFirst) == Rank(b, blockedFirst) == Rank(c, blockedFirst) {
      LexLeTransitive(Lower(a.appName), Lower(b.appName), Lower(c.appName));
    }
  }

  ghost predicate SortedBy(s: seq<AppInfo>, blockedFirst: bool)
    reads (set a | a in s)`isWifiBlocked, (set a | a in s)`isDataBlocked
  {
    forall i, j :: 0 <= i < j < |s| ==> KeyLe(s[i], s[j], blockedFirst)
  }

  /** Places `x` before the first app it may precede; apps of equal key keep their order. */
  function Insert(x: AppInfo, s: seq<AppInfo>, blockedFirst: bool): (r: seq<AppInfo>)
    reads x`isWifiBlocked, x`isDataBlocked, (set a | a in s)`isWifiBlocked, (set a | a in s)`isDataBlocked
    ensures forall a | a in r :: a == x || a in s
  {
    if |s| == 0 then [x]
    else if KeyLe(x, s[0], blockedFirst) then [x] + s
    else [s[0]] + Insert(x, s[1..], blockedFirst)
  }

  lemma {:induction false} InsertPermutes(x: AppInfo, s: seq<AppInfo>, blockedFirst: bool)
    ensures multiset(Insert(x, s, blockedFirst)) == multiset(s) + multiset{x}
  {
    if |s| > 0 && !KeyLe(x, s[0], blockedFirst) {
      InsertPermutes(x, s[1..], blockedFirst);
      assert s == [s[0]] + s[1..];
    }
  }

  /** Kotlin's stable `sortedWith` on the key above, as an insertion sort. */
  function SortApps(s: seq<AppInfo>, blockedFirst: bool): (r: seq<AppInfo>)
    reads (set a | a in s)`isWifiBlocked, (set a | a in s)`isDataBlocked
    ensures forall a | a in r :: a in s
  {
    if |s| == 0 then []
    else Insert(s[0], SortApps(s[1..], blockedFirst), blockedFirst)
  }

  /** The sort is a permutation. */
  lemma {:induction false} SortAppsPermutes(s: seq<AppInfo>, blockedFirst: bool)
    ensures multiset(SortApps(s, blockedFirst)) == multiset(s)
  {
    if |s| > 0 {
      SortAppsPermutes(s[1..], blockedFirst);
      InsertPermutes(s[0], SortApps(s[1..], blockedFirst), blockedFirst);
      assert s == [s[0]] + s[1..];
    }
  }

  lemma {:induction false} InsertSorted(x: AppInfo, s: seq<AppInfo>, blockedFirst: bool)
    requires SortedBy(s, blockedFirst)
    ensures SortedBy(Insert(x, s, blockedFirst), blockedFirst)
  {
    var r := Insert(x, s, blockedFirst);
    if |s| == 0 {
    } else if KeyLe(x, s[0], blockedFirst) {
      forall i, j | 0 <= i < j < |r|
        ensures KeyLe(r[i], r[j], blockedFirst)
      {
        if i == 0 && j > 1 {
          KeyLeTransitive(x, s[0], s[j - 1], blockedFirst);
        }
      }
    } else {
      var rest := Insert(x, s[1..], blockedFirst);
      InsertSorted(x, s[1..], blockedFirst);
      KeyLeTotal(x, s[0], blockedFirst);
      forall i, j | 0 <= i < j < |r|
        ensures KeyLe(r[i], r[j], blockedFirst)
      {
        if i == 0 {
          var y := rest[j - 1];
          assert y in rest;
          assert y == x || y in s[1..];
          if y != x {
            var k :| 0 <= k < |s[1..]| && s[1..][k] == y;
            assert s[k + 1] == y;
          }
        }
      }
    }
  }

  lemma {:induction false} SortAppsSorted(s: seq<AppInfo>, blockedFirst: bool)
    ensures SortedBy(SortApps(s, blockedFirst), blockedFirst)
  {
    if |s| > 0 {
      SortAppsSorted(s[1..], blockedFirst);
      InsertSorted(s[0], SortApps(s[1..], blockedFirst), blockedFirst);
    }
  }

  /** The list the adapter shows. */
  function DisplayList(master: seq<AppInfo>, query: Option<string>, mode: SortFilterMode,
                       blockedFirst: bool): seq<AppInfo>
    reads (set a | a in master)`isWifiBlocked, (set a | a in master)`isDataBlocked
  {
    var filtered := CategoryFilter(SearchFilter(master, query), mode);
    SortApps(filtered, blockedFirst)
  }

  /**
   * The shown list is sorted, and holds each app of the master list that
   * passes both filters, as often as it occurs there, and no other app.
   */
  lemma DisplayListSpec(master: seq<AppInfo>, query: Option<string>, mode: SortFilterMode, blockedFirst: bool)
    ensures SortedBy(DisplayList(master, query, mode, blockedFirst), blockedFirst)
    ensures forall a :: multiset(DisplayList(master, query, mode, blockedFirst))[a] ==
                        if MatchesSearch(a, query) && MatchesCategory(a, mode) then multiset(master)[a] else 0
  {
    var filtered := CategoryFilter(SearchFilter(master, query), mode);
    SortAppsSorted(filtered, blockedFirst);
    SortAppsPermutes(filtered, blockedFirst);
    FiltersKeepMatching(master, query, mode);
  }

  /** With blocked-first on, every blocked app is shown before every app that is not. */
  lemma BlockedFirstOrder(master: seq<AppInfo>, query: Option<string>, mode: SortFilterMode)
    ensures var r := DisplayList(master, query, mode, true);
      forall i, j :: 0 <= i < |r| && 0 <= j < |r| && IsBlocked(r[i]) && !IsBlocked(r[j]) ==> i < j
  {
    var r := DisplayList(master, query, mode, true);
    DisplayListSpec(master, query, mode, true);
    forall i, j | 0 <= i < |r| && 0 <= j < |r| && IsBlocked(r[i]) && !IsBlocked(r[j])
      ensures i < j
    {
    }
  }
}
