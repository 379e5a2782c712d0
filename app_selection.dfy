/**
 * The app chooser (`AppSelectionActivity`): the list of launchable apps it
 * offers (merged, one per package, without the app itself, sorted by name),
 * the packages it starts with ticked, and the comma-separated result.
 */
module AppSelection {
  import opened Text

  /** One launcher activity as the package manager reports it. */
  datatype ResolvedApp = ResolvedApp(packageName: string, labelText: string)

  /** A row of the chooser. */
  datatype AppItem = AppItem(name: string, packageName: string, isSelected: bool)

  /** The pre-selection: the comma-separated pieces of the incoming extra,
      or nothing when the extra is absent. */
  function PreSelected(extra: Option<string>): (r: set<string>)
    ensures extra.None? ==> r == {}
    ensures extra.Some? ==> forall t :: t in r <==> t in Split(extra.value, ',')
  {
    match extra
    case None => {}
    case Some(s) => set t | t in Split(s, ',')
  }

  predicate DistinctResolved(apps: seq<ResolvedApp>)
  {
    forall i, j :: 0 <= i < j < |apps| ==> apps[i].packageName != apps[j].packageName
  }

  /** The packages among some activities. */
  function Packages(apps: seq<ResolvedApp>): set<string>
  {
    set a | a in apps :: a.packageName
  }

  /** The first activity of package `p`, if any. */
  function FirstOf(apps: seq<ResolvedApp>, p: string): (r: Option<ResolvedApp>)
    ensures r.None? <==> p !in Packages(apps)
    ensures r.Some? ==> r.value in apps && r.value.packageName == p
  {
    if |apps| == 0 then None
    else if apps[0].packageName == p then Some(apps[0])
    else
      var r := FirstOf(apps[1..], p);
      assert apps == [apps[0]] + apps[1..];
      assert Packages(apps) == {apps[0].packageName} + Packages(apps[1..]);
      r
  }

  /** `distinctBy` once the packages in `seen` have been met. */
  function DistinctFrom(apps: seq<ResolvedApp>, seen: set<string>): (r: seq<ResolvedApp>)
    ensures |r| <= |apps|
  {
    if |apps| == 0 then []
    else if apps[0].packageName in seen then DistinctFrom(apps[1..], seen)
    else [apps[0]] + DistinctFrom(apps[1..], seen + {apps[0].packageName})
  }

  /** `distinctBy` keeps no package twice and none already seen. */
  lemma {:induction false} DistinctFromDistinct(apps: seq<ResolvedApp>, seen: set<string>)
    ensures DistinctResolved(DistinctFrom(apps, seen))
    ensures forall b :: b in DistinctFrom(apps, seen) ==> b in apps && b.packageName !in seen
  {
    if |apps| > 0 {
      var h, t := apps[0], apps[1..];
      if h.packageName in seen {
        DistinctFromDistinct(t, seen);
      } else {
        var seen' := seen + {h.packageName};
        DistinctFromDistinct(t, seen');
        var rest := DistinctFrom(t, seen');
        var r := [h] + rest;
        assert r == DistinctFrom(apps, seen);
        forall i, j | 0 <= i < j < |r| ensures r[i].packageName != r[j].packageName {
          assert r[j] == rest[j - 1];
          if i == 0 { assert r[j] in rest; }
          else { assert r[i] == rest[i - 1]; }
        }
      }
    }
  }

  /** `distinctBy` keeps every package not yet seen. */
  lemma {:induction false} DistinctFromPackages(apps: seq<ResolvedApp>, seen: set<string>)
    ensures Packages(DistinctFrom(apps, seen)) == Packages(apps) - seen
  {
    if |apps| > 0 {
      var h, t := apps[0], apps[1..];
      assert apps == [h] + t;
      assert Packages(apps) == {h.packageName} + Packages(t);
      if h.packageName in seen {
        DistinctFromPackages(t, seen);
      } else {
        var seen' := seen + {h.packageName};
        DistinctFromPackages(t, seen');
        var rest := DistinctFrom(t, seen');
        assert Packages([h] + rest) == {h.packageName} + Packages(rest);
      }
    }
  }

  /** What `distinctBy` keeps of a package is its first activity. */
  lemma {:induction false} DistinctFromFirsts(apps: seq<ResolvedApp>, seen: set<string>)
    ensures forall b :: b in DistinctFrom(apps, seen) ==> FirstOf(apps, b.packageName) == Some(b)
  {
    if |apps| > 0 {
      var h, t := apps[0], apps[1..];
      if h.packageName in seen {
        DistinctFromFirsts(t, seen);
        DistinctFromDistinct(t, seen);
      } else {
        var seen' := seen + {h.packageName};
        DistinctFromFirsts(t, seen');
        DistinctFromDistinct(t, seen');
      }
    }
  }

  /** `distinctBy { packageName }`: the first activity of every package, in order. */
  function DistinctByPackage(apps: seq<ResolvedApp>): (r: seq<ResolvedApp>)
    ensures DistinctResolved(r)
    ensures Packages(r) == Packages(apps)
    ensures forall b :: b in r ==> FirstOf(apps, b.packageName) == Some(b)
  {
    DistinctFromDistinct(apps, {});
    DistinctFromPackages(apps, {});
    DistinctFromFirsts(apps, {});
    DistinctFrom(apps, {})
  }

  /** A row's package. */
  function ItemPackages(items: seq<AppItem>): set<string>
  {
    set it | it in items :: it.packageName
  }

  /** `mapNotNull`: a row per activity, except for the app's own package; a
      row starts ticked when its package was pre-selected. */
  function ToItems(apps: seq<ResolvedApp>, ownPackage: string, pre: set<string>): (r: seq<AppItem>)
    ensures |r| <= |apps|
  {
    if |apps| == 0 then []
    else if apps[0].packageName == ownPackage then ToItems(apps[1..], ownPackage, pre)
    else [AppItem(apps[0].labelText, apps[0].packageName, apps[0].packageName in pre)]
         + ToItems(apps[1..], ownPackage, pre)
  }

  /** Every row comes from an activity of another package and is ticked
      exactly when its package was pre-selected. */
  lemma {:induction false} ToItemsRows(apps: seq<ResolvedApp>, ownPackage: string, pre: set<string>)
    ensures forall it :: it in ToItems(apps, ownPackage, pre) ==>
              it.packageName != ownPackage && (it.isSelected <==> it.packageName in pre)
              && ResolvedApp(it.packageName, it.name) in apps
  {
    if |apps| > 0 {
      var t := apps[1..];
      ToItemsRows(t, ownPackage, pre);
      assert forall b :: b in t ==> b in apps;
    }
  }

  /** Every package other than the app's own gets a row. */
  lemma {:induction false} ToItemsPackages(apps: seq<ResolvedApp>, ownPackage: string, pre: set<string>)
    ensures ItemPackages(ToItems(apps, ownPackage, pre)) == Packages(apps) - {ownPackage}
  {
    if |apps| > 0 {
      var a, t := apps[0], apps[1..];
      assert apps == [a] + t;
      assert Packages(apps) == {a.packageName} + Packages(t);
      ToItemsPackages(t, ownPackage, pre);
      if a.packageName != ownPackage {
        var rest := ToItems(t, ownPackage, pre);
        var row := AppItem(a.labelText, a.packageName, a.packageName in pre);
        assert ItemPackages([row] + rest) == {a.packageName} + ItemPackages(rest);
      }
    }
  }

  /** Activities of distinct packages give rows of distinct packages. */
  lemma {:induction false} ToItemsDistinct(apps: seq<ResolvedApp>, ownPackage: string, pre: set<string>)
    requires DistinctResolved(apps)
    ensures DistinctPackages(ToItems(apps, ownPackage, pre))
  {
    if |apps| > 0 {
      var a, t := apps[0], apps[1..];
      assert DistinctResolved(t) by {
        forall i, j | 0 <= i < j < |t| ensures t[i].packageName != t[j].packageName {
          assert t[i] == apps[i + 1] && t[j] == apps[j + 1];
        }
      }
      ToItemsDistinct(t, ownPackage, pre);
      if a.packageName != ownPackage {
        var rest := ToItems(t, ownPackage, pre);
        var r := ToItems(apps, ownPackage, pre);
        assert r == [AppItem(a.labelText, a.packageName, a.packageName in pre)] + rest;
        ToItemsRows(t, ownPackage, pre);
        forall it | it in rest ensures it.packageName != a.packageName {
          var k :| 0 <= k < |t| && t[k] == ResolvedApp(it.packageName, it.name);
          assert apps[k + 1] == t[k];
        }
        forall i, j | 0 <= i < j < |r| ensures r[i].packageName != r[j].packageName {
          assert r[j] == rest[j - 1];
          if i > 0 { assert r[i] == rest[i - 1]; }
          else { assert r[j] in rest; }
        }
      }
    }
  }

  /** Kotlin's `String.compareTo(other) <= 0`: lexicographic by character,
      a proper prefix first. */
  predicate NameLe(a: string, b: string)
  {
    if |a| == 0 then true
    else if |b| == 0 then false
    else if a[0] != b[0] then a[0] < b[0]
    else NameLe(a[1..], b[1..])
  }

  lemma {:induction false} NameLeTotal(a: string, b: string)
    ensures NameLe(a, b) || NameLe(b, a)
  {
    if |a| > 0 && |b| > 0 && a[0] == b[0] {
      NameLeTotal(a[1..], b[1..]);
    }
  }

  lemma {:induction false} NameLeTransitive(a: string, b: string, c: string)
    requires NameLe(a, b) && NameLe(b, c)
    ensures NameLe(a, c)
  {
    if |a| > 0 && |b| > 0 && |c| > 0 && a[0] == b[0] == c[0] {
      NameLeTransitive(a[1..], b[1..], c[1..]);
    }
  }

  lemma {:induction false} NameLeAntisymmetric(a: string, b: string)
    requires NameLe(a, b) && NameLe(b, a)
    ensures a == b
  {
    if |a| > 0 && |b| > 0 {
      NameLeAntisymmetric(a[1..], b[1..]);
      assert a == [a[0]] + a[1..];
      assert b == [b[0]] + b[1..];
    }
  }

  predicate SortedByName(xs: seq<AppItem>)
  {
    forall i, j :: 0 <= i < j < |xs| ==> NameLe(xs[i].name, xs[j].name)
  }

  predicate DistinctPackages(xs: seq<AppItem>)
  {
    forall i, j :: 0 <= i < j < |xs| ==> xs[i].packageName != xs[j].packageName
  }

  /** Put `x` in front of the first row it does not come after. */
  function Insert(x: AppItem, ys: seq<AppItem>): (r: seq<AppItem>)
    ensures multiset(r) == multiset(ys) + multiset{x}
  {
    if |ys| == 0 || NameLe(x.name, ys[0].name) then [x] + ys
    else
      assert ys == [ys[0]] + ys[1..];
      [ys[0]] + Insert(x, ys[1..])
  }

  /** The rows of `Insert(x, ys)` are `x` and the rows of `ys`. */
  lemma InsertMembers(x: AppItem, ys: seq<AppItem>)
    ensures forall z :: z in Insert(x, ys) <==> z == x || z in ys
  {
    var r := Insert(x, ys);
    forall z ensures z in r <==> z == x || z in ys {
      assert z in r <==> z in multiset(r);
      assert z in ys <==> z in multiset(ys);
    }
  }

  lemma {:induction false} InsertSorted(x: AppItem, ys: seq<AppItem>)
    requires SortedByName(ys)
    ensures SortedByName(Insert(x, ys))
  {
    var r := Insert(x, ys);
    if |ys| == 0 || NameLe(x.name, ys[0].name) {
      forall i, j | 0 <= i < j < |r| ensures NameLe(r[i].name, r[j].name) {
        assert r[j] == ys[j - 1];
        if i > 0 { assert r[i] == ys[i - 1]; }
        else if j > 1 { NameLeTransitive(x.name, ys[0].name, ys[j - 1].name); }
      }
    } else {
      var t := ys[1..];
      assert SortedByName(t) by {
        forall i, j | 0 <= i < j < |t| ensures NameLe(t[i].name, t[j].name) {
          assert t[i] == ys[i + 1] && t[j] == ys[j + 1];
        }
      }
      InsertSorted(x, t);
      InsertMembers(x, t);
      NameLeTotal(x.name, ys[0].name);
      var rest := Insert(x, t);
      forall i, j | 0 <= i < j < |r| ensures NameLe(r[i].name, r[j].name) {
        assert r[j] == rest[j - 1];
        if i > 0 { assert r[i] == rest[i - 1]; }
        else if r[j] != x {
          assert r[j] in t;
          var k :| 0 <= k < |t| && t[k] == r[j];
          assert ys[k + 1] == r[j];
        }
      }
    }
  }

  lemma {:induction false} InsertDistinct(x: AppItem, ys: seq<AppItem>)
    requires DistinctPackages(ys) && x.packageName !in ItemPackages(ys)
    ensures DistinctPackages(Insert(x, ys))
  {
    var r := Insert(x, ys);
    if |ys| == 0 || NameLe(x.name, ys[0].name) {
      forall i, j | 0 <= i < j < |r| ensures r[i].packageName != r[j].packageName {
        assert r[j] == ys[j - 1];
        if i > 0 { assert r[i] == ys[i - 1]; }
      }
    } else {
      var t := ys[1..];
      assert DistinctPackages(t) by {
        forall i, j | 0 <= i < j < |t| ensures t[i].packageName != t[j].packageName {
          assert t[i] == ys[i + 1] && t[j] == ys[j + 1];
        }
      }
      assert x.packageName !in ItemPackages(t) by {
        forall y | y in t ensures y.packageName != x.packageName {
          assert y in ys;
        }
      }
      InsertDistinct(x, t);
      InsertMembers(x, t);
      var rest := Insert(x, t);
      forall i, j | 0 <= i < j < |r| ensures r[i].packageName != r[j].packageName {
        assert r[j] == rest[j - 1];
        if i > 0 { assert r[i] == rest[i - 1]; }
        else if r[j] != x {
          assert r[j] in t;
          var k :| 0 <= k < |t| && t[k] == r[j];
          assert ys[k + 1] == r[j];
        } else {
          assert ys[0] in ys;
        }
      }
    }
  }

  /** `sortedBy { name }`: a stable insertion sort by name. */
  function SortByName(xs: seq<AppItem>): (r: seq<AppItem>)
    ensures multiset(r) == multiset(xs)
  {
    if |xs| == 0 then []
    else
      assert xs == [xs[0]] + xs[1..];
      Insert(xs[0], SortByName(xs[1..]))
  }

  /** The sort keeps the rows, and so their packages. */
  lemma SortByNameMembers(xs: seq<AppItem>)
    ensures forall z :: z in SortByName(xs) <==> z in xs
    ensures ItemPackages(SortByName(xs)) == ItemPackages(xs)
  {
    var r := SortByName(xs);
    forall z ensures z in r <==> z in xs {
      assert z in r <==> z in multiset(r);
      assert z in xs <==> z in multiset(xs);
    }
  }

  /** The sort yields rows ordered by name. */
  lemma {:induction false} SortByNameSorted(xs: seq<AppItem>)
    ensures SortedByName(SortByName(xs))
  {
    if |xs| > 0 {
      SortByNameSorted(xs[1..]);
      InsertSorted(xs[0], SortByName(xs[1..]));
    }
  }

  /** The sort keeps packages distinct. */
  lemma {:induction false} SortByNameDistinct(xs: seq<AppItem>)
    requires DistinctPackages(xs)
    ensures DistinctPackages(SortByName(xs))
  {
    if |xs| > 0 {
      var t := xs[1..];
      assert DistinctPackages(t) by {
        forall i, j | 0 <= i < j < |t| ensures t[i].packageName != t[j].packageName {
          assert t[i] == xs[i + 1] && t[j] == xs[j + 1];
        }
      }
      SortByNameDistinct(t);
      SortByNameMembers(t);
      assert xs[0].packageName !in ItemPackages(t) by {
        forall y | y in t ensures y.packageName != xs[0].packageName {
          var k :| 0 <= k < |t| && t[k] == y;
          assert xs[k + 1] == y;
        }
      }
      InsertDistinct(xs[0], SortByName(t));
    }
  }

  /** The list `loadApps` builds from the launcher and TV-launcher activities:
      one row per package other than the app's own, showing that package's
      first activity, ticked exactly when pre-selected, sorted by name. */
  function BuildAppList(launcher: seq<ResolvedApp>, leanback: seq<ResolvedApp>,
                        ownPackage: string, pre: set<string>): (r: seq<AppItem>)
    ensures DistinctPackages(r)
    ensures SortedByName(r)
    ensures ItemPackages(r) == Packages(launcher + leanback) - {ownPackage}
    ensures forall it :: it in r ==> it.packageName != ownPackage
    ensures forall it :: it in r ==> (it.isSelected <==> it.packageName in pre)
    ensures forall it :: it in r ==>
              FirstOf(launcher + leanback, it.packageName) == Some(ResolvedApp(it.packageName, it.name))
  {
    var unique := DistinctByPackage(launcher + leanback);
    var items := ToItems(unique, ownPackage, pre);
    ToItemsRows(unique, ownPackage, pre);
    ToItemsPackages(unique, ownPackage, pre);
    ToItemsDistinct(unique, ownPackage, pre);
    SortByNameMembers(items);
    SortByNameSorted(items);
    SortByNameDistinct(items);
    SortByName(items)
  }

  /** The packages of the ticked rows, in list order. */
  function SelectedPackages(items: seq<AppItem>): (r: seq<string>)
    ensures |r| <= |items|
    ensures forall p :: p in r <==> exists it :: it in items && it.isSelected && it.packageName == p
    ensures DistinctPackages(items) ==> |r| == |SelectedSet(items)|
  {
    if |items| == 0 then []
    else
      var rest := SelectedPackages(items[1..]);
      assert items == [items[0]] + items[1..];
      SelectedSetCons(items);
      HeadNotLater(items);
      (if items[0].isSelected then [items[0].packageName] else []) + rest
  }

  /** The ticked set of a list: its first row's package, if ticked, and the rest's. */
  lemma SelectedSetCons(items: seq<AppItem>)
    requires |items| > 0
    ensures SelectedSet(items) ==
              (if items[0].isSelected then {items[0].packageName} else {}) + SelectedSet(items[1..])
  {
    assert items == [items[0]] + items[1..];
    forall p | p in SelectedSet(items)
      ensures p in (if items[0].isSelected then {items[0].packageName} else {}) + SelectedSet(items[1..])
    {
      var it :| it in items && it.isSelected && it.packageName == p;
      if it != items[0] {
        assert it in items[1..];
      }
    }
  }

  /** In a list with distinct packages, the first row's package does not
      come back later, and the rest still has distinct packages. */
  lemma HeadNotLater(items: seq<AppItem>)
    requires |items| > 0
    ensures DistinctPackages(items) ==>
              DistinctPackages(items[1..]) && items[0].packageName !in SelectedSet(items[1..])
  {
    if DistinctPackages(items) {
      forall it | it in items[1..] ensures it.packageName != items[0].packageName {
        var j :| 0 <= j < |items[1..]| && items[1..][j] == it;
        assert items[j + 1] == it;
      }
    }
  }

  /** The result keeps the rows' order: the packages ticked in `a` come
      before those ticked in `b`. */
  lemma {:induction false} SelectedPackagesAppend(a: seq<AppItem>, b: seq<AppItem>)
    ensures SelectedPackages(a + b) == SelectedPackages(a) + SelectedPackages(b)
  {
    if |a| == 0 {
      assert a + b == b;
    } else {
      assert (a + b)[0] == a[0];
      assert (a + b)[1..] == a[1..] + b;
      SelectedPackagesAppend(a[1..], b);
    }
  }

  /** "Done": the ticked packages joined with commas. */
  function ResultApps(items: seq<AppItem>): (r: string)
    ensures SelectedSet(items) == {} ==> r == ""
    ensures r == "" ==> SelectedSet(items) <= {""}
  {
    var names := SelectedPackages(items);
    SelectedPackagesSet(items);
    if names == [] then Join(names, ',')
    else
      assert names[0] in names;
      var r := Join(names, ',');
      assert r == "" ==> names == [""];
      r
  }

  /** The result's names are exactly the ticked set. */
  lemma SelectedPackagesSet(items: seq<AppItem>)
    ensures forall p :: p in SelectedPackages(items) <==> p in SelectedSet(items)
  {
    forall p ensures p in SelectedPackages(items) <==> p in SelectedSet(items) {
      if p in SelectedPackages(items) {
        var it :| it in items && it.isSelected && it.packageName == p;
      }
    }
  }

  /** The ticked packages as a set. */
  function SelectedSet(items: seq<AppItem>): set<string>
  {
    set it | it in items && it.isSelected :: it.packageName
  }

  /** Reading a result back as a pre-selection gives exactly the ticked
      packages, as long as no package name holds a comma; with nothing
      ticked it gives the single empty name. */
  lemma SelectionRoundTrip(items: seq<AppItem>)
    requires forall it :: it in items ==> ',' !in it.packageName
    ensures SelectedSet(items) != {} ==> PreSelected(Some(ResultApps(items))) == SelectedSet(items)
    ensures SelectedSet(items) == {} ==> PreSelected(Some(ResultApps(items))) == {""}
  {
    var names := SelectedPackages(items);
    if names == [] {
      assert forall it :: it in items && it.isSelected ==> it.packageName in names;
      assert SelectedSet(items) == {};
      assert PreSelected(Some(ResultApps(items))) == {""};
    } else {
      assert forall i :: 0 <= i < |names| ==> ',' !in names[i] by {
        forall i | 0 <= i < |names| ensures ',' !in names[i] {
          assert names[i] in names;
        }
      }
      SplitJoin(names, ',');
      assert names[0] in names;
      assert PreSelected(Some(ResultApps(items))) == SelectedSet(items);
    }
  }

  /** Opening the chooser again on its own result ticks exactly the packages
      that were ticked before, whatever the package manager now lists. */
  lemma ReopenKeepsSelection(items: seq<AppItem>, launcher: seq<ResolvedApp>,
                             leanback: seq<ResolvedApp>, ownPackage: string)
    requires forall it :: it in items ==> ',' !in it.packageName && it.packageName != ""
    requires forall a :: a in launcher + leanback ==> a.packageName != ""
    ensures forall it :: it in BuildAppList(launcher, leanback, ownPackage, PreSelected(Some(ResultApps(items)))) ==>
              (it.isSelected <==> it.packageName in SelectedSet(items))
  {
    SelectionRoundTrip(items);
  }

  /** The chooser screen: its own package, the pre-selection, the rows and
      the result it hands back. */
  class AppSelectionActivity {
    const ownPackage: string
    const preSelected: set<string>
    var appList: seq<AppItem>
    var result: Option<string>
    var finished: bool

    ghost predicate Valid()
      reads this
    {
      DistinctPackages(appList) && SortedByName(appList)
      && forall it :: it in appList ==> it.packageName != ownPackage
    }

    /** `onCreate`: read the pre-selection from the `selected_apps` extra. */
    constructor (ownPackage: string, extra: Option<string>)
      ensures this.ownPackage == ownPackage && preSelected == PreSelected(extra)
      ensures appList == [] && result.None? && !finished && Valid()
    {
      this.ownPackage := ownPackage;
      preSelected := PreSelected(extra);
      appList := [];
      result := None;
      finished := false;
    }

    /** `loadApps`, once the package manager has answered: clear the list and refill it. */
    method LoadApps(launcher: seq<ResolvedApp>, leanback: seq<ResolvedApp>)
      modifies this`appList
      ensures appList == BuildAppList(launcher, leanback, ownPackage, preSelected)
      ensures Valid()
    {
      var items := BuildAppList(launcher, leanback, ownPackage, preSelected);
      appList := [];
      appList := appList + items;
    }

    /** The adapter's check-box callback on row `i`. */
    method SetSelected(i: int, selected: bool)
      requires Valid() && 0 <= i < |appList|
      modifies this`appList
      ensures appList == old(appList)[i := old(appList)[i].(isSelected := selected)]
      ensures Valid()
    {
      appList := appList[i := appList[i].(isSelected := selected)];
      assert forall it :: it in appList ==> it == appList[i] || it in old(appList) by {
        forall it | it in appList ensures it == appList[i] || it in old(appList) {
          var k :| 0 <= k < |appList| && appList[k] == it;
          if k != i { assert old(appList)[k] == it; }
        }
      }
      assert old(appList)[i] in old(appList);
    }

    /** "Done": hand back the ticked packages and close. */
    method Done()
      modifies this`result, this`finished
      ensures result == Some(ResultApps(appList)) && finished
    {
      result := Some(ResultApps(appList));
      finished := true;
    }
  }
}
