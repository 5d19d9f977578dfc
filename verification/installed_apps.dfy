/**
 * The filtering and ordering part of `getInstalledApps`: keep the
 * applications without the system flag, in installation-list order, and
 * sort them by display name. The package manager's answers (labels, flags,
 * icon bytes) are parameters; icon rendering is not modelled.
 */
module InstalledApps {

  /** ApplicationInfo.FLAG_SYSTEM. */
  const FlagSystem: bv32 := 1

  /** What the package manager reports for one installed application. */
  datatype AppInfo = AppInfo(packageName: string, appLabel: string, flags: bv32, icon: seq<bv8>)

  /** One map of the list handed back over the channel: "name", "packageName", "icon". */
  datatype AppEntry = AppEntry(name: string, packageName: string, icon: seq<bv8>)

  predicate IsUserApp(app: AppInfo)
  {
    app.flags & FlagSystem == 0
  }

  function EntryOf(app: AppInfo): AppEntry
  {
    AppEntry(app.appLabel, app.packageName, app.icon)
  }

  /** The entries of the non-system applications, in the package manager's order. */
  function UserEntries(installed: seq<AppInfo>): (entries: seq<AppEntry>)
    ensures |entries| <= |installed|
  {
    if installed == [] then []
    else
      var last := installed[|installed| - 1];
      UserEntries(installed[..|installed| - 1]) + (if IsUserApp(last) then [EntryOf(last)] else [])
  }

  /** An entry is listed exactly when some non-system application produces it. */
  lemma {:induction false} UserEntriesMembers(installed: seq<AppInfo>, e: AppEntry)
    ensures e in UserEntries(installed) <==> exists app :: app in installed && IsUserApp(app) && EntryOf(app) == e
  {
    if installed != [] {
      var init := installed[..|installed| - 1];
      UserEntriesMembers(init, e);
      assert installed == init + [installed[|installed| - 1]];
      if e in UserEntries(installed) && e !in UserEntries(init) {
        assert EntryOf(installed[|installed| - 1]) == e;
      }
      if exists app :: app in installed && IsUserApp(app) && EntryOf(app) == e {
        var app :| app in installed && IsUserApp(app) && EntryOf(app) == e;
        if app !in init {
          assert app == installed[|installed| - 1];
        }
      }
    }
  }

  /**
   * Kotlin's `String.compareTo`: lexicographic on characters, a proper prefix
   * ordered first.
   */
  predicate NameLe(a: string, b: string)
  {
    if a == [] then true
    else if b == [] then false
    else if a[0] != b[0] then a[0] < b[0]
    else NameLe(a[1..], b[1..])
  }

  lemma {:induction false} NameLeTotal(a: string, b: string)
    ensures NameLe(a, b) || NameLe(b, a)
  {
    if a != [] && b != [] && a[0] == b[0] {
      NameLeTotal(a[1..], b[1..]);
    }
  }

  lemma {:induction false} NameLeTransitive(a: string, b: string, c: string)
    requires NameLe(a, b) && NameLe(b, c)
    ensures NameLe(a, c)
  {
    if a != [] && b != [] && c != [] && a[0] == b[0] && b[0] == c[0] {
      NameLeTransitive(a[1..], b[1..], c[1..]);
    }
  }

  predicate SortedByName(s: seq<AppEntry>)
  {
    forall i, j :: 0 <= i < j < |s| ==> NameLe(s[i].name, s[j].name)
  }

  /**
   * Inserts `x` into a name-sorted list in front of every entry whose name is
   * not smaller, so that equal names keep their original order.
   */
  function InsertByName(x: AppEntry, sorted: seq<AppEntry>): (r: seq<AppEntry>)
    ensures multiset(r) == multiset(sorted) + multiset{x}
  {
    if sorted == [] || NameLe(x.name, sorted[0].name) then
      [x] + sorted
    else
      assert sorted == [sorted[0]] + sorted[1..];
      [sorted[0]] + InsertByName(x, sorted[1..])
  }

  lemma {:induction false} InsertByNameSorted(x: AppEntry, sorted: seq<AppEntry>)
    requires SortedByName(sorted)
    ensures SortedByName(InsertByName(x, sorted))
  {
    if sorted == [] || NameLe(x.name, sorted[0].name) {
      forall j | 0 <= j < |sorted| ensures NameLe(x.name, sorted[j].name) {
        if j > 0 { NameLeTransitive(x.name, sorted[0].name, sorted[j].name); }
      }
    } else {
      var rest := InsertByName(x, sorted[1..]);
      InsertByNameSorted(x, sorted[1..]);
      NameLeTotal(x.name, sorted[0].name);
      forall y | y in rest ensures NameLe(sorted[0].name, y.name) {
        assert y in multiset(rest);
        if y != x {
          assert y in multiset(sorted[1..]);
          var k :| 0 <= k < |sorted[1..]| && sorted[1..][k] == y;
          assert sorted[k + 1] == y;
        }
      }
      var r := [sorted[0]] + rest;
      assert forall i, j :: 0 < i < j < |r| ==> NameLe(r[i].name, r[j].name) by {
        assert forall i :: 0 < i < |r| ==> r[i] == rest[i - 1];
      }
    }
  }

  /** `sortedBy { it["name"] }`: a stable sort by name. */
  function SortByName(entries: seq<AppEntry>): (r: seq<AppEntry>)
    ensures multiset(r) == multiset(entries)
    ensures SortedByName(r)
  {
    if entries == [] then []
    else
      assert entries == [entries[0]] + entries[1..];
      InsertByNameSorted(entries[0], SortByName(entries[1..]));
      InsertByName(entries[0], SortByName(entries[1..]))
  }

  /**
   * `getInstalledApps`: every non-system application once per installation
   * entry, and nothing else, ordered by name.
   */
  method GetInstalledApps(installed: seq<AppInfo>) returns (apps: seq<AppEntry>)
    ensures SortedByName(apps)
    ensures multiset(apps) == multiset(UserEntries(installed))
    ensures forall e :: e in apps <==> exists app :: app in installed && IsUserApp(app) && EntryOf(app) == e
  {
    var found: seq<AppEntry> := [];
    for i := 0 to |installed|
      invariant found == UserEntries(installed[..i])
    {
      var app := installed[i];
      assert installed[..i + 1][..i] == installed[..i];
      if app.flags & FlagSystem == 0 {
        found := found + [AppEntry(app.appLabel, app.packageName, app.icon)];
      }
    }
    assert installed[..|installed|] == installed;
    apps := SortByName(found);
    forall e ensures e in apps <==> exists app :: app in installed && IsUserApp(app) && EntryOf(app) == e {
      assert e in apps <==> e in multiset(found);
      UserEntriesMembers(installed, e);
    }
  }
}
