/** The project manifest of internal/manifest/store.go: the installed items,
    their lookup, the order `Save` writes them in, and the defaults `Load`
    and `LoadSettings` apply. The two files are the fields of `Store`; their
    JSON text is not modelled, only what decoding it yields. */
module Manifest {
  import opened Wrappers
  import opened GoStrings
  import opened ApiErrors
  import opened Install

  const CurrentVersion: string := "1"

  /** `manifest.Item` (the installation time is left out). */
  datatype Item = Item(catalogId: string, ref: string, kind: string, slug: string, tool: string,
                       version: string, checksum: string, path: Path)

  /** `manifest.File`. */
  datatype File = File(version: string, installed: seq<Item>)

  /** `manifest.Settings`. */
  datatype Settings = Settings(aiTool: string)

  /** What reading a file yields: nothing there, an error (unreadable or
      not valid JSON), or the decoded value. */
  datatype Stored<T> = Missing | Broken(err: Error) | Present(value: T)

  /** `BaseDir()`, `Path()` and `SettingsPath()`. */
  function BaseDir(root: Path): Path { root + [".codemint"] }

  function ManifestPath(root: Path): (r: Path)
    ensures BaseDir(root) <= r && |r| == |root| + 2 && r[|root| + 1] == "manifest.json"
  {
    BaseDir(root) + ["manifest.json"]
  }

  function SettingsPath(root: Path): (r: Path)
    ensures BaseDir(root) <= r && |r| == |root| + 2 && r[|root| + 1] == "settings.json"
  {
    BaseDir(root) + ["settings.json"]
  }

  /** The manifest and the settings are two files, and installing an item,
      or backing one up, never writes over either of them. */
  lemma StoreFilesApart(root: Path, tool: string, kind: string, slug: string)
    ensures ManifestPath(root) != SettingsPath(root)
    ensures ItemPath(root, tool, kind, slug) !in {ManifestPath(root), SettingsPath(root)}
    ensures BackupPath(root, tool, kind, slug) !in {ManifestPath(root), SettingsPath(root)}
  {
    assert ManifestPath(root)[|root| + 1] != SettingsPath(root)[|root| + 1];
    var p := ItemPath(root, tool, kind, slug);
    if |p| == |root| + 2 {
      assert p[|root|] == ".clinerules";
    }
  }

  /** `Load()`'s result for what is on disk: a missing file is an empty
      manifest, and a decoded one gets the current version when it has none. */
  function Loaded(stored: Stored<File>): (r: Result<File, Error>)
    ensures r.Success? ==> r.value.version != ""
    ensures stored.Missing? ==> r == Success(File(CurrentVersion, []))
    ensures stored.Broken? ==> r == Failure(stored.err)
    ensures stored.Present? ==> r.Success? && r.value.installed == stored.value.installed
                                && (stored.value.version != "" ==> r.value.version == stored.value.version)
                                && (stored.value.version == "" ==> r.value.version == CurrentVersion)
  {
    match stored
    case Missing => Success(File(CurrentVersion, []))
    case Broken(e) => Failure(e)
    case Present(mf) => Success(if mf.version == "" then mf.(version := CurrentVersion) else mf)
  }

  /** `LoadSettings()`'s result: a missing file is empty settings. */
  function LoadedSettings(stored: Stored<Settings>): (r: Result<Settings, Error>)
    ensures stored.Missing? ==> r == Success(Settings(""))
    ensures stored.Broken? ==> r == Failure(stored.err)
    ensures stored.Present? ==> r == Success(stored.value)
  {
    match stored
    case Missing => Success(Settings(""))
    case Broken(e) => Failure(e)
    case Present(s) => Success(s)
  }

  /** The order `Save` writes items in: by type, then by slug. */
  predicate Before(x: Item, y: Item) {
    Less(x.kind, y.kind) || (x.kind == y.kind && Less(x.slug, y.slug))
  }

  /** No item is written after one that comes before it. */
  predicate Sorted(s: seq<Item>) {
    forall i, j :: 0 <= i < j < |s| ==> !Before(s[j], s[i])
  }

  /** Neighbours are in order. */
  predicate AdjacentSorted(s: seq<Item>) {
    forall i :: 0 < i < |s| ==> !Before(s[i], s[i - 1])
  }

  lemma BeforeAsymmetric(x: Item, y: Item)
    requires Before(x, y)
    ensures !Before(y, x)
  {
    if Less(x.kind, y.kind) && Less(y.kind, x.kind) {
      LessTransitive(x.kind, y.kind, x.kind);
      LessIrreflexive(x.kind);
    } else if x.kind == y.kind {
      LessIrreflexive(x.kind);
      if Less(x.slug, y.slug) && Less(y.slug, x.slug) {
        LessTransitive(x.slug, y.slug, x.slug);
        LessIrreflexive(x.slug);
      }
    } else {
      LessIrreflexive(x.kind);
    }
  }

  /** "Not after" is transitive. */
  lemma NotBeforeTransitive(x: Item, y: Item, z: Item)
    requires !Before(y, x) && !Before(z, y)
    ensures !Before(z, x)
  {
    if Before(z, x) {
      // z < x; and x <= y <= z, which together contradict the order.
      if x.kind != y.kind { LessTotal(x.kind, y.kind); }
      if y.kind != z.kind { LessTotal(y.kind, z.kind); }
      if x.kind == y.kind && x.slug != y.slug { LessTotal(x.slug, y.slug); }
      if y.kind == z.kind && y.slug != z.slug { LessTotal(y.slug, z.slug); }
      if Less(x.kind, y.kind) && Less(y.kind, z.kind) { LessTransitive(x.kind, y.kind, z.kind); }
      if x.kind == z.kind && Less(x.slug, y.slug) && Less(y.slug, z.slug) { LessTransitive(x.slug, y.slug, z.slug); }
      if Less(z.kind, x.kind) {
        if Less(x.kind, z.kind) { LessTransitive(z.kind, x.kind, z.kind); }
        LessIrreflexive(z.kind);
      }
      if z.kind == x.kind && Less(z.slug, x.slug) {
        if Less(x.slug, z.slug) { LessTransitive(z.slug, x.slug, z.slug); }
        LessIrreflexive(z.slug);
        if Less(x.kind, y.kind) && Less(y.kind, z.kind) { LessIrreflexive(z.kind); }
        if Less(x.kind, y.kind) && y.kind == z.kind { LessIrreflexive(z.kind); }
        if x.kind == y.kind && Less(y.kind, z.kind) { LessIrreflexive(z.kind); }
      }
    }
  }

  /** Neighbours in order means all pairs in order. */
  lemma {:induction false} AdjacentIsSorted(s: seq<Item>)
    requires AdjacentSorted(s)
    ensures Sorted(s)
    decreases |s|
  {
    if |s| > 1 {
      var t := s[..|s| - 1];
      assert AdjacentSorted(t);
      AdjacentIsSorted(t);
      forall i | 0 <= i < |s| - 1
        ensures !Before(s[|s| - 1], s[i])
      {
        if i < |s| - 2 {
          assert !Before(t[|t| - 1], t[i]);
          NotBeforeTransitive(s[i], s[|s| - 2], s[|s| - 1]);
        }
      }
    }
  }

  /** The state of the inner loop of `SortItems`: the item being placed is
      at `j`; the items before it and the items from it to `i` are in order,
      and its neighbours are in order with each other. */
  predicate Sinking(s: seq<Item>, i: nat, j: nat) {
    j <= i < |s| && AdjacentSorted(s[..j]) && AdjacentSorted(s[j..i + 1])
    && (0 < j < i ==> !Before(s[j + 1], s[j - 1]))
  }

  /** Swapping the item at `j` with a predecessor that comes after it keeps
      the inner loop's state, one place further left. */
  lemma SinkStep(s: seq<Item>, i: nat, j: nat)
    requires Sinking(s, i, j) && 0 < j && Before(s[j], s[j - 1])
    ensures Sinking(s[j - 1 := s[j]][j := s[j - 1]], i, j - 1)
  {
    BeforeAsymmetric(s[j], s[j - 1]);
    var t := s[j - 1 := s[j]][j := s[j - 1]];
    assert t[..j - 1] == s[..j - 1];
    var u := t[j - 1..i + 1];
    forall k | 0 < k < |u|
      ensures !Before(u[k], u[k - 1])
    {
      if k >= 3 {
        assert u[k] == s[j..i + 1][k - 1] && u[k - 1] == s[j..i + 1][k - 2];
      }
    }
  }

  /** The loop ends with the new item in place. */
  lemma SinkDone(s: seq<Item>, i: nat, j: nat)
    requires Sinking(s, i, j) && (j == 0 || !Before(s[j], s[j - 1]))
    ensures AdjacentSorted(s[..i + 1])
  {
    forall k | 0 < k <= i
      ensures !Before(s[k], s[k - 1])
    {
      if k < j {
        assert s[..j][k] == s[k] && s[..j][k - 1] == s[k - 1];
      } else if k > j {
        assert s[j..i + 1][k - j] == s[k] && s[j..i + 1][k - j - 1] == s[k - 1];
      }
    }
  }

  /** Exchanges two neighbours. */
  method SwapDown(a: array<Item>, j: int)
    requires 0 < j < a.Length
    modifies a
    ensures a[..] == old(a[..])[j - 1 := old(a[j])][j := old(a[j - 1])]
    ensures multiset(a[..]) == multiset(old(a[..]))
  {
    a[j - 1], a[j] := a[j], a[j - 1];
  }

  /** One round of the insertion sort: the item at `i` sinks past every
      predecessor that comes after it. */
  method Sink(a: array<Item>, i: int)
    requires 0 < i < a.Length && AdjacentSorted(a[..i])
    modifies a
    ensures AdjacentSorted(a[..i + 1])
    ensures multiset(a[..]) == multiset(old(a[..]))
  {
    var j := i;
    assert a[j..i + 1] == [a[i]];
    while j > 0 && Before(a[j], a[j - 1])
      invariant Sinking(a[..], i, j)
      invariant multiset(a[..]) == multiset(old(a[..]))
    {
      SinkStep(a[..], i, j);
      SwapDown(a, j);
      j := j - 1;
    }
    SinkDone(a[..], i, j);
    assert a[..][..i + 1] == a[..i + 1];
  }

  /** The in-place sort of `Save`: neighbours are swapped until each new
      item has sunk to its place. The result holds the same items. */
  method SortItems(a: array<Item>)
    modifies a
    ensures AdjacentSorted(a[..])
    ensures multiset(a[..]) == multiset(old(a[..]))
  {
    if a.Length == 0 {
      return;
    }
    var i := 1;
    while i < a.Length
      invariant 1 <= i <= a.Length
      invariant AdjacentSorted(a[..i])
      invariant multiset(a[..]) == multiset(old(a[..]))
    {
      Sink(a, i);
      i := i + 1;
    }
    assert a[..a.Length] == a[..];
  }

  /** The installed list as `Save` writes it: sorted by type and slug, and a
      permutation of the list given. Items with the same type and slug may
      end up in either order, as with `sort.Slice`. */
  method SortedForSave(items: seq<Item>) returns (sorted: seq<Item>)
    ensures Sorted(sorted)
    ensures multiset(sorted) == multiset(items)
  {
    var a := new Item[|items|](i requires 0 <= i < |items| => items[i]);
    assert a[..] == items;
    SortItems(a);
    sorted := a[..];
    AdjacentIsSorted(sorted);
  }

  /** A sorted permutation is unique up to items of equal rank: in
      particular a list already sorted keeps its length and items. */
  lemma SortedForSaveKeepsItems(items: seq<Item>, sorted: seq<Item>)
    requires multiset(sorted) == multiset(items)
    ensures |sorted| == |items|
    ensures forall x :: x in items <==> x in sorted
  {
    assert |multiset(sorted)| == |multiset(items)|;
    forall x
      ensures x in items <==> x in sorted
    {
      assert x in items <==> x in multiset(items);
      assert x in sorted <==> x in multiset(sorted);
    }
  }

  /** `FindByCatalogID(items, catalogID)`: the first item with that id. */
  method FindByCatalogID(items: seq<Item>, catalogId: string) returns (idx: int, ok: bool)
    ensures ok <==> exists i :: 0 <= i < |items| && items[i].catalogId == catalogId
    ensures ok ==> 0 <= idx < |items| && items[idx].catalogId == catalogId
                   && forall j :: 0 <= j < idx ==> items[j].catalogId != catalogId
    ensures !ok ==> idx == -1
    ensures ok == FirstWithId(items, catalogId).Some? && (ok ==> FirstWithId(items, catalogId).value == idx)
  {
    for i := 0 to |items|
      invariant forall j :: 0 <= j < i ==> items[j].catalogId != catalogId
    {
      if items[i].catalogId == catalogId {
        return i, true;
      }
    }
    return -1, false;
  }

  /** `FindByRef(items, ref)`: the first item with that reference. */
  method FindByRef(items: seq<Item>, ref: string) returns (idx: int, ok: bool)
    ensures ok <==> exists i :: 0 <= i < |items| && items[i].ref == ref
    ensures ok ==> 0 <= idx < |items| && items[idx].ref == ref
                   && forall j :: 0 <= j < idx ==> items[j].ref != ref
    ensures !ok ==> idx == -1
    ensures ok == FirstWithRef(items, ref).Some? && (ok ==> FirstWithRef(items, ref).value == idx)
  {
    for i := 0 to |items|
      invariant forall j :: 0 <= j < i ==> items[j].ref != ref
    {
      if items[i].ref == ref {
        return i, true;
      }
    }
    return -1, false;
  }

  /** The index `FindByCatalogID` finds, as a value. */
  function FirstWithId(items: seq<Item>, catalogId: string): (r: Option<nat>)
    ensures r.None? <==> forall i :: 0 <= i < |items| ==> items[i].catalogId != catalogId
    ensures r.Some? ==> r.value < |items| && items[r.value].catalogId == catalogId
                        && forall j :: 0 <= j < r.value ==> items[j].catalogId != catalogId
  {
    if items == [] then None
    else if items[0].catalogId == catalogId then Some(0)
    else match FirstWithId(items[1..], catalogId)
      case None => None
      case Some(i) => Some(i + 1)
  }

  /** The index of the first entry with reference `ref`. */
  function FirstWithRef(items: seq<Item>, ref: string): (r: Option<nat>)
    ensures r.None? <==> forall i :: 0 <= i < |items| ==> items[i].ref != ref
    ensures r.Some? ==> r.value < |items| && items[r.value].ref == ref
                        && forall j :: 0 <= j < r.value ==> items[j].ref != ref
  {
    if items == [] then None
    else if items[0].ref == ref then Some(0)
    else match FirstWithRef(items[1..], ref)
      case None => None
      case Some(i) => Some(i + 1)
  }

  /** The manifest and settings files of a project root. */
  class Store {
    const root: Path
    var manifest: Stored<File>
    var settings: Stored<Settings>

    constructor(root: Path, manifest: Stored<File>, settings: Stored<Settings>)
      ensures this.root == root && this.manifest == manifest && this.settings == settings
    {
      this.root := root;
      this.manifest := manifest;
      this.settings := settings;
    }

    /** `Load()`. */
    method Load() returns (r: Result<File, Error>)
      ensures r == Loaded(manifest)
    {
      match manifest
      case Missing =>
        r := Success(File(CurrentVersion, []));
      case Broken(e) =>
        r := Failure(e);
      case Present(mf) =>
        var f := mf;
        if f.version == "" {
          f := f.(version := CurrentVersion);
        }
        r := Success(f);
    }

    /** `Save(mf)`: the manifest file now holds `mf` with a version and its
      items sorted; the settings file is untouched. Write failures are not
      modelled. */
    method Save(mf: File)
      modifies this
      ensures manifest.Present? && settings == old(settings)
      ensures manifest.value.version == (if mf.version == "" then CurrentVersion else mf.version)
      ensures Sorted(manifest.value.installed)
      ensures multiset(manifest.value.installed) == multiset(mf.installed)
    {
      var f := mf;
      if f.version == "" {
        f := f.(version := CurrentVersion);
      }
      var sorted := SortedForSave(f.installed);
      manifest := Present(f.(installed := sorted));
    }

    /** `LoadSettings()`. */
    method LoadSettings() returns (r: Result<Settings, Error>)
      ensures r == LoadedSettings(settings)
    {
      match settings
      case Missing =>
        r := Success(Settings(""));
      case Broken(e) =>
        r := Failure(e);
      case Present(s) =>
        r := Success(s);
    }

    /** `SaveSettings(s)`. */
    method SaveSettings(s: Settings)
      modifies this
      ensures settings == Present(s) && manifest == old(manifest)
    {
      settings := Present(s);
    }
  }

  /** What `Save` writes reads back through `Load` unchanged: a saved
      manifest always has a version, so `Load` adds nothing. */
  lemma SaveLoadRoundTrip(f: File)
    requires f.version != ""
    ensures Loaded(Present(f)) == Success(f)
  {
  }
}
