/** The `remove` command of cmd/remove.go: find an installed item by its
    reference, delete its file and drop it from the manifest. The working
    directory is the store's root; printing is not modelled. */
module RemoveCommand {
  import opened Wrappers
  import opened ApiErrors
  import opened Catalog
  import opened Install
  import opened Manifest
  import AddCommand

  /** The file of an installed entry: the recorded path, or where the
      entry's tool keeps an item of the reference's type and slug when no
      path was recorded. */
  function TargetPath(root: Path, entry: Item, ref: Ref): (p: Path)
    ensures entry.path != [] ==> p == entry.path
    ensures entry.path == [] ==> p == ItemPath(root, entry.tool, ref.kind, ref.slug)
  {
    if entry.path != [] then entry.path else ItemPath(root, entry.tool, ref.kind, ref.slug)
  }

  /** The list without its entry at `i`, the others in their order. */
  function RemoveAt(items: seq<Item>, i: nat): (r: seq<Item>)
    requires i < |items|
    ensures |r| == |items| - 1
    ensures forall j :: 0 <= j < i ==> r[j] == items[j]
    ensures forall j :: i <= j < |r| ==> r[j] == items[j + 1]
    ensures multiset(r) + multiset{items[i]} == multiset(items)
  {
    assert items == items[..i] + [items[i]] + items[i + 1..];
    items[..i] + items[i + 1..]
  }

  /** Removing what `add` appended gives back the list it was added to:
      an entry whose catalog id and reference were not yet installed is
      found by its reference at the end, and dropping it restores the list. */
  lemma AddThenRemove(items: seq<Item>, e: Item)
    requires FirstWithId(items, e.catalogId).None? && FirstWithRef(items, e.ref).None?
    ensures var added := AddCommand.Upsert(items, e);
            FirstWithRef(added, e.ref) == Some(|items|) && RemoveAt(added, |items|) == items
  {
    var added := AddCommand.Upsert(items, e);
    assert added == items + [e];
    assert added[..|items|] == items && added[|items| + 1..] == [];
    assert forall j :: 0 <= j < |items| ==> added[j].ref != e.ref;
  }

  /** The part of `RunE` after the manifest is loaded: look the reference
      up, delete the file, drop the entry and save. */
  method RemoveLoaded(store: Store, disk: Disk, mf: File, ref: Ref) returns (r: Result<(string, Path), Error>)
    requires mf.version != ""
    modifies store, disk
    ensures store.settings == old(store.settings)
    ensures r.Failure? ==> store.manifest == old(store.manifest) && disk.files == old(disk.files)
    ensures match FirstWithRef(mf.installed, ref.raw)
            case None => r == Failure(Other("not installed: " + ref.raw))
            case Some(i) =>
              var target := TargetPath(store.root, mf.installed[i], ref);
              && r == Success((ref.raw, target))
              && disk.files == old(disk.files) - {target}
              && store.manifest.Present? && store.manifest.value.version == mf.version
              && Sorted(store.manifest.value.installed)
              && multiset(store.manifest.value.installed) == multiset(RemoveAt(mf.installed, i))
  {
    var idx, ok := FindByRef(mf.installed, ref.raw);
    if !ok {
      return Failure(Other("not installed: " + ref.raw));
    }
    var targetPath := mf.installed[idx].path;
    if targetPath == [] {
      targetPath := ItemPath(store.root, mf.installed[idx].tool, ref.kind, ref.slug);
    }
    var path := disk.RemovePath(targetPath);
    store.Save(mf.(installed := mf.installed[..idx] + mf.installed[idx + 1..]));
    return Success((ref.raw, path));
  }

  /** `remove <ref>`. Returns the reference and the file removed. */
  method Remove(store: Store, disk: Disk, args: seq<string>) returns (r: Result<(string, Path), Error>)
    modifies store, disk
    ensures store.settings == old(store.settings)
    ensures |args| != 1 ==> r == Failure(Other("remove expects exactly one identifier"))
    ensures |args| == 1 && ParseRef(args[0]).Failure? ==> r == Failure(Other(RefErrorText(ParseRef(args[0]).error)))
    ensures |args| == 1 && ParseRef(args[0]).Success? && Loaded(old(store.manifest)).Failure? ==>
              r == Failure(Loaded(old(store.manifest)).error)
    ensures r.Failure? ==> store.manifest == old(store.manifest) && disk.files == old(disk.files)
    ensures |args| == 1 && ParseRef(args[0]).Success? && Loaded(old(store.manifest)).Success? ==>
              var ref := ParseRef(args[0]).value;
              var mf := Loaded(old(store.manifest)).value;
              match FirstWithRef(mf.installed, ref.raw)
              case None => r == Failure(Other("not installed: " + ref.raw))
              case Some(i) =>
                var target := TargetPath(store.root, mf.installed[i], ref);
                && r == Success((ref.raw, target))
                && disk.files == old(disk.files) - {target}
                && store.manifest.Present? && store.manifest.value.version == mf.version
                && Sorted(store.manifest.value.installed)
                && multiset(store.manifest.value.installed) == multiset(RemoveAt(mf.installed, i))
  {
    if |args| != 1 {
      return Failure(Other("remove expects exactly one identifier"));
    }
    var parsed := ParseRef(args[0]);
    if parsed.Failure? {
      return Failure(Other(RefErrorText(parsed.error)));
    }
    var loaded := store.Load();
    if loaded.Failure? {
      return Failure(loaded.error);
    }
    r := RemoveLoaded(store, disk, loaded.value, parsed.value);
  }
}
