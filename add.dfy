/** The `add` command of cmd/add.go: resolve `@type/slug` in the catalog,
    choose the AI tool, install the item and record it in the manifest. The
    stored token, the working directory, the catalog's answer, the stdin
    line and `SHA256Hex` are parameters; printing is not modelled. */
module AddCommand {
  import opened Wrappers
  import opened ApiErrors
  import opened Catalog
  import Api
  import opened Install
  import opened Manifest
  import opened Tooling
  import opened ToolSelect

  /** `catalog.ParseRef`'s error as the command returns it. */
  function RefFailure(raw: string): Error
    requires ParseRef(raw).Failure?
  {
    Other(RefErrorText(ParseRef(raw).error))
  }

  /** The manifest list with `e` in the first slot holding its catalog id,
      or appended when there is none. */
  function Upsert(installed: seq<Item>, e: Item): (r: seq<Item>)
    ensures FirstWithId(installed, e.catalogId).Some? ==>
              r == installed[FirstWithId(installed, e.catalogId).value := e]
    ensures FirstWithId(installed, e.catalogId).None? ==> r == installed + [e]
  {
    match FirstWithId(installed, e.catalogId)
    case Some(j) => installed[j := e]
    case None => installed + [e]
  }

  /** After an upsert the list has grown by at most one, looking up the
      entry's catalog id finds the entry, and every other slot holds what
      it held before. */
  lemma UpsertFinds(installed: seq<Item>, e: Item)
    ensures var r := Upsert(installed, e);
            && |installed| <= |r| <= |installed| + 1
            && FirstWithId(r, e.catalogId).Some? && r[FirstWithId(r, e.catalogId).value] == e
            && forall j :: 0 <= j < |installed| && installed[j].catalogId != e.catalogId ==> r[j] == installed[j]
  {
    var r := Upsert(installed, e);
    var k := FirstWithId(r, e.catalogId);
    match FirstWithId(installed, e.catalogId)
    case Some(j) =>
      assert r[j] == e;
      assert k.Some? && k.value <= j;
      assert forall i :: 0 <= i < j ==> r[i] == installed[i];
    case None =>
      assert r[|installed|] == e;
      assert k.Some? && k.value <= |installed|;
      assert forall i :: 0 <= i < |installed| ==> r[i] == installed[i];
  }

  /** Upserting the same entry twice is upserting it once. */
  lemma UpsertIdempotent(installed: seq<Item>, e: Item)
    ensures Upsert(Upsert(installed, e), e) == Upsert(installed, e)
  {
    UpsertFinds(installed, e);
    var r := Upsert(installed, e);
    var k := FirstWithId(r, e.catalogId).value;
    match FirstWithId(installed, e.catalogId)
    case Some(j) =>
      assert forall i :: 0 <= i < j ==> r[i] == installed[i] && installed[i].catalogId != e.catalogId;
      assert r[j].catalogId == e.catalogId;
      assert k == j;
    case None =>
      assert forall i :: 0 <= i < |installed| ==> r[i] == installed[i];
      assert k == |installed|;
  }

  /** The manifest entry of an installed item: its catalog id, reference,
      type, slug and version, the tool, the file written, and the
      catalog's checksum, else the checksum of the written text. */
  function NewEntry(item: Api.CatalogItem, ref: Ref, tool: string, res: InstallResult): (e: Item)
    ensures e.catalogId == item.catalogId && e.ref == ref.raw && e.kind == item.kind && e.slug == item.slug
    ensures e.tool == tool && e.version == item.version && e.path == res.path
    ensures e.checksum == Api.FirstNonEmpty([item.checksum, res.checksum])
  {
    Item(item.catalogId, ref.raw, item.kind, item.slug, tool, item.version,
         Api.OrElse(item.checksum, res.checksum), res.path)
  }

  /** Whether the manifest already holds this version of the item: the
      first entry with its catalog id has the same version. */
  predicate AlreadyCurrent(installed: seq<Item>, item: Api.CatalogItem) {
    match FirstWithId(installed, item.catalogId)
    case None => false
    case Some(j) => installed[j].version == item.version
  }

  /** What `add` reports. */
  datatype Outcome =
    | Unchanged(entry: Item)
    | Planned(ref: Ref, catalogId: string, version: string, tool: string)
    | Added(entry: Item)

  /** The part of `RunE` after the tool is known: the unchanged and dry-run
      short-circuits, then install and upsert. */
  method Finish(store: Store, disk: Disk, mf: File, ref: Ref, item: Api.CatalogItem, tool: string,
                dryRun: bool, hash: string -> string)
    returns (r: Result<Outcome, Error>)
    requires mf.version != ""
    modifies store, disk
    ensures store.settings == old(store.settings)
    ensures AlreadyCurrent(mf.installed, item) ==>
              r == Success(Unchanged(mf.installed[FirstWithId(mf.installed, item.catalogId).value]))
              && store.manifest == old(store.manifest) && disk.files == old(disk.files)
    ensures !AlreadyCurrent(mf.installed, item) && dryRun ==>
              r == Success(Planned(ref, item.catalogId, item.version, tool))
              && store.manifest == old(store.manifest) && disk.files == old(disk.files)
    ensures !AlreadyCurrent(mf.installed, item) && !dryRun ==>
              match InstallOutcome(old(disk.files), store.root, item, tool, hash)
              case Failure(e) =>
                r == Failure(Other(e)) && store.manifest == old(store.manifest) && disk.files == old(disk.files)
              case Success((res, after)) =>
                var e := NewEntry(item, ref, tool, res);
                && r == Success(Added(e)) && disk.files == after
                && store.manifest.Present? && store.manifest.value.version == mf.version
                && Sorted(store.manifest.value.installed)
                && multiset(store.manifest.value.installed) == multiset(Upsert(mf.installed, e))
  {
    var idx, ok := FindByCatalogID(mf.installed, item.catalogId);
    if ok {
      var ex := mf.installed[idx];
      if ex.version == item.version {
        return Success(Unchanged(ex));
      }
    }
    if dryRun {
      return Success(Planned(ref, item.catalogId, item.version, tool));
    }
    var installed := disk.Install(store.root, item, tool, hash);
    if installed.Failure? {
      return Failure(Other(installed.error));
    }
    var checksum := item.checksum;
    if checksum == "" {
      checksum := installed.value.checksum;
    }
    var entry := Item(item.catalogId, ref.raw, item.kind, item.slug, tool, item.version, checksum, installed.value.path);
    idx, ok := FindByCatalogID(mf.installed, entry.catalogId);
    var list := mf.installed;
    if ok {
      list := list[idx := entry];
    } else {
      list := list + [entry];
    }
    store.Save(mf.(installed := list));
    return Success(Added(entry));
  }

  /** What `add` does once the identifier and the token are known, from
      the manifest, settings and files before (`manifest`, `settings`,
      `files`) to the outcome `r` and the state after (`manifest'`,
      `settings'`, `files'`): a failed catalog lookup, then a manifest that
      does not load, then a failed tool choice each return their own error;
      the tool choice saves what `Resolution` saves; after that the entry
      is unchanged, planned, or installed and upserted into a sorted
      manifest, as `Finish` says for the normalised catalog item. */
  predicate ResolvedAdd(root: Path, manifest: Stored<File>, settings: Stored<Settings>, files: map<Path, string>,
                        ref: Ref, dryRun: bool, selectedTool: string, jsonOutput: bool,
                        resolve: (string, string) -> Result<Api.CatalogItem, Error>,
                        input: Result<string, Error>, hash: string -> string,
                        r: Result<Outcome, Error>,
                        manifest': Stored<File>, settings': Stored<Settings>, files': map<Path, string>)
  {
    match resolve(ref.kind, ref.slug)
    case Failure(e) => r == Failure(e) && manifest' == manifest && settings' == settings && files' == files
    case Success(answer) =>
      var item := Api.Normalized(answer);
      match Loaded(manifest)
      case Failure(e) => r == Failure(e) && manifest' == manifest && settings' == settings && files' == files
      case Success(mf) =>
        var (chosen, saved) := Resolution(settings, selectedTool, jsonOutput, input);
        && settings' == saved
        && match chosen
           case Failure(e) => r == Failure(e) && manifest' == manifest && files' == files
           case Success(tool) =>
             if AlreadyCurrent(mf.installed, item) then
               r == Success(Unchanged(mf.installed[FirstWithId(mf.installed, item.catalogId).value]))
               && manifest' == manifest && files' == files
             else if dryRun then
               r == Success(Planned(ref, item.catalogId, item.version, tool)) && manifest' == manifest && files' == files
             else
               match InstallOutcome(files, root, item, tool, hash)
               case Failure(e) => r == Failure(Other(e)) && manifest' == manifest && files' == files
               case Success((res, after)) =>
                 var e := NewEntry(item, ref, tool, res);
                 && r == Success(Added(e)) && files' == after
                 && manifest'.Present? && manifest'.value.version == mf.version
                 && Sorted(manifest'.value.installed)
                 && multiset(manifest'.value.installed) == multiset(Upsert(mf.installed, e))
  }

  /** An `add` that succeeds asked the catalog, loaded the manifest and
      chose a tool; an added or planned entry carries the reference, the
      normalised catalog id and version, and the chosen tool; an unchanged
      one means the manifest already held that version. */
  lemma ResolvedAddRecords(root: Path, manifest: Stored<File>, settings: Stored<Settings>, files: map<Path, string>,
                           ref: Ref, dryRun: bool, selectedTool: string, jsonOutput: bool,
                           resolve: (string, string) -> Result<Api.CatalogItem, Error>,
                           input: Result<string, Error>, hash: string -> string,
                           r: Result<Outcome, Error>,
                           manifest': Stored<File>, settings': Stored<Settings>, files': map<Path, string>)
    requires ResolvedAdd(root, manifest, settings, files, ref, dryRun, selectedTool, jsonOutput, resolve, input, hash,
                         r, manifest', settings', files')
    requires r.Success?
    ensures resolve(ref.kind, ref.slug).Success? && Loaded(manifest).Success?
            && Resolution(settings, selectedTool, jsonOutput, input).0.Success?
            && settings' == Resolution(settings, selectedTool, jsonOutput, input).1
    ensures var item := Api.Normalized(resolve(ref.kind, ref.slug).value);
            var tool := Resolution(settings, selectedTool, jsonOutput, input).0.value;
            && (r.value.Added? ==>
                  r.value.entry.ref == ref.raw && r.value.entry.catalogId == item.catalogId
                  && r.value.entry.version == item.version && r.value.entry.tool == tool
                  && r.value.entry in multiset(Upsert(Loaded(manifest).value.installed, r.value.entry))
                  && manifest'.Present? && r.value.entry in manifest'.value.installed)
            && (r.value.Planned? ==>
                  r.value == Planned(ref, item.catalogId, item.version, tool) && !AlreadyCurrent(Loaded(manifest).value.installed, item)
                  && manifest' == manifest && files' == files)
            && (r.value.Unchanged? <==> AlreadyCurrent(Loaded(manifest).value.installed, item))
  {
    var item := Api.Normalized(resolve(ref.kind, ref.slug).value);
    var mf := Loaded(manifest).value;
    if r.value.Added? {
      UpsertFinds(mf.installed, r.value.entry);
      var u := Upsert(mf.installed, r.value.entry);
      assert u[FirstWithId(u, r.value.entry.catalogId).value] == r.value.entry;
      assert r.value.entry in multiset(u);
      assert r.value.entry in multiset(manifest'.value.installed);
    }
  }

  /** `add <ref> [--dry-run] [--tool <name>]`. The identifier is checked
      before the token is read or the catalog asked; `lookups` are the
      `(type, slug)` pairs sent to the catalog. `resolve` is the catalog's
      answer before normalisation, `jsonOutput` the JSON output mode (which
      forbids prompting), `input` the stdin line. */
  method Add(store: Store, disk: Disk, args: seq<string>, dryRun: bool, selectedTool: string, jsonOutput: bool,
             token: Result<string, Error>, resolve: (string, string) -> Result<Api.CatalogItem, Error>,
             input: Result<string, Error>, hash: string -> string)
    returns (r: Result<Outcome, Error>, lookups: seq<(string, string)>)
    modifies store, disk
    ensures |args| != 1 ==>
              r == Failure(Other("add expects exactly one identifier")) && lookups == []
    ensures |args| == 1 && ParseRef(args[0]).Failure? ==> r == Failure(RefFailure(args[0])) && lookups == []
    ensures |args| == 1 && ParseRef(args[0]).Success? && token.Failure? ==>
              r == Failure(token.error) && lookups == []
    ensures lookups != [] ==>
              |args| == 1 && ParseRef(args[0]).Success? && token.Success?
              && lookups == [(ParseRef(args[0]).value.kind, ParseRef(args[0]).value.slug)]
    ensures lookups == [] ==> r.Failure? && store.settings == old(store.settings)
    ensures r.Failure? || !r.value.Added? ==> store.manifest == old(store.manifest)
    ensures r.Success? && r.value.Added? ==>
              store.manifest.Present? && Sorted(store.manifest.value.installed)
              && r.value.entry in store.manifest.value.installed
    ensures r.Success? && !r.value.Added? ==> disk.files == old(disk.files)
    ensures r.Success? && r.value.Added? ==> ValidTool(r.value.entry.tool) && r.value.entry.version != ""
    ensures r.Success? && r.value.Planned? ==> ValidTool(r.value.tool) && r.value.version != ""
    ensures |args| == 1 && ParseRef(args[0]).Success? && token.Success? ==>
              ResolvedAdd(store.root, old(store.manifest), old(store.settings), old(disk.files),
                          ParseRef(args[0]).value, dryRun, selectedTool, jsonOutput, resolve, input, hash,
                          r, store.manifest, store.settings, disk.files)
  {
    lookups := [];
    if |args| != 1 {
      return Failure(Other("add expects exactly one identifier")), lookups;
    }
    var parsed := ParseRef(args[0]);
    if parsed.Failure? {
      return Failure(Other(RefErrorText(parsed.error))), lookups;
    }
    var ref := parsed.value;
    if token.Failure? {
      return Failure(token.error), lookups;
    }
    lookups := [(ref.kind, ref.slug)];
    r := AddResolved(store, disk, ref, dryRun, selectedTool, jsonOutput, resolve, input, hash);
  }

  /** `add` once the identifier and the token are known: ask the catalog,
      load the manifest, choose the tool, then `Finish`. */
  method AddResolved(store: Store, disk: Disk, ref: Ref, dryRun: bool, selectedTool: string, jsonOutput: bool,
                     resolve: (string, string) -> Result<Api.CatalogItem, Error>,
                     input: Result<string, Error>, hash: string -> string)
    returns (r: Result<Outcome, Error>)
    modifies store, disk
    ensures r.Failure? || !r.value.Added? ==> store.manifest == old(store.manifest)
    ensures r.Success? && r.value.Added? ==>
              store.manifest.Present? && Sorted(store.manifest.value.installed)
              && r.value.entry in store.manifest.value.installed
    ensures r.Success? && !r.value.Added? ==> disk.files == old(disk.files)
    ensures r.Success? && r.value.Added? ==> ValidTool(r.value.entry.tool) && r.value.entry.version != ""
    ensures r.Success? && r.value.Planned? ==> ValidTool(r.value.tool) && r.value.version != ""
    ensures ResolvedAdd(store.root, old(store.manifest), old(store.settings), old(disk.files),
                        ref, dryRun, selectedTool, jsonOutput, resolve, input, hash,
                        r, store.manifest, store.settings, disk.files)
  {
    var answer := resolve(ref.kind, ref.slug);
    if answer.Failure? {
      return Failure(answer.error);
    }
    var item := Api.NormalizeCatalogItem(answer.value);
    var loaded := store.Load();
    if loaded.Failure? {
      return Failure(loaded.error);
    }
    var tool := ResolveAITool(store, selectedTool, jsonOutput, input);
    if tool.Failure? {
      return Failure(tool.error);
    }
    r := Finish(store, disk, loaded.value, ref, item, tool.value, dryRun, hash);
    if r.Success? && r.value.Added? {
      UpsertFinds(loaded.value.installed, r.value.entry);
      assert r.value.entry in multiset(store.manifest.value.installed);
    }
  }
}
