/** The `sync` command of cmd/sync.go: ask the catalog for the latest
    version of every installed item, sort the entries into upgrades,
    unchanged ones and removed ones, and (unless it is a dry run) install the
    upgrades and record them in the manifest. The stored token, the working
    directory, the server and `SHA256Hex` are parameters; printing the plan
    is not modelled. */
module SyncCommand {
  import opened Wrappers
  import opened ApiErrors
  import opened Catalog
  import Api
  import opened Install
  import opened Manifest

  /** `syncPlan`. */
  datatype Plan = Plan(upgrade: seq<Item>, same: seq<Item>, removed: seq<Item>)

  const EmptyPlan: Plan := Plan([], [], [])

  /** The number of entries in a plan. */
  function Size(p: Plan): nat { |p.upgrade| + |p.same| + |p.removed| }

  /** The index of the first result for `id`. */
  function FirstSync(id: string, list: seq<Api.SyncResult>): (r: Option<nat>)
    ensures r.None? <==> forall i :: 0 <= i < |list| ==> list[i].catalogId != id
    ensures r.Some? ==> r.value < |list| && list[r.value].catalogId == id
                        && forall j :: 0 <= j < r.value ==> list[j].catalogId != id
  {
    if list == [] then None
    else if list[0].catalogId == id then Some(0)
    else match FirstSync(id, list[1..])
      case None => None
      case Some(i) => Some(i + 1)
  }

  /** What `lookupSync` points at: the first result for `id`, or nothing. */
  function Lookup(id: string, list: seq<Api.SyncResult>): (r: Option<Api.SyncResult>)
    ensures r.None? <==> forall i :: 0 <= i < |list| ==> list[i].catalogId != id
    ensures r.Some? ==> r.value in list && r.value.catalogId == id
  {
    match FirstSync(id, list)
    case None => None
    case Some(i) => Some(list[i])
  }

  /** `lookupSync(catalogID, list)`. */
  method LookupSync(id: string, list: seq<Api.SyncResult>) returns (r: Option<Api.SyncResult>)
    ensures r == Lookup(id, list)
  {
    for i := 0 to |list|
      invariant forall j :: 0 <= j < i ==> list[j].catalogId != id
    {
      if list[i].catalogId == id {
        assert FirstSync(id, list) == Some(i);
        return Some(list[i]);
      }
    }
    return None;
  }

  /** Where an installed entry goes in the plan: removed from the catalog,
      unchanged, or upgraded to the entry `up`. */
  datatype Verdict = Gone | Current | Newer(up: Item)

  /** The decision for entry `local` given its sync result: removed when
      there is none or it says so; unchanged when no newer version is
      known; otherwise the entry with the latest version, and the latest
      checksum when the catalog has one. */
  function Classify(local: Item, result: Option<Api.SyncResult>): (v: Verdict)
    ensures v.Gone? <==> result.None? || result.value.removed
    ensures v.Current? <==> result.Some? && !result.value.removed
                            && (result.value.latestVersion == "" || result.value.latestVersion == local.version)
    ensures v.Newer? ==> v.up.version == result.value.latestVersion
                         && v.up.version != "" && v.up.version != local.version
    ensures v.Newer? ==> v.up.checksum == (if result.value.latestItem.checksum != "" then result.value.latestItem.checksum
                                           else local.checksum)
    ensures v.Newer? ==> v.up == local.(version := v.up.version, checksum := v.up.checksum)
  {
    match result
    case None => Gone
    case Some(res) =>
      if res.removed then Gone
      else if res.latestVersion == "" || res.latestVersion == local.version then Current
      else
        var up := local.(version := res.latestVersion);
        Newer(if res.latestItem.checksum != "" then up.(checksum := res.latestItem.checksum) else up)
  }

  /** What the loop sees around it: the sync results, the project root, the
      saved default tool, `SHA256Hex`, and whether this is a dry run. */
  datatype Env = Env(results: seq<Api.SyncResult>, root: Path, defaultTool: string,
                     hash: string -> string, dryRun: bool)

  /** The loop's state: the plan so far, the manifest list and the files. */
  datatype Run = Run(plan: Plan, installed: seq<Item>, files: map<Path, string>)

  /** The entry recorded for an installed upgrade: where it was written, for
      which tool, its checksum (the catalog's, else that of the written
      text) and its normalised reference. */
  function Recorded(up: Item, local: Item, tool: string, res: InstallResult): (e: Item)
    ensures e.catalogId == up.catalogId && e.version == up.version && e.kind == up.kind && e.slug == up.slug
    ensures e.path == res.path && e.tool == tool && e.ref == NormalizeRef(local.kind, local.slug)
    ensures e.checksum == (if up.checksum != "" then up.checksum else res.checksum)
  {
    up.(path := res.path, tool := tool, checksum := Api.OrElse(up.checksum, res.checksum),
        ref := NormalizeRef(local.kind, local.slug))
  }

  /** The manifest list with the first entry for `id` replaced by `e`, and
      unchanged when there is none. */
  function ReplaceFirst(installed: seq<Item>, id: string, e: Item): (r: seq<Item>)
    ensures |r| == |installed|
    ensures FirstWithId(installed, id).None? ==> r == installed
    ensures FirstWithId(installed, id).Some? ==> r == installed[FirstWithId(installed, id).value := e]
  {
    match FirstWithId(installed, id)
    case None => installed
    case Some(j) => installed[j := e]
  }

  /** Installing the upgrade `up` of entry `local` from the catalog item
      `latest`: the tool is the entry's, else the saved default; the first
      manifest slot with the entry's catalog id records the result. */
  function Upgraded(run: Run, local: Item, up: Item, latest: Api.CatalogItem, env: Env): (r: Result<Run, string>)
    ensures r.Success? ==> |r.value.installed| == |run.installed| && r.value.plan == run.plan
    ensures var tool := if local.tool == "" then env.defaultTool else local.tool;
            var out := InstallOutcome(run.files, env.root, latest, tool, env.hash);
            && (r.Success? <==> out.Success?)
            && (r.Failure? ==> r.error == out.error)
            && (r.Success? ==> r.value.files == out.value.1)
            && (r.Success? ==> forall j :: 0 <= j < |run.installed| && FirstWithId(run.installed, local.catalogId) != Some(j) ==>
                                 r.value.installed[j] == run.installed[j])
            && (r.Success? && FirstWithId(run.installed, local.catalogId).Some? ==>
                  r.value.installed[FirstWithId(run.installed, local.catalogId).value] == Recorded(up, local, tool, out.value.0))
  {
    var tool := if local.tool == "" then env.defaultTool else local.tool;
    match InstallOutcome(run.files, env.root, latest, tool, env.hash)
    case Failure(e) => Failure(e)
    case Success((res, after)) =>
      Success(Run(run.plan, ReplaceFirst(run.installed, local.catalogId, Recorded(up, local, tool, res)), after))
  }

  /** One pass of the loop for the entry `local`: the entry joins one of
      the three lists; an upgrade outside a dry run is installed and
      overwrites the first manifest slot with its catalog id, and an install
      error stops the command. */
  function Step(run: Run, local: Item, env: Env): (r: Result<Run, string>)
    ensures r.Success? ==> |r.value.installed| == |run.installed|
  {
    var result := Lookup(local.catalogId, env.results);
    match Classify(local, result)
    case Gone => Success(run.(plan := run.plan.(removed := run.plan.removed + [local])))
    case Current => Success(run.(plan := run.plan.(same := run.plan.same + [local])))
    case Newer(up) =>
      var planned := run.(plan := run.plan.(upgrade := run.plan.upgrade + [up]));
      if env.dryRun then Success(planned)
      else Upgraded(planned, local, up, result.value.latestItem, env)
  }

  /** Each pass puts its entry in exactly one of the three lists: removed,
      unchanged, or upgraded; only an upgrade may touch the manifest list
      or the files, and a dry run touches neither. */
  lemma StepPlacesOnce(run: Run, local: Item, env: Env)
    ensures var r := Step(run, local, env);
            && (env.dryRun ==> r.Success? && r.value.installed == run.installed && r.value.files == run.files)
            && (r.Success? ==> Size(r.value.plan) == Size(run.plan) + 1)
            && (r.Success? ==>
                  match Classify(local, Lookup(local.catalogId, env.results))
                  case Gone => r.value.plan == run.plan.(removed := run.plan.removed + [local])
                               && r.value.installed == run.installed && r.value.files == run.files
                  case Current => r.value.plan == run.plan.(same := run.plan.same + [local])
                                  && r.value.installed == run.installed && r.value.files == run.files
                  case Newer(up) => r.value.plan == run.plan.(upgrade := run.plan.upgrade + [up]))
  {
  }

  /** A pass changes at most the first manifest slot with its entry's
      catalog id. */
  lemma StepWritesFirstSlot(run: Run, local: Item, env: Env)
    ensures var r := Step(run, local, env);
            r.Success? ==> forall j :: 0 <= j < |run.installed| && r.value.installed[j] != run.installed[j] ==>
                             FirstWithId(run.installed, local.catalogId) == Some(j)
  {
  }

  /** The loop from entry `k` of the original list `orig` on: the final
      state, and the install error that stopped it, if any (the state is
      then the one before the failing install). */
  function SyncFrom(orig: seq<Item>, k: nat, run: Run, env: Env): (Run, Option<string>)
    requires k <= |orig|
    decreases |orig| - k
  {
    if k == |orig| then (run, None)
    else match Step(run, orig[k], env)
      case Failure(e) => (run, Some(e))
      case Success(next) => SyncFrom(orig, k + 1, next, env)
  }

  /** Every entry from `k` on lands in the plan exactly once. */
  lemma {:induction false} SyncFromCounts(orig: seq<Item>, k: nat, run: Run, env: Env)
    requires k <= |orig|
    ensures SyncFrom(orig, k, run, env).1.None? ==>
              Size(SyncFrom(orig, k, run, env).0.plan) == Size(run.plan) + |orig| - k
    decreases |orig| - k
  {
    if k < |orig| {
      var s := Step(run, orig[k], env);
      StepPlacesOnce(run, orig[k], env);
      if s.Success? {
        SyncFromCounts(orig, k + 1, s.value, env);
      }
    }
  }

  /** A dry run never fails, and leaves the manifest list and the files as
      they were. */
  lemma {:induction false} DryRunChangesNothing(orig: seq<Item>, k: nat, run: Run, env: Env)
    requires k <= |orig| && env.dryRun
    ensures SyncFrom(orig, k, run, env).1.None?
    ensures SyncFrom(orig, k, run, env).0.installed == run.installed
    ensures SyncFrom(orig, k, run, env).0.files == run.files
    decreases |orig| - k
  {
    if k < |orig| {
      StepPlacesOnce(run, orig[k], env);
      DryRunChangesNothing(orig, k + 1, Step(run, orig[k], env).value, env);
    }
  }

  /** Whole sync: one plan entry per installed entry, and in a dry run
      nothing written. */
  lemma SyncPartition(orig: seq<Item>, files: map<Path, string>, env: Env)
    ensures var (run, err) := SyncFrom(orig, 0, Run(EmptyPlan, orig, files), env);
            (err.None? ==> Size(run.plan) == |orig|)
            && (env.dryRun ==> err.None? && run.installed == orig && run.files == files)
  {
    SyncFromCounts(orig, 0, Run(EmptyPlan, orig, files), env);
    if env.dryRun {
      DryRunChangesNothing(orig, 0, Run(EmptyPlan, orig, files), env);
    }
  }

  /** A pass for entry `k` writes at or before `k`: the first slot with
      that catalog id is at most `k`, so the entries still to be read are
      the original ones. */
  lemma StepKeepsRest(run: Run, k: nat, env: Env)
    requires k < |run.installed|
    ensures Step(run, run.installed[k], env).Success? ==>
              Step(run, run.installed[k], env).value.installed[k + 1..] == run.installed[k + 1..]
  {
    var local := run.installed[k];
    var s := Step(run, local, env);
    StepWritesFirstSlot(run, local, env);
    if s.Success? {
      var first := FirstWithId(run.installed, local.catalogId);
      assert first.Some? && first.value <= k;
      assert forall j :: k < j < |run.installed| ==> s.value.installed[j] == run.installed[j];
    }
  }

  /** The install part of a pass, for an upgrade outside a dry run. */
  method InstallUpgrade(disk: Disk, installed: seq<Item>, local: Item, up: Item, latest: Api.CatalogItem, env: Env)
    returns (r: Result<seq<Item>, string>)
    modifies disk
    ensures match Upgraded(Run(EmptyPlan, installed, old(disk.files)), local, up, latest, env)
            case Failure(e) => r == Failure(e) && disk.files == old(disk.files)
            case Success(next) => r == Success(next.installed) && disk.files == next.files
  {
    var tool := local.tool;
    if tool == "" {
      tool := env.defaultTool;
    }
    var res := disk.Install(env.root, latest, tool, env.hash);
    if res.Failure? {
      return Failure(res.error);
    }
    var entry := up.(path := res.value.path, tool := tool);
    if entry.checksum == "" {
      entry := entry.(checksum := res.value.checksum);
    }
    entry := entry.(ref := NormalizeRef(local.kind, local.slug));
    var idx, ok := FindByCatalogID(installed, local.catalogId);
    var updated := installed;
    if ok {
      updated := installed[idx := entry];
    }
    return Success(updated);
  }

  /** The plan does not matter to the install part of a pass. */
  lemma UpgradedIgnoresPlan(run: Run, local: Item, up: Item, latest: Api.CatalogItem, env: Env)
    ensures var a := Upgraded(run, local, up, latest, env);
            var b := Upgraded(run.(plan := EmptyPlan), local, up, latest, env);
            a.Success? == b.Success?
            && (a.Failure? ==> a.error == b.error)
            && (a.Success? ==> a.value == b.value.(plan := run.plan))
  {
  }

  /** One pass of the loop in `RunE`, on the manifest list `installed` and
      the disk. */
  method SyncOne(disk: Disk, plan: Plan, installed: seq<Item>, local: Item, env: Env)
    returns (r: Result<(Plan, seq<Item>), string>)
    modifies disk
    ensures match Step(Run(plan, installed, old(disk.files)), local, env)
            case Failure(e) => r == Failure(e) && disk.files == old(disk.files)
            case Success(next) => r == Success((next.plan, next.installed)) && disk.files == next.files
  {
    var result := LookupSync(local.catalogId, env.results);
    if result.None? || result.value.removed {
      return Success((plan.(removed := plan.removed + [local]), installed));
    }
    if result.value.latestVersion == "" || result.value.latestVersion == local.version {
      return Success((plan.(same := plan.same + [local]), installed));
    }
    var up := local.(version := result.value.latestVersion);
    if result.value.latestItem.checksum != "" {
      up := up.(checksum := result.value.latestItem.checksum);
    }
    var planned := plan.(upgrade := plan.upgrade + [up]);
    if env.dryRun {
      return Success((planned, installed));
    }
    UpgradedIgnoresPlan(Run(planned, installed, disk.files), local, up, result.value.latestItem, env);
    var updated := InstallUpgrade(disk, installed, local, up, result.value.latestItem, env);
    if updated.Failure? {
      return Failure(updated.error);
    }
    return Success((planned, updated.value));
  }

  /** The loop of `RunE` over the manifest list `orig`: each pass reads the
      current list at its own index, which earlier passes never changed. */
  method SyncLoop(disk: Disk, orig: seq<Item>, env: Env) returns (plan: Plan, installed: seq<Item>, err: Option<string>)
    modifies disk
    ensures (Run(plan, installed, disk.files), err) == SyncFrom(orig, 0, Run(EmptyPlan, orig, old(disk.files)), env)
  {
    plan, installed, err := EmptyPlan, orig, None;
    var i := 0;
    while i < |orig|
      invariant i <= |orig| && |installed| == |orig| && installed[i..] == orig[i..]
      invariant SyncFrom(orig, 0, Run(EmptyPlan, orig, old(disk.files)), env)
                == SyncFrom(orig, i, Run(plan, installed, disk.files), env)
    {
      var local := installed[i];
      assert local == orig[i];
      ghost var before := Run(plan, installed, disk.files);
      ghost var next := Step(before, orig[i], env);
      assert SyncFrom(orig, i, before, env)
             == if next.Failure? then (before, Some(next.error)) else SyncFrom(orig, i + 1, next.value, env);
      var r := SyncOne(disk, plan, installed, local, env);
      if r.Failure? {
        return plan, installed, Some(r.error);
      }
      assert next.value == Run(r.value.0, r.value.1, disk.files);
      StepKeepsRest(before, i, env);
      plan, installed := r.value.0, r.value.1;
      i := i + 1;
    }
  }

  /** The saved default tool, `""` when the settings cannot be read. */
  function SavedTool(settings: Stored<Settings>): string {
    match LoadedSettings(settings)
    case Failure(_) => ""
    case Success(s) => s.aiTool
  }

  /** The sync results the server's answers give for `items`. */
  function SyncResults(items: seq<Api.SyncItem>, server: Api.Server): (r: Result<seq<Api.SyncResult>, Error>)
    ensures r.Success? ==> |r.value| == |items|
  {
    match Api.FetchAll(server, Api.Batches(Api.Ids(items)))
    case Failure(e) => Failure(e)
    case Success(answers) => Success(Api.Assemble(items, answers))
  }

  /** The request items for the manifest entries: id, version, checksum. */
  function SyncItems(installed: seq<Item>): (r: seq<Api.SyncItem>)
    ensures |r| == |installed|
    ensures forall i :: 0 <= i < |installed| ==>
              r[i] == Api.SyncItem(installed[i].catalogId, installed[i].version, installed[i].checksum)
  {
    seq(|installed|, i requires 0 <= i < |installed| =>
      Api.SyncItem(installed[i].catalogId, installed[i].version, installed[i].checksum))
  }

  /** The loop's outcome for a loaded manifest `mf` and the sync results. */
  function Outcome(mf: File, results: seq<Api.SyncResult>, root: Path, settings: Stored<Settings>,
                   files: map<Path, string>, hash: string -> string, dryRun: bool): (Run, Option<string>)
  {
    SyncFrom(mf.installed, 0, Run(EmptyPlan, mf.installed, files),
             Env(results, root, SavedTool(settings), hash, dryRun))
  }

  /** `sync [--dry-run]`: `token` is what `tokenFromStore` gives. Without a
      token or a readable manifest nothing happens; an empty manifest gives
      an empty plan without a request; a failed sync request changes
      nothing; otherwise the loop runs, and the manifest is saved unless it
      is a dry run or an install failed. `requests` are the batches sent. */
  method Sync(store: Store, disk: Disk, token: Result<string, Error>, server: Api.Server,
              hash: string -> string, dryRun: bool)
    returns (r: Result<Plan, Error>, requests: seq<seq<string>>)
    modifies store, disk
    ensures store.settings == old(store.settings)
    ensures token.Failure? ==> r == Failure(token.error)
    ensures token.Success? && Loaded(old(store.manifest)).Failure? ==> r == Failure(Loaded(old(store.manifest)).error)
    ensures token.Failure? || Loaded(old(store.manifest)).Failure? ==>
              r.Failure? && requests == [] && store.manifest == old(store.manifest) && disk.files == old(disk.files)
    ensures token.Success? && Loaded(old(store.manifest)).Success? ==>
              var mf := Loaded(old(store.manifest)).value;
              var items := SyncItems(mf.installed);
              && requests <= Api.Batches(Api.Ids(items))
              && (mf.installed == [] ==> r == Success(EmptyPlan) && requests == []
                                         && store.manifest == old(store.manifest) && disk.files == old(disk.files))
              && (SyncResults(items, server).Failure? ==>
                    r == Failure(SyncResults(items, server).error)
                    && store.manifest == old(store.manifest) && disk.files == old(disk.files))
              && (mf.installed != [] && SyncResults(items, server).Success? ==>
                    var (run, err) := Outcome(mf, SyncResults(items, server).value, store.root,
                                              old(store.settings), old(disk.files), hash, dryRun);
                    && disk.files == run.files
                    && (err.Some? ==> r == Failure(Other(err.value)) && store.manifest == old(store.manifest))
                    && (err.None? ==> r == Success(run.plan))
                    && (err.None? && dryRun ==> store.manifest == old(store.manifest))
                    && (err.None? && !dryRun ==>
                          store.manifest.Present? && store.manifest.value.version == mf.version
                          && Sorted(store.manifest.value.installed)
                          && multiset(store.manifest.value.installed) == multiset(run.installed)))
  {
    requests := [];
    if token.Failure? {
      return Failure(token.error), requests;
    }
    var loaded := store.Load();
    if loaded.Failure? {
      return Failure(loaded.error), requests;
    }
    var mf := loaded.value;
    if |mf.installed| == 0 {
      return Success(EmptyPlan), requests;
    }
    var items: seq<Api.SyncItem> := [];
    for k := 0 to |mf.installed|
      invariant items == SyncItems(mf.installed[..k])
    {
      items := items + [Api.SyncItem(mf.installed[k].catalogId, mf.installed[k].version, mf.installed[k].checksum)];
    }
    assert mf.installed[..|mf.installed|] == mf.installed;
    var resp;
    resp, requests := Api.CatalogSync(items, server);
    if resp.Failure? {
      return Failure(resp.error), requests;
    }
    var saved := store.LoadSettings();
    var defaultTool := if saved.Success? then saved.value.aiTool else "";
    var plan, installed, err := SyncLoop(disk, mf.installed, Env(resp.value, store.root, defaultTool, hash, dryRun));
    if err.Some? {
      return Failure(Other(err.value)), requests;
    }
    if !dryRun {
      store.Save(mf.(installed := installed));
    }
    return Success(plan), requests;
  }
}
