/** The deterministic part of the catalog client, internal/api/client.go over
    the types of internal/api/models.go: turning search hits into catalog
    items, normalising catalog items, the query of a search, and the
    batching and alignment done by `CatalogSync`. The HTTP exchange itself
    is a parameter: `server` answers one batch of catalog ids. */
module Api {
  import opened Wrappers
  import opened GoStrings
  import opened ApiErrors

  /** A JSON value found in an item's `metadata` object, as far as
      `strMeta`/`boolMeta` tell them apart. */
  datatype MetaValue = MetaNull | MetaString(s: string) | MetaBool(b: bool) | MetaOther

  /** `map[string]any`; None is the nil map. */
  type Metadata = Option<map<string, MetaValue>>

  /** `api.Item`: one search hit (score and timestamps left out). */
  datatype Item = Item(
    id: string, name: string, title: string, kind: string, slug: string,
    catalogId: string, version: string, catVer: string, checksum: string,
    tags: seq<string>, metadata: Metadata, content: string)

  /** `api.CatalogItem`. */
  datatype CatalogItem = CatalogItem(
    id: string, title: string, name: string, kind: string, slug: string,
    catalogId: string, version: string, catVer: string, checksum: string,
    tags: seq<string>, deprecated: bool, changelog: string, content: string,
    metadata: Metadata)

  /** The zero `CatalogItem`. */
  const ZeroItem: CatalogItem := CatalogItem("", "", "", "", "", "", "", "", "", [], false, "", "", None)

  const DefaultVersion: string := "0.0.0"

  /** The catalog id synthesised from a type and a slug: `<type>:<slug>`. */
  function SyntheticId(kind: string, slug: string): (r: string)
    ensures |r| == |kind| + 1 + |slug|
    ensures r[|kind|] == ':' && r[..|kind|] == kind && r[|kind| + 1..] == slug
  {
    kind + ":" + slug
  }

  /** `strMeta(meta, key)`: the string stored under `key`, or "" for a nil
      map, a missing key, a null or a value of another type. */
  function StrMeta(meta: Metadata, key: string): (r: string)
    ensures meta.Some? && key in meta.value && meta.value[key].MetaString? ==> r == meta.value[key].s
    ensures meta.None? || key !in meta.value || !meta.value[key].MetaString? ==> r == ""
  {
    match meta
    case None => ""
    case Some(m) =>
      if key !in m then ""
      else match m[key]
        case MetaString(s) => s
        case _ => ""
  }

  /** `boolMeta(meta, key)`: the boolean stored under `key`, or false for a
      nil map, a missing key, a null or a value of another type. */
  function BoolMeta(meta: Metadata, key: string): (r: bool)
    ensures r <==> meta.Some? && key in meta.value && meta.value[key] == MetaBool(true)
  {
    match meta
    case None => false
    case Some(m) =>
      if key !in m then false
      else match m[key]
        case MetaBool(b) => b
        case _ => false
  }

  /** The first non-empty string of `xs`, or "" when there is none: the
      shape of each `if x == "" { x = next }` chain. */
  function FirstNonEmpty(xs: seq<string>): (r: string)
    ensures r == "" <==> forall i :: 0 <= i < |xs| ==> xs[i] == ""
    ensures r != "" ==> exists i :: 0 <= i < |xs| && xs[i] == r && forall j :: 0 <= j < i ==> xs[j] == ""
  {
    if xs == [] then ""
    else if xs[0] != "" then xs[0]
    else
      var r := FirstNonEmpty(xs[1..]);
      assert forall i :: 1 <= i < |xs| ==> xs[i] == xs[1..][i - 1];
      if r == "" then r
      else
        var k :| 0 <= k < |xs[1..]| && xs[1..][k] == r && forall j :: 0 <= j < k ==> xs[1..][j] == "";
        assert xs[k + 1] == r && forall j :: 0 <= j < k + 1 ==> xs[j] == "";
        r
  }

  /** The chain looks at its head first. */
  lemma FirstNonEmptyCons(x: string, rest: seq<string>)
    ensures FirstNonEmpty([x] + rest) == if x != "" then x else FirstNonEmpty(rest)
  {
    assert ([x] + rest)[1..] == rest;
  }

  lemma FirstOfTwo(a: string, b: string)
    ensures FirstNonEmpty([a, b]) == if a != "" then a else b
  {
    FirstNonEmptyCons(a, [b]);
    FirstNonEmptyCons(b, []);
    assert [b] == [b] + [];
  }

  lemma FirstOfThree(a: string, b: string, c: string)
    ensures FirstNonEmpty([a, b, c]) == if a != "" then a else if b != "" then b else c
  {
    FirstNonEmptyCons(a, [b, c]);
    FirstOfTwo(b, c);
  }

  lemma FirstOfFive(a: string, b: string, c: string, d: string, e: string)
    ensures FirstNonEmpty([a, b, c, d, e]) ==
            if a != "" then a else if b != "" then b else if c != "" then c else if d != "" then d else e
  {
    FirstNonEmptyCons(a, [b, c, d, e]);
    FirstNonEmptyCons(b, [c, d, e]);
    FirstOfThree(c, d, e);
  }

  /** The slug of a search hit: its own, the metadata's, or its id. */
  function SlugOf(it: Item): (r: string)
    ensures r == FirstNonEmpty([it.slug, StrMeta(it.metadata, "slug"), it.id])
  {
    FirstOfThree(it.slug, StrMeta(it.metadata, "slug"), it.id);
    if it.slug != "" then it.slug
    else if StrMeta(it.metadata, "slug") != "" then StrMeta(it.metadata, "slug")
    else it.id
  }

  /** The catalog id of a search hit: its own, the metadata's, or
      `<type>:<slug>`, never empty. */
  function CatalogIdOf(it: Item, slug: string): (r: string)
    ensures r == FirstNonEmpty([it.catalogId, StrMeta(it.metadata, "catalogId"), SyntheticId(it.kind, slug)])
    ensures r != ""
  {
    FirstOfThree(it.catalogId, StrMeta(it.metadata, "catalogId"), SyntheticId(it.kind, slug));
    if it.catalogId != "" then it.catalogId
    else if StrMeta(it.metadata, "catalogId") != "" then StrMeta(it.metadata, "catalogId")
    else SyntheticId(it.kind, slug)
  }

  /** The version of a search hit: the first set of its version, its
      catalog version, the metadata's `catalogVersion` and `version`, and
      "0.0.0" last, so never empty. */
  function VersionOf(it: Item): (r: string)
    ensures r == FirstNonEmpty([it.version, it.catVer, StrMeta(it.metadata, "catalogVersion"),
                                StrMeta(it.metadata, "version"), DefaultVersion])
    ensures r != ""
  {
    FirstOfFive(it.version, it.catVer, StrMeta(it.metadata, "catalogVersion"), StrMeta(it.metadata, "version"), DefaultVersion);
    if it.version != "" then it.version
    else if it.catVer != "" then it.catVer
    else if StrMeta(it.metadata, "catalogVersion") != "" then StrMeta(it.metadata, "catalogVersion")
    else if StrMeta(it.metadata, "version") != "" then StrMeta(it.metadata, "version")
    else DefaultVersion
  }

  /** A field with one fallback. */
  function OrElse(primary: string, fallback: string): (r: string)
    ensures r == FirstNonEmpty([primary, fallback])
  {
    FirstOfTwo(primary, fallback);
    if primary != "" then primary else fallback
  }

  /** `itemToCatalog(it)`: a search hit as a catalog item, each missing field
      taken from the first non-empty of its fallbacks. */
  function ItemToCatalog(it: Item): (r: CatalogItem)
    ensures r.slug == FirstNonEmpty([it.slug, StrMeta(it.metadata, "slug"), it.id])
    ensures r.catalogId == FirstNonEmpty([it.catalogId, StrMeta(it.metadata, "catalogId"), SyntheticId(it.kind, r.slug)])
    ensures r.version == FirstNonEmpty([it.version, it.catVer, StrMeta(it.metadata, "catalogVersion"),
                                        StrMeta(it.metadata, "version"), DefaultVersion])
    ensures r.version != "" && r.catVer == r.version && r.catalogId != ""
    ensures r.name == FirstNonEmpty([it.name, it.title])
    ensures r.checksum == FirstNonEmpty([it.checksum, StrMeta(it.metadata, "checksum")])
    ensures r.content == FirstNonEmpty([it.content, StrMeta(it.metadata, "content")])
    ensures r.deprecated == BoolMeta(it.metadata, "deprecated") && r.changelog == StrMeta(it.metadata, "changelog")
    ensures r.id == it.id && r.title == it.title && r.kind == it.kind && r.tags == it.tags && r.metadata == it.metadata
  {
    var slug := SlugOf(it);
    var version := VersionOf(it);
    CatalogItem(it.id, it.title, OrElse(it.name, it.title), it.kind, slug, CatalogIdOf(it, slug), version, version,
                OrElse(it.checksum, StrMeta(it.metadata, "checksum")), it.tags,
                BoolMeta(it.metadata, "deprecated"), StrMeta(it.metadata, "changelog"),
                OrElse(it.content, StrMeta(it.metadata, "content")), it.metadata)
  }

  /** A catalog item `normalizeCatalogItem` leaves alone: both versions set,
      a name whenever there is a title, and a catalog id whenever there are
      a type and a slug. */
  predicate NormalForm(it: CatalogItem) {
    it.version != "" && it.catVer != ""
    && (it.name == "" ==> it.title == "")
    && (it.catalogId == "" ==> it.kind == "" || it.slug == "")
  }

  /** What `normalizeCatalogItem` makes of `it`. */
  function Normalized(it: CatalogItem): (r: CatalogItem)
    ensures NormalForm(r)
    ensures r.version != "" && r.catVer != ""
    ensures it.version == "" || it.catVer == "" ==> r.version == r.catVer
    ensures it.version != "" ==> r.version == it.version
    ensures it.catVer != "" ==> r.catVer == it.catVer
    ensures it.version == "" && it.catVer == "" ==> r.version == DefaultVersion
    ensures r.name == (if it.name == "" then it.title else it.name)
    ensures r.catalogId == (if it.catalogId == "" && it.kind != "" && it.slug != "" then SyntheticId(it.kind, it.slug) else it.catalogId)
    ensures r.(name := it.name, version := it.version, catVer := it.catVer, catalogId := it.catalogId) == it
  {
    var v := if it.version != "" then it.version else if it.catVer != "" then it.catVer else DefaultVersion;
    var c := if it.catVer != "" then it.catVer else v;
    it.(name := if it.name == "" then it.title else it.name,
        version := v,
        catVer := c,
        catalogId := if it.catalogId == "" && it.kind != "" && it.slug != "" then SyntheticId(it.kind, it.slug) else it.catalogId)
  }

  /** Normalising an item in normal form changes nothing, so normalising is
      idempotent. */
  lemma NormalizedIdempotent(it: CatalogItem)
    ensures NormalForm(it) ==> Normalized(it) == it
    ensures Normalized(Normalized(it)) == Normalized(it)
  {
  }

  /** The items `itemToCatalog` produces are already normal. */
  lemma ItemToCatalogNormal(it: Item)
    ensures NormalForm(ItemToCatalog(it))
    ensures Normalized(ItemToCatalog(it)) == ItemToCatalog(it)
  {
    var r := ItemToCatalog(it);
    if r.name == "" {
      assert it.name == "" && FirstNonEmpty([it.name, it.title]) == it.title;
    }
  }

  /** `normalizeCatalogItem(&it)`: the field-by-field updates of the source. */
  method NormalizeCatalogItem(it: CatalogItem) returns (r: CatalogItem)
    ensures r == Normalized(it)
  {
    r := it;
    if r.name == "" {
      r := r.(name := r.title);
    }
    if r.version == "" {
      r := r.(version := r.catVer);
    }
    if r.catVer == "" {
      r := r.(catVer := r.version);
    }
    if r.catalogId == "" && r.kind != "" && r.slug != "" {
      r := r.(catalogId := r.kind + ":" + r.slug);
    }
    if r.version == "" {
      r := r.(version := DefaultVersion, catVer := DefaultVersion);
    }
  }

  /** `ItemsSearchRequest`. */
  datatype SearchRequest = SearchRequest(q: string, kind: string, slug: string, tags: seq<string>,
                                         latest: bool, page: int, limit: int)

  /** The query keys `ItemsSearch` may set. */
  datatype QueryKey = QKey | TypeKey | SlugKey | TagsKey | LatestKey | PageKey | LimitKey

  /** The name of a key on the wire. */
  function KeyName(k: QueryKey): string {
    match k
    case QKey => "q"
    case TypeKey => "type"
    case SlugKey => "slug"
    case TagsKey => "tags"
    case LatestKey => "latest"
    case PageKey => "page"
    case LimitKey => "limit"
  }

  /** The value `ItemsSearch(req)` puts in its query under `key`, if any:
      the text fields when non-empty, the tags comma-joined when there are
      any, `latest=true` when asked for, and page and limit when positive. */
  function QueryValue(req: SearchRequest, key: QueryKey): Option<string> {
    match key
    case QKey => if req.q != "" then Some(req.q) else None
    case TypeKey => if req.kind != "" then Some(req.kind) else None
    case SlugKey => if req.slug != "" then Some(req.slug) else None
    case TagsKey => if req.tags != [] then Some(Join(req.tags, ",")) else None
    case LatestKey => if req.latest then Some("true") else None
    case PageKey => if req.page > 0 then Some(Itoa(req.page)) else None
    case LimitKey => if req.limit > 0 then Some(Itoa(req.limit)) else None
  }

  /** The query `ItemsSearch(req)` builds, key by key, before URL encoding. */
  method SearchQuery(req: SearchRequest) returns (q: map<QueryKey, string>)
    ensures forall k :: k in q <==> QueryValue(req, k).Some?
    ensures forall k :: k in q ==> q[k] == QueryValue(req, k).value
  {
    q := map[];
    q := if req.q != "" then q[QKey := req.q] else q;
    q := if req.kind != "" then q[TypeKey := req.kind] else q;
    q := if req.slug != "" then q[SlugKey := req.slug] else q;
    q := if req.tags != [] then q[TagsKey := Join(req.tags, ",")] else q;
    q := if req.latest then q[LatestKey := "true"] else q;
    q := if req.page > 0 then q[PageKey := Itoa(req.page)] else q;
    q := if req.limit > 0 then q[LimitKey := Itoa(req.limit)] else q;
    forall k
      ensures (k in q <==> QueryValue(req, k).Some?) && (k in q ==> q[k] == QueryValue(req, k).value)
    {
      match k
      case QKey =>
      case TypeKey =>
      case SlugKey =>
      case TagsKey =>
      case LatestKey =>
      case PageKey =>
      case LimitKey =>
    }
  }

  /** `CatalogSuggest` searches for the latest versions, first page, fifty
      items, so its query always carries those three keys; and a request
      sets no key at all exactly when all its fields are unset. */
  lemma SearchQueryShape(req: SearchRequest)
    ensures req.latest && req.page == 1 && req.limit == 50 ==>
              QueryValue(req, LatestKey) == Some("true") && QueryValue(req, PageKey) == Some("1")
              && QueryValue(req, LimitKey) == Some("50")
    ensures (forall k :: QueryValue(req, k).None?) <==>
              req.q == "" && req.kind == "" && req.slug == "" && req.tags == [] && !req.latest && req.page <= 0 && req.limit <= 0
  {
    if req.latest && req.page == 1 && req.limit == 50 {
      assert Itoa(50) == "50" by { assert NatToString(50) == NatToString(5) + [DigitChar(0)]; }
    }
    if forall k :: QueryValue(req, k).None? {
      assert QueryValue(req, QKey).None? && QueryValue(req, TypeKey).None? && QueryValue(req, SlugKey).None?;
      assert QueryValue(req, TagsKey).None? && QueryValue(req, LatestKey).None?;
      assert QueryValue(req, PageKey).None? && QueryValue(req, LimitKey).None?;
    }
  }

  /** `CatalogSyncItem`. */
  datatype SyncItem = SyncItem(catalogId: string, version: string, checksum: string)

  /** `CatalogSyncResult`. */
  datatype SyncResult = SyncResult(catalogId: string, slug: string, kind: string, currentVersion: string,
                                   latestVersion: string, deprecated: bool, removed: bool, latestItem: CatalogItem)

  /** One answer of the sync endpoint: the catalog items of a batch (nil
      entries included), or the error `do` returned. */
  type Server = seq<string> -> Result<seq<Option<CatalogItem>>, Error>

  const MaxBatch: nat := 100

  function Min(a: int, b: int): int { if a < b then a else b }

  /** The catalog ids of the local items, in order. */
  function Ids(items: seq<SyncItem>): (r: seq<string>)
    ensures |r| == |items| && forall i :: 0 <= i < |items| ==> r[i] == items[i].catalogId
  {
    seq(|items|, i requires 0 <= i < |items| => items[i].catalogId)
  }

  /** The batches sent for `ids` from index `start` on: consecutive slices
      of `MaxBatch` ids, the last one possibly shorter. */
  function BatchesFrom(ids: seq<string>, start: nat): seq<seq<string>>
    decreases |ids| - start
  {
    if start >= |ids| then []
    else [ids[start..Min(start + MaxBatch, |ids|)]] + BatchesFrom(ids, start + MaxBatch)
  }

  function Batches(ids: seq<string>): seq<seq<string>> {
    BatchesFrom(ids, 0)
  }

  function Flatten(bs: seq<seq<string>>): seq<string> {
    if bs == [] then [] else bs[0] + Flatten(bs[1..])
  }

  /** The batches cover the ids exactly once and in order; each holds
      between one and `MaxBatch` ids. */
  lemma {:induction false} BatchesFromCover(ids: seq<string>, start: nat)
    requires start <= |ids|
    ensures Flatten(BatchesFrom(ids, start)) == ids[start..]
    ensures forall b :: b in BatchesFrom(ids, start) ==> 1 <= |b| <= MaxBatch
    decreases |ids| - start
  {
    if start < |ids| {
      var end := Min(start + MaxBatch, |ids|);
      if start + MaxBatch <= |ids| {
        BatchesFromCover(ids, start + MaxBatch);
        assert ids[start..] == ids[start..end] + ids[start + MaxBatch..];
      } else {
        assert BatchesFrom(ids, start + MaxBatch) == [];
      }
    }
  }

  /** Sync batching: the concatenated batches are the ids, every batch has
      one to a hundred ids, and no ids means no request. */
  lemma BatchesCover(ids: seq<string>)
    ensures Flatten(Batches(ids)) == ids
    ensures forall b :: b in Batches(ids) ==> 1 <= |b| <= MaxBatch
    ensures Batches(ids) == [] <==> ids == []
  {
    BatchesFromCover(ids, 0);
  }

  /** The concatenated answers for `batches`, sent in order, or the first
      error. */
  function FetchAll(server: Server, batches: seq<seq<string>>): Result<seq<Option<CatalogItem>>, Error> {
    if batches == [] then Success([])
    else match server(batches[0])
      case Failure(e) => Failure(e)
      case Success(xs) =>
        match FetchAll(server, batches[1..])
        case Failure(e) => Failure(e)
        case Success(ys) => Success(xs + ys)
  }

  function Prepend(xs: seq<Option<CatalogItem>>, r: Result<seq<Option<CatalogItem>>, Error>): Result<seq<Option<CatalogItem>>, Error> {
    if r.Success? then Success(xs + r.value) else r
  }

  /** The remote entry aligned with local index `i`: nil past the end. */
  function At(api: seq<Option<CatalogItem>>, i: nat): Option<CatalogItem> {
    if i < |api| then api[i] else None
  }

  /** The result for one local item: removed when there is no remote item,
      otherwise the normalised remote item with its version. */
  function ResultFor(local: SyncItem, remote: Option<CatalogItem>): (r: SyncResult)
    ensures r.catalogId == local.catalogId && r.currentVersion == local.version
    ensures r.removed <==> remote.None?
    ensures r.removed ==> r.latestVersion == "" && r.latestItem == ZeroItem && !r.deprecated
    ensures !r.removed ==> r.latestItem == Normalized(remote.value) && r.latestVersion == r.latestItem.version
                           && r.latestVersion != "" && r.deprecated == remote.value.deprecated
  {
    match remote
    case None => SyncResult(local.catalogId, "", "", local.version, "", false, true, ZeroItem)
    case Some(it) =>
      var n := Normalized(it);
      SyncResult(local.catalogId, n.slug, n.kind, local.version, n.version, n.deprecated, false, n)
  }

  /** The results for all local items, aligned by position with the
      concatenated answers. */
  function Assemble(items: seq<SyncItem>, api: seq<Option<CatalogItem>>): (r: seq<SyncResult>)
    ensures |r| == |items|
    ensures forall i :: 0 <= i < |items| ==> r[i] == ResultFor(items[i], At(api, i))
  {
    seq(|items|, i requires 0 <= i < |items| => ResultFor(items[i], At(api, i)))
  }

  /** Sync alignment: one result per local item, in order, with the local id
      and version; removed exactly where the answers hold no item. */
  lemma AssembleAligned(items: seq<SyncItem>, api: seq<Option<CatalogItem>>, i: nat)
    requires i < |items|
    ensures var r := Assemble(items, api)[i];
            r.catalogId == items[i].catalogId && r.currentVersion == items[i].version
            && (r.removed <==> i >= |api| || api[i].None?)
            && (!r.removed ==> r.latestVersion != "" && r.latestVersion == Normalized(api[i].value).version)
  {
  }

  /** One more successful batch moves its answer into the prefix. */
  lemma FetchStep(server: Server, xs: seq<Option<CatalogItem>>, b: seq<string>, rest: seq<seq<string>>)
    requires server(b).Success?
    ensures Prepend(xs, FetchAll(server, [b] + rest)) == Prepend(xs + server(b).value, FetchAll(server, rest))
  {
    assert ([b] + rest)[1..] == rest;
    var r := FetchAll(server, rest);
    if r.Success? {
      assert xs + (server(b).value + r.value) == xs + server(b).value + r.value;
    }
  }

  /** A failing batch is the error of the whole exchange. */
  lemma FetchFail(server: Server, xs: seq<Option<CatalogItem>>, b: seq<string>, rest: seq<seq<string>>)
    requires server(b).Failure?
    ensures Prepend(xs, FetchAll(server, [b] + rest)) == server(b)
  {
  }

  /** The catalog ids of one batch, `items[start..end]`. */
  method BatchIds(items: seq<SyncItem>, start: nat, end: nat) returns (ids: seq<string>)
    requires start <= end <= |items|
    ensures ids == Ids(items)[start..end]
  {
    ids := [];
    for k := start to end
      invariant ids == Ids(items)[start..k]
    {
      ids := ids + [items[k].catalogId];
    }
  }

  /** The request loop of `CatalogSync`: one request per batch, in order,
      answers appended, stopping at the first error. */
  method FetchBatches(items: seq<SyncItem>, server: Server) returns (fetched: Result<seq<Option<CatalogItem>>, Error>, requests: seq<seq<string>>)
    ensures fetched == FetchAll(server, Batches(Ids(items)))
    ensures requests <= Batches(Ids(items))
    ensures fetched.Success? ==> requests == Batches(Ids(items))
    ensures fetched.Failure? ==> requests != [] && server(requests[|requests| - 1]) == fetched
  {
    var all := Ids(items);
    var apiItems: seq<Option<CatalogItem>> := [];
    requests := [];
    var start: nat := 0;
    assert Prepend([], FetchAll(server, Batches(all))) == FetchAll(server, Batches(all)) by {
      if FetchAll(server, Batches(all)).Success? {
        assert [] + FetchAll(server, Batches(all)).value == FetchAll(server, Batches(all)).value;
      }
    }
    while start < |items|
      invariant requests + BatchesFrom(all, start) == Batches(all)
      invariant FetchAll(server, Batches(all)) == Prepend(apiItems, FetchAll(server, BatchesFrom(all, start)))
      decreases |items| - start
    {
      var end := start + MaxBatch;
      if end > |items| {
        end := |items|;
      }
      var ids := BatchIds(items, start, end);
      assert BatchesFrom(all, start) == [ids] + BatchesFrom(all, start + MaxBatch);
      assert requests + [ids] + BatchesFrom(all, start + MaxBatch) == Batches(all);
      requests := requests + [ids];
      var answer := server(ids);
      if answer.Failure? {
        FetchFail(server, apiItems, ids, BatchesFrom(all, start + MaxBatch));
        return answer, requests;
      }
      FetchStep(server, apiItems, ids, BatchesFrom(all, start + MaxBatch));
      apiItems := apiItems + answer.value;
      start := start + MaxBatch;
    }
    assert requests == Batches(all);
    assert FetchAll(server, BatchesFrom(all, start)) == Success([]);
    assert apiItems + [] == apiItems;
    fetched := Success(apiItems);
  }

  /** The result loop of `CatalogSync`: local item `i` meets the answer at
      position `i`, normalised, or is marked removed. */
  method AlignResults(items: seq<SyncItem>, apiItems: seq<Option<CatalogItem>>) returns (results: seq<SyncResult>)
    ensures results == Assemble(items, apiItems)
  {
    results := [];
    for i := 0 to |items|
      invariant |results| == i
      invariant forall j :: 0 <= j < i ==> results[j] == ResultFor(items[j], At(apiItems, j))
    {
      var remote: Option<CatalogItem> := None;
      if i < |apiItems| {
        remote := apiItems[i];
      }
      if remote.None? {
        results := results + [SyncResult(items[i].catalogId, "", "", items[i].version, "", false, true, ZeroItem)];
      } else {
        var n := NormalizeCatalogItem(remote.value);
        results := results + [SyncResult(items[i].catalogId, n.slug, n.kind, items[i].version, n.version, n.deprecated, false, n)];
      }
    }
  }

  /** `CatalogSync`: send the ids in batches, stop at the first error, then
      align the answers with the local items. `requests` are the batches
      sent, in order. */
  method CatalogSync(items: seq<SyncItem>, server: Server) returns (resp: Result<seq<SyncResult>, Error>, requests: seq<seq<string>>)
    ensures requests <= Batches(Ids(items))
    ensures resp.Success? <==> FetchAll(server, Batches(Ids(items))).Success?
    ensures resp.Success? ==> (requests == Batches(Ids(items))
                               && resp.value == Assemble(items, FetchAll(server, Batches(Ids(items))).value))
    ensures resp.Failure? ==> (requests != [] && server(requests[|requests| - 1]) == Failure(resp.error)
                               && FetchAll(server, Batches(Ids(items))) == Failure(resp.error))
  {
    var fetched;
    fetched, requests := FetchBatches(items, server);
    if fetched.Failure? {
      return Failure(fetched.error), requests;
    }
    var results := AlignResults(items, fetched.value);
    resp := Success(results);
  }
}
