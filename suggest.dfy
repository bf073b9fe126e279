/** The `suggest` command of cmd/suggest.go: ask the catalog for rules and
    skills matching the tags a repository scan detected, and give each a
    reason. The scan (`scan.Detect`) is replaced by its result, the detected
    tags or an error; the search endpoint is a parameter; printing is not
    modelled. */
module SuggestCommand {
  import opened Wrappers
  import opened GoStrings
  import opened ApiErrors
  import opened Catalog
  import Api

  /** `suggestItem`. */
  datatype Suggestion = Suggestion(ref: string, reason: string, tags: seq<string>)

  const DeprecatedReason: string := "Deprecated item; avoid unless required"
  const GeneralReason: string := "General recommendation from catalog"

  /** The set of the detected tags. */
  function TagSet(tags: seq<string>): set<string> {
    set i | 0 <= i < |tags| :: tags[i]
  }

  /** The number of entries of `itemTags`, repeats included, that are in
      `tags`. */
  function MatchCount(itemTags: seq<string>, tags: set<string>): (n: nat)
    ensures n <= |itemTags|
    ensures n == 0 <==> forall i :: 0 <= i < |itemTags| ==> itemTags[i] !in tags
  {
    if itemTags == [] then 0
    else (if itemTags[0] in tags then 1 else 0) + MatchCount(itemTags[1..], tags)
  }

  /** Counting over two lists is counting over each. */
  lemma {:induction false} MatchCountAppend(xs: seq<string>, ys: seq<string>, tags: set<string>)
    ensures MatchCount(xs + ys, tags) == MatchCount(xs, tags) + MatchCount(ys, tags)
  {
    if xs == [] {
      assert xs + ys == ys;
    } else {
      assert (xs + ys)[1..] == xs[1..] + ys;
      MatchCountAppend(xs[1..], ys, tags);
    }
  }

  /** When every tag of the item was detected, every one counts. */
  lemma {:induction false} MatchCountAll(itemTags: seq<string>, tags: set<string>)
    requires forall i :: 0 <= i < |itemTags| ==> itemTags[i] in tags
    ensures MatchCount(itemTags, tags) == |itemTags|
  {
    if itemTags != [] {
      MatchCountAll(itemTags[1..], tags);
    }
  }

  /** The reason given for `item` when `tags` were detected. */
  function Reason(item: Api.CatalogItem, tags: seq<string>): string {
    var n := MatchCount(item.tags, TagSet(tags));
    if n > 0 then "Matched " + Itoa(n) + " detected tags"
    else if item.deprecated then DeprecatedReason
    else GeneralReason
  }

  /** `reasonForItem(item, tags)`: a count of matching tags wins over the
      deprecation notice, which wins over the general reason; the three
      kinds of reason are told apart by their text. */
  lemma ReasonCases(item: Api.CatalogItem, tags: seq<string>)
    ensures var r := Reason(item, tags);
            (exists i :: 0 <= i < |item.tags| && item.tags[i] in TagSet(tags)) <==> "Matched " <= r
    ensures var r := Reason(item, tags);
            MatchCount(item.tags, TagSet(tags)) > 0 ==>
              r == "Matched " + Itoa(MatchCount(item.tags, TagSet(tags))) + " detected tags"
    ensures Reason(item, tags) == DeprecatedReason <==>
              item.deprecated && forall i :: 0 <= i < |item.tags| ==> item.tags[i] !in TagSet(tags)
    ensures Reason(item, tags) == GeneralReason <==>
              !item.deprecated && forall i :: 0 <= i < |item.tags| ==> item.tags[i] !in TagSet(tags)
  {
    var r := Reason(item, tags);
    assert DeprecatedReason[0] == 'D' && GeneralReason[0] == 'G';
    if MatchCount(item.tags, TagSet(tags)) > 0 {
      assert "Matched " <= r && r[0] == 'M';
    }
  }

  /** `reasonForItem(item, tags)`: collect the detected tags in a set, then
      count the item's tags found in it. */
  method ReasonForItem(item: Api.CatalogItem, tags: seq<string>) returns (r: string)
    ensures r == Reason(item, tags)
  {
    var tagSet: set<string> := {};
    for i := 0 to |tags|
      invariant tagSet == set j | 0 <= j < i :: tags[j]
    {
      tagSet := tagSet + {tags[i]};
    }
    var matches := 0;
    for i := 0 to |item.tags|
      invariant matches == MatchCount(item.tags[..i], tagSet)
    {
      MatchCountAppend(item.tags[..i], [item.tags[i]], tagSet);
      assert item.tags[..i + 1] == item.tags[..i] + [item.tags[i]];
      if item.tags[i] in tagSet {
        matches := matches + 1;
      }
    }
    assert item.tags[..|item.tags|] == item.tags;
    if matches > 0 {
      return "Matched " + Itoa(matches) + " detected tags";
    }
    if item.deprecated {
      return DeprecatedReason;
    }
    return GeneralReason;
  }

  /** The types asked for: rule then skill, or only the `--type` value. */
  function TypesFor(onlyType: string): (r: seq<string>)
    ensures onlyType == "" ==> r == [TypeRule, TypeSkill]
    ensures onlyType != "" ==> r == [onlyType]
  {
    if onlyType == "" then [TypeRule, TypeSkill] else [onlyType]
  }

  /** The search endpoint: the items for a search request, or an error. */
  type Search = Api.SearchRequest -> Result<seq<Api.Item>, Error>

  /** The search `CatalogSuggest` sends for type `t`: the tags, joined by
      spaces as the text query and as the tag filter, latest versions
      only, first page of fifty. */
  function SuggestRequest(t: string, tags: seq<string>): Api.SearchRequest {
    Api.SearchRequest(Join(tags, " "), t, "", tags, true, 1, 50)
  }

  /** `CatalogSuggest`: the search answer, each item converted. */
  function CatalogSuggest(search: Search, t: string, tags: seq<string>): Result<seq<Api.CatalogItem>, Error> {
    match search(SuggestRequest(t, tags))
    case Failure(e) => Failure(e)
    case Success(items) =>
      Success(seq(|items|, i requires 0 <= i < |items| => Api.ItemToCatalog(items[i])))
  }

  /** `CatalogSuggest` asks for the latest versions, first page of fifty,
      and converts every item of the answer, in order. */
  lemma CatalogSuggestConverts(search: Search, t: string, tags: seq<string>)
    ensures var req := SuggestRequest(t, tags);
            Api.QueryValue(req, Api.LatestKey) == Some("true") && Api.QueryValue(req, Api.PageKey) == Some("1")
            && Api.QueryValue(req, Api.LimitKey) == Some("50") && Api.QueryValue(req, Api.TypeKey) == (if t == "" then None else Some(t))
    ensures var r := CatalogSuggest(search, t, tags);
            var answer := search(SuggestRequest(t, tags));
            (answer.Success? <==> r.Success?)
            && (r.Success? ==> |r.value| == |answer.value|
                               && forall i :: 0 <= i < |r.value| ==> r.value[i] == Api.ItemToCatalog(answer.value[i]))
  {
    Api.SearchQueryShape(SuggestRequest(t, tags));
  }

  /** The suggestions for one answer, in its order. */
  function SuggestionsOf(items: seq<Api.CatalogItem>, tags: seq<string>): (r: seq<Suggestion>)
    ensures |r| == |items|
    ensures forall i :: 0 <= i < |items| ==>
              r[i] == Suggestion(NormalizeRef(items[i].kind, items[i].slug), Reason(items[i], tags), items[i].tags)
  {
    seq(|items|, i requires 0 <= i < |items| =>
      Suggestion(NormalizeRef(items[i].kind, items[i].slug), Reason(items[i], tags), items[i].tags))
  }

  /** The suggestions for the types `types` in order, each type's in the
      order of its answer, or the first error. */
  function Suggestions(types: seq<string>, tags: seq<string>, search: Search): Result<seq<Suggestion>, Error> {
    if types == [] then Success([])
    else match CatalogSuggest(search, types[0], tags)
      case Failure(e) => Failure(e)
      case Success(items) =>
        match Suggestions(types[1..], tags, search)
        case Failure(e) => Failure(e)
        case Success(rest) => Success(SuggestionsOf(items, tags) + rest)
  }

  function Prepend(xs: seq<Suggestion>, r: Result<seq<Suggestion>, Error>): Result<seq<Suggestion>, Error> {
    if r.Success? then Success(xs + r.value) else r
  }

  /** The first result, followed by the second: the first error, else
      both lists in order. */
  function Then(a: Result<seq<Suggestion>, Error>, b: Result<seq<Suggestion>, Error>): Result<seq<Suggestion>, Error> {
    if a.Failure? then a else Prepend(a.value, b)
  }

  /** Asking for two lists of types is asking for the first, then the
      second: suggestions keep the order of the types. */
  lemma {:induction false} SuggestionsAppend(ts: seq<string>, us: seq<string>, tags: seq<string>, search: Search)
    ensures Suggestions(ts + us, tags, search) == Then(Suggestions(ts, tags, search), Suggestions(us, tags, search))
  {
    var last := Suggestions(us, tags, search);
    if ts == [] {
      assert ts + us == us;
      if last.Success? {
        assert [] + last.value == last.value;
      }
    } else {
      var all := ts + us;
      assert all != [] && all[0] == ts[0] && all[1..] == ts[1..] + us;
      SuggestionsAppend(ts[1..], us, tags, search);
      var c := CatalogSuggest(search, ts[0], tags);
      var mid := Suggestions(ts[1..], tags, search);
      if c.Success? && mid.Success? && last.Success? {
        assert SuggestionsOf(c.value, tags) + (mid.value + last.value)
               == (SuggestionsOf(c.value, tags) + mid.value) + last.value;
      }
    }
  }

  /** Without `--type`, the rule suggestions come first, then the skill
      ones; every suggestion names its item by `NormalizeRef`. */
  lemma DefaultTypesOrder(tags: seq<string>, search: Search)
    ensures var r := Suggestions(TypesFor(""), tags, search);
            var rules := CatalogSuggest(search, TypeRule, tags);
            var skills := CatalogSuggest(search, TypeSkill, tags);
            r.Success? <==> rules.Success? && skills.Success?
    ensures var r := Suggestions(TypesFor(""), tags, search);
            var rules := CatalogSuggest(search, TypeRule, tags);
            var skills := CatalogSuggest(search, TypeSkill, tags);
            r.Success? ==> r.value == SuggestionsOf(rules.value, tags) + SuggestionsOf(skills.value, tags)
  {
    var ts := TypesFor("");
    assert ts[1..] == [TypeSkill] && ts[1..][1..] == [];
    var skills := CatalogSuggest(search, TypeSkill, tags);
    assert Suggestions(ts[1..][1..], tags, search) == Success([]);
    assert Suggestions(ts[1..], tags, search)
           == if skills.Success? then Success(SuggestionsOf(skills.value, tags) + []) else Failure(skills.error);
    if skills.Success? {
      assert SuggestionsOf(skills.value, tags) + [] == SuggestionsOf(skills.value, tags);
    }
  }

  /** The inner loop of `RunE`: one suggestion per item of an answer. */
  method SuggestionsFor(items: seq<Api.CatalogItem>, tags: seq<string>) returns (recs: seq<Suggestion>)
    ensures recs == SuggestionsOf(items, tags)
  {
    recs := [];
    for k := 0 to |items|
      invariant recs == SuggestionsOf(items[..k], tags)
    {
      var reason := ReasonForItem(items[k], tags);
      assert SuggestionsOf(items[..k + 1], tags)
             == SuggestionsOf(items[..k], tags) + [Suggestion(NormalizeRef(items[k].kind, items[k].slug), reason, items[k].tags)];
      recs := recs + [Suggestion(NormalizeRef(items[k].kind, items[k].slug), reason, items[k].tags)];
    }
    assert items[..|items|] == items;
  }

  /** The suggestions from the `i`-th type on: that type's answer, then
      the rest. */
  lemma SuggestionsAt(types: seq<string>, i: nat, tags: seq<string>, search: Search)
    requires i < |types|
    ensures var c := CatalogSuggest(search, types[i], tags);
            Suggestions(types[i..], tags, search)
            == if c.Failure? then Failure(c.error)
               else Prepend(SuggestionsOf(c.value, tags), Suggestions(types[i + 1..], tags, search))
  {
    assert types[i..][0] == types[i] && types[i..][1..] == types[i + 1..];
  }

  /** Prepending two lists is prepending their concatenation. */
  lemma PrependTwice(xs: seq<Suggestion>, ys: seq<Suggestion>, r: Result<seq<Suggestion>, Error>)
    ensures Prepend(xs, Prepend(ys, r)) == Prepend(xs + ys, r)
  {
    if r.Success? {
      assert xs + (ys + r.value) == (xs + ys) + r.value;
    }
  }

  /** The loop of `RunE` over the types: ask for each type in order and
      stop at the first error; `queried` are the types asked for. */
  method SuggestLoop(types: seq<string>, tags: seq<string>, search: Search)
    returns (r: Result<seq<Suggestion>, Error>, queried: seq<string>)
    ensures r == Suggestions(types, tags, search)
    ensures queried <= types && (r.Success? ==> queried == types)
  {
    queried := [];
    var recs: seq<Suggestion> := [];
    assert types[0..] == types;
    if Suggestions(types, tags, search).Success? {
      assert [] + Suggestions(types, tags, search).value == Suggestions(types, tags, search).value;
    }
    for i := 0 to |types|
      invariant queried == types[..i]
      invariant Suggestions(types, tags, search) == Prepend(recs, Suggestions(types[i..], tags, search))
    {
      queried := queried + [types[i]];
      SuggestionsAt(types, i, tags, search);
      var items := CatalogSuggest(search, types[i], tags);
      if items.Failure? {
        return Failure(items.error), queried;
      }
      var found := SuggestionsFor(items.value, tags);
      PrependTwice(recs, found, Suggestions(types[i + 1..], tags, search));
      recs := recs + found;
    }
    assert types[|types|..] == [];
    assert recs + [] == recs;
    r := Success(recs);
  }

  /** `suggest [--type t]`: `token` is what `tokenFromStore` gives and
      `detected` what the scan gives; `queried` are the types asked for,
      in order. */
  method Suggest(token: Result<string, Error>, detected: Result<seq<string>, Error>, onlyType: string, search: Search)
    returns (r: Result<seq<Suggestion>, Error>, queried: seq<string>)
    ensures token.Failure? ==> r == Failure(token.error) && queried == []
    ensures token.Success? && detected.Failure? ==> r == Failure(detected.error) && queried == []
    ensures token.Success? && detected.Success? ==>
              r == Suggestions(TypesFor(onlyType), detected.value, search)
              && queried <= TypesFor(onlyType)
              && (r.Success? ==> queried == TypesFor(onlyType))
  {
    if token.Failure? {
      return Failure(token.error), [];
    }
    if detected.Failure? {
      return Failure(detected.error), [];
    }
    var types := [TypeRule, TypeSkill];
    if onlyType != "" {
      types := [onlyType];
    }
    r, queried := SuggestLoop(types, detected.value, search);
  }
}
