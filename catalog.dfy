/** Catalog references of internal/catalog/types.go: `@rule/<slug>` and
    `@skill/<slug>`, parsed by `ParseRef` and printed by `NormalizeRef`. */
module Catalog {
  import opened Wrappers
  import opened GoStrings

  const TypeRule: string := "rule"
  const TypeSkill: string := "skill"

  /** The two item types the catalog serves. */
  predicate KnownType(t: string) {
    t == TypeRule || t == TypeSkill
  }

  /** `catalog.Ref`: the trimmed text, the type and the slug. */
  datatype Ref = Ref(raw: string, kind: string, slug: string)

  /** Why `ParseRef` failed: the text is not of the form `@<type>/<slug>`
      ("invalid identifier"), or it is but the type is neither `rule` nor
      `skill` ("unsupported type"). */
  datatype RefError = InvalidIdentifier(raw: string) | UnsupportedType(kind: string)

  /** The message of a `ParseRef` error; `%q` is taken to add plain double
      quotes. */
  function RefErrorText(e: RefError): string {
    match e
    case InvalidIdentifier(raw) => "invalid identifier \"" + raw + "\": expected @rule/<slug> or @skill/<slug>"
    case UnsupportedType(t) => "unsupported type \"" + t + "\": use rule or skill"
  }

  /** `NormalizeRef(t, slug)`: the text `@<t>/<slug>`. */
  function NormalizeRef(t: string, slug: string): string {
    "@" + t + "/" + slug
  }

  /** `s` reads `@<t>/<slug>` with `t` non-empty and free of `/`, and `slug`
      non-empty (it may hold further `/`). */
  predicate Shaped(s: string, t: string, slug: string) {
    t != [] && '/' !in t && slug != [] && s == NormalizeRef(t, slug)
  }

  /** `ParseRef(raw)`: trim white space, require a leading `@`, split the rest
      at its first `/` into a non-empty type and a non-empty slug, and
      accept only the types `rule` and `skill`. */
  function ParseRef(raw: string): (r: Result<Ref, RefError>)
    ensures r.Success? ==> r.value.raw == TrimSpace(raw) && KnownType(r.value.kind)
                           && Shaped(TrimSpace(raw), r.value.kind, r.value.slug)
    ensures r.Failure? && r.error.InvalidIdentifier? ==> r.error.raw == TrimSpace(raw)
  {
    var s := TrimSpace(raw);
    if s == [] || s[0] != '@' then Failure(InvalidIdentifier(s))
    else
      var body := s[1..];
      match IndexOf(body, '/')
      case None => Failure(InvalidIdentifier(s))
      case Some(i) =>
        if i == 0 || i + 1 == |body| then Failure(InvalidIdentifier(s))
        else if !KnownType(body[..i]) then Failure(UnsupportedType(body[..i]))
        else
          FirstSlashShaped(s, i);
          Success(Ref(s, body[..i], body[i + 1..]))
  }

  /** Splitting at the first `/` after the `@` leaves a shaped text. */
  lemma FirstSlashShaped(s: string, i: nat)
    requires s != [] && s[0] == '@' && IndexOf(s[1..], '/') == Some(i)
    requires 0 < i && i + 1 < |s[1..]|
    ensures Shaped(s, s[1..][..i], s[1..][i + 1..])
  {
    Reassemble(s, i);
    assert [s[0]] == "@" && [s[1..][i]] == "/";
  }

  /** A sequence is its head, then the `i` elements after it, then the next
      element, then the rest. */
  lemma Reassemble<T>(s: seq<T>, i: nat)
    requires i + 1 < |s|
    ensures s == [s[0]] + s[1..][..i] + [s[1..][i]] + s[1..][i + 1..]
  {
    assert s[1..] == s[1..][..i] + [s[1..][i]] + s[1..][i + 1..];
  }

  /** A shaped text splits at the end of its type: the first `/` after the
      `@` is the one that follows the type. */
  lemma ShapedSplit(s: string, t: string, slug: string)
    requires Shaped(s, t, slug)
    ensures s != [] && s[0] == '@'
    ensures IndexOf(s[1..], '/') == Some(|t|)
    ensures s[1..][..|t|] == t && s[1..][|t| + 1..] == slug
  {
    var body := s[1..];
    assert body == t + "/" + slug;
    assert body[|t|] == '/' && body[..|t|] == t;
  }

  /** A shaped text parses to its type and slug when the type is known,
      and fails with "unsupported type" otherwise. */
  lemma ParseShaped(raw: string, t: string, slug: string)
    requires Shaped(TrimSpace(raw), t, slug)
    ensures ParseRef(raw) == if KnownType(t) then Success(Ref(TrimSpace(raw), t, slug)) else Failure(UnsupportedType(t))
  {
    ShapedSplit(TrimSpace(raw), t, slug);
  }

  /** A text of no `@<type>/<slug>` shape is an invalid identifier. */
  lemma ParseUnshaped(raw: string)
    requires forall t, slug :: !Shaped(TrimSpace(raw), t, slug)
    ensures ParseRef(raw) == Failure(InvalidIdentifier(TrimSpace(raw)))
  {
    NoTypeSlashSlug(TrimSpace(raw));
  }

  /** A text of no shape fails one of `ParseRef`'s checks: a leading `@`,
      a `/` after it, a non-empty type before that `/` and a non-empty slug
      after it. */
  lemma NoTypeSlashSlug(s: string)
    requires forall t, slug :: !Shaped(s, t, slug)
    ensures s == [] || s[0] != '@' || IndexOf(s[1..], '/').None?
            || IndexOf(s[1..], '/').value == 0 || IndexOf(s[1..], '/').value + 1 == |s[1..]|
  {
    if s != [] && s[0] == '@' && IndexOf(s[1..], '/').Some? {
      var i := IndexOf(s[1..], '/').value;
      if 0 < i && i + 1 < |s[1..]| {
        FirstSlashShaped(s, i);
        assert false;
      }
    }
  }

  /** The outcome of `ParseRef` is decided by the shape of the trimmed text:
      a shaped text with a known type parses, a shaped text with another
      type is an unsupported type, and anything else is an invalid
      identifier. */
  lemma ParseRefOutcome(raw: string)
    ensures ParseRef(raw).Success? <==>
            exists t, slug :: Shaped(TrimSpace(raw), t, slug) && KnownType(t)
    ensures ParseRef(raw).Failure? && ParseRef(raw).error.UnsupportedType? <==>
            exists t, slug :: Shaped(TrimSpace(raw), t, slug) && !KnownType(t)
    ensures ParseRef(raw).Failure? && ParseRef(raw).error.InvalidIdentifier? <==>
            forall t, slug :: !Shaped(TrimSpace(raw), t, slug)
  {
    var s := TrimSpace(raw);
    if exists t, slug :: Shaped(s, t, slug) {
      var t, slug :| Shaped(s, t, slug);
      ParseShaped(raw, t, slug);
      forall t', slug' | Shaped(s, t', slug') ensures t' == t {
        ShapedSplit(s, t, slug);
        ShapedSplit(s, t', slug');
      }
    } else {
      ParseUnshaped(raw);
    }
  }

  /** A text that neither starts nor ends with white space is its own trim. */
  lemma TrimSpaceUnchanged(s: string)
    requires s != [] && !IsSpace(s[0]) && !IsSpace(s[|s| - 1])
    ensures TrimSpace(s) == s
  {
    assert TrimLeftSpace(s) == s;
  }

  /** Printing then parsing gives back the type and the slug, for a known
      type and a slug that does not end in white space. */
  lemma ParseNormalizeRoundTrip(t: string, slug: string)
    requires KnownType(t) && slug != [] && !IsSpace(slug[|slug| - 1])
    ensures ParseRef(NormalizeRef(t, slug)) == Success(Ref(NormalizeRef(t, slug), t, slug))
  {
    var s := NormalizeRef(t, slug);
    assert s[|s| - 1] == slug[|slug| - 1];
    TrimSpaceUnchanged(s);
    ShapedSplit(s, t, slug);
  }

  /** Parsing then printing gives back the trimmed text. */
  lemma NormalizeParseRoundTrip(raw: string)
    requires ParseRef(raw).Success?
    ensures NormalizeRef(ParseRef(raw).value.kind, ParseRef(raw).value.slug) == ParseRef(raw).value.raw
  {
  }

  /** internal/catalog/types_test.go: `@rule/react-best-coding` parses to
      type `rule` and slug `react-best-coding`. */
  lemma ParsesRuleRef(raw: string)
    requires raw == "@rule/react-best-coding"
    ensures ParseRef(raw).Success? && ParseRef(raw).value.kind == "rule"
    ensures ParseRef(raw).value.slug == "react-best-coding"
  {
    var slug := "react-best-coding";
    assert raw == NormalizeRef(TypeRule, slug);
    ParseNormalizeRoundTrip(TypeRule, slug);
  }

  /** internal/catalog/types_test.go: without the `@` the text is rejected. */
  lemma RejectsMissingAt(raw: string)
    requires raw == "rule/react-best-coding"
    ensures ParseRef(raw) == Failure(InvalidIdentifier(raw))
  {
    TrimSpaceUnchanged(raw);
  }
}
