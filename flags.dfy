/** The flag sets of the command dispatcher: cobra's `FlagSet` wrapper over the
    Go standard `flag.FlagSet` (third_party/cobra/cobra.go:165-236), with the
    token syntax of `flag.FlagSet.Parse` written out.

    A flag set keeps its declared flags sorted by name, which is the order in
    which `VisitAll` presents them. A flag's value lives in the set itself: it
    stands for the Go variable the flag was bound to, which parsing writes. */
module Flags {
  import opened Wrappers
  import opened GoStrings

  /** The four flag kinds the wrapper declares: `StringVar`, `BoolVar`,
      `IntVar` and `StringSliceVar` (a `flag.Func` flag over a string list). */
  datatype Value =
    | StringValue(s: string)
    | BoolValue(b: bool)
    | IntValue(i: int)
    | ListValue(items: seq<string>)

  datatype Kind = StringKind | BoolKind | IntKind | ListKind

  function KindOf(v: Value): Kind {
    match v
    case StringValue(_) => StringKind
    case BoolValue(_) => BoolKind
    case IntValue(_) => IntKind
    case ListValue(_) => ListKind
  }

  datatype Flag = Flag(name: string, value: Value)

  /** Errors of `flag.FlagSet.Parse`; `HelpRequested` is `flag.ErrHelp`. */
  datatype ParseError =
    | BadSyntax(token: string)
    | NotDefined(name: string)
    | HelpRequested
    | NeedsArgument(name: string)
    | InvalidValue(name: string, text: string)

  /** `flag.Value.String()`. The `flag.Func` value behind a string list always
      prints as the empty string. */
  function Text(v: Value): (r: string)
    ensures v.BoolValue? || v.IntValue? ==> r != []
    ensures v.ListValue? ==> r == []
    ensures v.StringValue? ==> r == v.s
  {
    match v
    case StringValue(s) => s
    case BoolValue(b) => if b then "true" else "false"
    case IntValue(i) => Itoa(i)
    case ListValue(_) => ""
  }

  /** `strconv.ParseBool`. */
  function ParseBool(s: string): Option<bool> {
    if s in {"1", "t", "T", "TRUE", "true", "True"} then Some(true)
    else if s in {"0", "f", "F", "FALSE", "false", "False"} then Some(false)
    else None
  }

  /** Decimal digits without a redundant leading zero: the subset of Go integer
      literal syntax this model accepts for int flags. */
  predicate PlainDecimal(digits: string) {
    AllDigits(digits) && (|digits| == 1 || digits[0] != '0')
  }

  /** An optional sign, then plain decimal digits. */
  predicate IntSyntax(s: string) {
    PlainDecimal(if s != [] && (s[0] == '+' || s[0] == '-') then s[1..] else s)
  }

  /** `strconv.ParseInt(s, 0, 64)` restricted to plain decimal: the value it
      stores (0 on a syntax error, the nearest bound when out of range) and
      whether it succeeded. */
  function ParseInt(s: string): (r: (int, bool))
    ensures MinInt64 <= r.0 <= MaxInt64
    ensures r.1 ==> SignedDecimal(s) == Some(r.0)
    ensures !IntSyntax(s) ==> r == (0, false)
    ensures IntSyntax(s) ==> SignedDecimal(s).Some?
    ensures IntSyntax(s) && MinInt64 <= SignedDecimal(s).value <= MaxInt64 ==> r == (SignedDecimal(s).value, true)
    ensures IntSyntax(s) && SignedDecimal(s).value > MaxInt64 ==> r == (MaxInt64, false)
    ensures IntSyntax(s) && SignedDecimal(s).value < MinInt64 ==> r == (MinInt64, false)
  {
    var digits := if s != [] && (s[0] == '+' || s[0] == '-') then s[1..] else s;
    if !PlainDecimal(digits) then (0, false)
    else
      var v := SignedDecimal(s).value;
      if v > MaxInt64 then (MaxInt64, false)
      else if v < MinInt64 then (MinInt64, false)
      else (v, true)
  }

  /** The text an int flag prints is the text it accepts back, for every
      value an int flag can hold. */
  lemma {:induction false} ParseIntItoa(n: int)
    requires MinInt64 <= n <= MaxInt64
    ensures ParseInt(Itoa(n)) == (n, true)
  {
    var t := Itoa(n);
    if n < 0 {
      assert t[1..] == NatToString(-n);
    } else {
      assert t == NatToString(n);
      assert t[0] != '+' && t[0] != '-' by { assert IsDigit(t[0]); }
    }
    assert IntSyntax(t);
  }

  /** The value a string-list flag holds after being set to `text`: nil for the
      empty text, otherwise the comma-separated pieces (cobra.go:193-200). */
  function ListOf(text: string): (r: seq<string>)
    ensures text == [] ==> r == []
    ensures text != [] ==> Join(r, ",") == text && forall i :: 0 <= i < |r| ==> ',' !in r[i]
  {
    if text == "" then [] else Split(text, ',')
  }

  datatype Conversion = Conversion(value: Value, ok: bool)

  /** `flag.Value.Set(text)`: the new value and whether the text was accepted.
      Go's bool and int values store a value even when they reject the text. */
  function Set(v: Value, text: string): (r: Conversion)
    ensures KindOf(r.value) == KindOf(v)
    ensures !v.BoolValue? && !v.IntValue? ==> r.ok
    ensures v.StringValue? ==> r == Conversion(StringValue(text), true)
    ensures v.BoolValue? ==> r == Conversion(BoolValue(ParseBool(text) == Some(true)), ParseBool(text).Some?)
    ensures v.IntValue? ==> r == Conversion(IntValue(ParseInt(text).0), ParseInt(text).1)
    ensures v.ListValue? ==> r == Conversion(ListValue(ListOf(text)), true)
  {
    match v
    case StringValue(_) => Conversion(StringValue(text), true)
    case BoolValue(_) =>
      (match ParseBool(text)
       case Some(b) => Conversion(BoolValue(b), true)
       case None => Conversion(BoolValue(false), false))
    case IntValue(_) =>
      var (n, ok) := ParseInt(text);
      Conversion(IntValue(n), ok)
    case ListValue(_) => Conversion(ListValue(ListOf(text)), true)
  }

  // ---------------------------------------------------------------------
  // Names, their order, and the sorted list of declared flags
  // ---------------------------------------------------------------------

  /** The declared flags in strictly increasing name order. */
  predicate SortedByName(formal: seq<Flag>) {
    forall i, j :: 0 <= i < j < |formal| ==> Less(formal[i].name, formal[j].name)
  }

  /** Same names and kinds, position by position: parsing changes values only. */
  predicate SameShape(a: seq<Flag>, b: seq<Flag>) {
    |a| == |b| &&
    forall i :: 0 <= i < |a| ==> a[i].name == b[i].name && KindOf(a[i].value) == KindOf(b[i].value)
  }

  /** The position of the flag called `name` (a lookup in `flag.FlagSet.formal`). */
  function Lookup(formal: seq<Flag>, name: string): (r: Option<nat>)
    ensures r.None? <==> forall i :: 0 <= i < |formal| ==> formal[i].name != name
    ensures r.Some? ==> r.value < |formal| && formal[r.value].name == name
    ensures r.Some? ==> forall i :: 0 <= i < r.value ==> formal[i].name != name
  {
    if formal == [] then None
    else if formal[0].name == name then Some(0)
    else match Lookup(formal[1..], name)
      case None => None
      case Some(i) => Some(i + 1)
  }

  lemma {:induction false} LookupSameShape(a: seq<Flag>, b: seq<Flag>, name: string)
    requires SameShape(a, b)
    ensures Lookup(a, name) == Lookup(b, name)
  {
    if a != [] {
      assert a[0].name == b[0].name;
      assert SameShape(a[1..], b[1..]) by {
        forall j | 0 <= j < |a| - 1
          ensures a[1..][j].name == b[1..][j].name && KindOf(a[1..][j].value) == KindOf(b[1..][j].value)
        {
          assert a[1..][j] == a[j + 1] && b[1..][j] == b[j + 1];
        }
      }
      LookupSameShape(a[1..], b[1..], name);
    }
  }

  /** A name `flag.FlagSet.Var` accepts: it panics on one that begins with `-`
      or contains `=`. */
  predicate DeclarableName(name: string) {
    (name == [] || name[0] != '-') && '=' !in name
  }

  /** A name below the first of a sorted list is below all of it. */
  lemma BelowAll(x: string, formal: seq<Flag>)
    requires SortedByName(formal) && formal != [] && Less(x, formal[0].name)
    ensures forall j :: 0 <= j < |formal| ==> Less(x, formal[j].name)
  {
    forall j | 0 < j < |formal| ensures Less(x, formal[j].name) {
      LessTransitive(x, formal[0].name, formal[j].name);
    }
  }

  /** The head of a sorted list is below every flag of `tail`, when those are
      the rest of the list and one flag `f` above the head. */
  lemma HeadBelowTail(formal: seq<Flag>, f: Flag, tail: seq<Flag>)
    requires SortedByName(formal) && formal != [] && Less(formal[0].name, f.name)
    requires forall g :: g in tail <==> g in formal[1..] || g == f
    ensures forall j :: 0 <= j < |tail| ==> Less(formal[0].name, tail[j].name)
  {
    forall j | 0 <= j < |tail| ensures Less(formal[0].name, tail[j].name) {
      assert tail[j] in tail;
      if tail[j] != f {
        var k :| 0 <= k < |formal[1..]| && formal[1..][k] == tail[j];
        assert Less(formal[0].name, formal[k + 1].name);
      }
    }
  }

  /** The declared flags after declaring `f`, still in name order. */
  function Declare(formal: seq<Flag>, f: Flag): (r: seq<Flag>)
    requires SortedByName(formal)
    requires Lookup(formal, f.name).None?
    ensures SortedByName(r)
    ensures multiset(r) == multiset(formal) + multiset{f}
    ensures forall g :: g in r <==> g in formal || g == f
  {
    if formal == [] then [f]
    else if Less(f.name, formal[0].name) then
      BelowAll(f.name, formal);
      [f] + formal
    else
      LessTotal(f.name, formal[0].name);
      var tail := Declare(formal[1..], f);
      assert formal == [formal[0]] + formal[1..];
      HeadBelowTail(formal, f, tail);
      [formal[0]] + tail
  }

  // ---------------------------------------------------------------------
  // Parsing: one step of `flag.FlagSet.parseOne`, and the whole `Parse`
  // ---------------------------------------------------------------------

  /** What one call of `parseOne` did: bound one flag (`seen`), stopped flag
      parsing, or failed. `rest` is the remaining token vector `f.args`. */
  datatype Step =
    | Continue(formal: seq<Flag>, rest: seq<string>)
    | Stop(rest: seq<string>)
    | Fail(err: ParseError, formal: seq<Flag>, rest: seq<string>)

  /** Split `name=value` at the first `=`; an `=` at the very start is not
      looked at (the caller rejects it as bad syntax). */
  function SplitAssignment(name: string): (r: (string, bool, string))
    requires name != []
    ensures r.0 != [] && r.0[0] == name[0] && '=' !in r.0[1..]
    ensures r.1 ==> name == r.0 + "=" + r.2
    ensures !r.1 ==> r.0 == name && r.2 == ""
  {
    match IndexOf(name[1..], '=')
    case None => (name, false, "")
    case Some(k) =>
      assert name == name[..k + 1] + "=" + name[k + 2..];
      assert name[..k + 1][1..] == name[1..][..k];
      (name[..k + 1], true, name[k + 2..])
  }

  /** Give flag `i` the text `text`, then continue with `rest`. */
  function Assign(formal: seq<Flag>, i: nat, text: string, rest: seq<string>): (r: Step)
    requires i < |formal|
    ensures r.Continue? || r.Fail?
    ensures SameShape(formal, r.formal) && r.rest == rest
    ensures r.formal == formal[i := formal[i].(value := Set(formal[i].value, text).value)]
    ensures r.Continue? <==> Set(formal[i].value, text).ok
    ensures r.Fail? ==> r.err == InvalidValue(formal[i].name, text)
  {
    var c := Set(formal[i].value, text);
    var updated := formal[i := formal[i].(value := c.value)];
    if c.ok then Continue(updated, rest) else Fail(InvalidValue(formal[i].name, text), updated, rest)
  }

  /** One call of `flag.FlagSet.parseOne` on the remaining tokens `args`. */
  function ParseStep(formal: seq<Flag>, args: seq<string>): (r: Step)
    ensures r.Continue? ==> |r.rest| < |args|
    ensures |r.rest| <= |args| && r.rest == args[|args| - |r.rest|..]
    ensures !r.Stop? ==> SameShape(formal, r.formal)
    ensures r.Stop? ==> r.rest == [] || Positional(r.rest[0]) || (args[0] == "--" && r.rest == args[1..])
  {
    if args == [] then Stop([])
    else
      var s := args[0];
      if |s| < 2 || s[0] != '-' then Stop(args)
      else if s == "--" then Stop(args[1..])
      else
        var name := if s[1] == '-' then s[2..] else s[1..];
        if name == [] || name[0] == '-' || name[0] == '=' then Fail(BadSyntax(s), formal, args)
        else
          var (n, hasValue, value) := SplitAssignment(name);
          var tail := args[1..];
          match Lookup(formal, n)
          case None =>
            if n == "help" || n == "h" then Fail(HelpRequested, formal, tail)
            else Fail(NotDefined(n), formal, tail)
          case Some(i) =>
            if formal[i].value.BoolValue? then Assign(formal, i, if hasValue then value else "true", tail)
            else if hasValue then Assign(formal, i, value, tail)
            else if tail == [] then Fail(NeedsArgument(n), formal, tail)
            else Assign(formal, i, tail[0], tail[1..])
  }

  /** The declared flags with the values they ended up with, the tokens left
      over (`fs.Args()`), and the error, if any, of `flag.FlagSet.Parse`. */
  datatype ParseResult = ParseResult(formal: seq<Flag>, rest: seq<string>, err: Option<ParseError>)

  /** `flag.FlagSet.Parse(args)` with `ContinueOnError`: call `parseOne` until
      it stops or fails. The leftover tokens are always a suffix of `args`,
      and a parse without error ends at the end of the tokens, at a positional
      token, or just after a `--`. */
  function ParseAll(formal: seq<Flag>, args: seq<string>): (r: ParseResult)
    ensures SameShape(formal, r.formal)
    ensures |r.rest| <= |args| && r.rest == args[|args| - |r.rest|..]
    ensures r.err.None? ==>
              r.rest == [] || Positional(r.rest[0]) || (|r.rest| < |args| && args[|args| - |r.rest| - 1] == "--")
    decreases |args|
  {
    match ParseStep(formal, args)
    case Stop(rest) => ParseResult(formal, rest, None)
    case Fail(e, f, rest) => ParseResult(f, rest, Some(e))
    case Continue(f, rest) => ParseAll(f, rest)
  }

  lemma SameShapeSorted(a: seq<Flag>, b: seq<Flag>)
    requires SortedByName(a) && SameShape(a, b)
    ensures SortedByName(b)
  {
    forall i, j | 0 <= i < j < |b| ensures Less(b[i].name, b[j].name) {
      assert a[i].name == b[i].name && a[j].name == b[j].name;
    }
  }

  /** The names of the required, declared flags whose text is empty, in the
      order `VisitAll` visits them. */
  function MissingRequired(formal: seq<Flag>, required: set<string>): seq<string> {
    if formal == [] then []
    else
      var last := formal[|formal| - 1];
      MissingRequired(formal[..|formal| - 1], required)
        + (if last.name in required && Text(last.value) == "" then [last.name] else [])
  }

  /** The message of the error `validateRequired` returns (cobra.go:224-226). */
  function MissingMessage(names: seq<string>): string {
    "missing required flags: " + Join(names, ", ")
  }

  /** The snapshot of a flag set the dispatcher's specification works on. */
  datatype FlagState = FlagState(formal: seq<Flag>, required: set<string>, rest: seq<string>)

  /** cobra's `FlagSet`: the Go flag set (its declared flags and the tokens
      left after the last parse) plus the set of required names. */
  class FlagSet {
    const name: string
    var formal: seq<Flag>
    var required: set<string>
    var rest: seq<string>

    ghost predicate Valid()
      reads this
    {
      SortedByName(formal)
    }

    function State(): FlagState
      reads this
    {
      FlagState(formal, required, rest)
    }

    /** `newFlagSet(name)`: nothing declared, nothing required, and `Args()`
        empty until the first parse. */
    constructor (name: string)
      ensures Valid()
      ensures this.name == name && formal == [] && required == {} && rest == []
    {
      this.name := name;
      formal := [];
      required := {};
      rest := [];
    }

    method StringVar(n: string, default: string)
      requires Valid() && DeclarableName(n) && Lookup(formal, n).None?
      modifies this
      ensures Valid()
      ensures formal == Declare(old(formal), Flag(n, StringValue(default)))
      ensures required == old(required) && rest == old(rest)
    {
      formal := Declare(formal, Flag(n, StringValue(default)));
    }

    method BoolVar(n: string, default: bool)
      requires Valid() && DeclarableName(n) && Lookup(formal, n).None?
      modifies this
      ensures Valid()
      ensures formal == Declare(old(formal), Flag(n, BoolValue(default)))
      ensures required == old(required) && rest == old(rest)
    {
      formal := Declare(formal, Flag(n, BoolValue(default)));
    }

    method IntVar(n: string, default: int)
      requires Valid() && DeclarableName(n) && Lookup(formal, n).None?
      modifies this
      ensures Valid()
      ensures formal == Declare(old(formal), Flag(n, IntValue(default)))
      ensures required == old(required) && rest == old(rest)
    {
      formal := Declare(formal, Flag(n, IntValue(default)));
    }

    /** `StringSliceVar`: a `flag.Func` flag; a default that joins to a
        non-empty text is set through the flag at once, so the bound list
        starts as the comma-split of that text (the bound Go variable is taken
        to start out nil). */
    method StringSliceVar(n: string, default: seq<string>)
      requires Valid() && DeclarableName(n) && Lookup(formal, n).None?
      modifies this
      ensures Valid()
      ensures var joined := Join(default, ",");
              formal == Declare(old(formal), Flag(n, ListValue(if joined != "" then Split(joined, ',') else [])))
      ensures required == old(required) && rest == old(rest)
    {
      var joined := "";
      if |default| > 0 {
        joined := Join(default, ",");
      }
      var initial: seq<string> := [];
      if joined != "" {
        initial := ListOf(joined);
      }
      formal := Declare(formal, Flag(n, ListValue(initial)));
    }

    /** `MarkFlagRequired` records the name whether or not it is declared. */
    method MarkRequired(n: string)
      modifies this
      ensures required == old(required) + {n}
      ensures formal == old(formal) && rest == old(rest)
    {
      required := required + {n};
    }

    /** Store the text `text` into flag `i` through its `Set`. */
    method Bind(i: nat, text: string) returns (ok: bool)
      requires i < |formal|
      modifies this
      ensures required == old(required) && rest == old(rest)
      ensures var c := Set(old(formal)[i].value, text);
              ok == c.ok && formal == old(formal)[i := old(formal)[i].(value := c.value)]
    {
      var c := Set(formal[i].value, text);
      formal := formal[i := formal[i].(value := c.value)];
      ok := c.ok;
    }

    /** One call of `parseOne`: `seen` when a flag was bound. */
    method ParseOne() returns (seen: bool, err: Option<ParseError>)
      modifies this
      ensures required == old(required)
      ensures var step := ParseStep(old(formal), old(rest));
              && seen == step.Continue?
              && err == (if step.Fail? then Some(step.err) else None)
              && rest == step.rest
              && formal == (if step.Stop? then old(formal) else step.formal)
    {
      if |rest| == 0 {
        return false, None;
      }
      var s := rest[0];
      if |s| < 2 || s[0] != '-' {
        return false, None;
      }
      var numMinuses := 1;
      if s[1] == '-' {
        numMinuses := 2;
        if |s| == 2 {
          rest := rest[1..];
          return false, None;
        }
      }
      var name := s[numMinuses..];
      if |name| == 0 || name[0] == '-' || name[0] == '=' {
        return false, Some(BadSyntax(s));
      }
      rest := rest[1..];
      var flagName, hasValue, value := SplitAtEquals(name);
      var found := Lookup(formal, flagName);
      if found.None? {
        if flagName == "help" || flagName == "h" {
          return false, Some(HelpRequested);
        }
        return false, Some(NotDefined(flagName));
      }
      var i := found.value;
      if !formal[i].value.BoolValue? && !hasValue {
        if |rest| == 0 {
          return false, Some(NeedsArgument(flagName));
        }
        hasValue := true;
        value, rest := rest[0], rest[1..];
      }
      var text := if hasValue then value else "true";
      var ok := Bind(i, text);
      if !ok {
        return false, Some(InvalidValue(flagName, text));
      }
      return true, None;
    }

    /** `flag.FlagSet.Parse`: parse flags until the first non-flag token, a
        `--`, the end of the tokens, or an error. */
    method Parse(args: seq<string>) returns (err: Option<ParseError>)
      modifies this
      ensures required == old(required)
      ensures ParseResult(formal, rest, err) == ParseAll(old(formal), args)
      ensures old(Valid()) ==> Valid()
    {
      rest := args;
      while true
        invariant required == old(required)
        invariant ParseAll(formal, rest) == ParseAll(old(formal), args)
        decreases |rest|
      {
        var seen;
        seen, err := ParseOne();
        if !seen {
          if old(Valid()) {
            SameShapeSorted(old(formal), formal);
          }
          return;
        }
      }
    }

    /** `validateRequired`: visit the flags in name order and collect every
        required one whose text is empty. */
    method ValidateRequired() returns (err: Option<seq<string>>)
      ensures err.Some? <==> MissingRequired(formal, required) != []
      ensures err.Some? ==> err.value == MissingRequired(formal, required)
    {
      var missing: seq<string> := [];
      for i := 0 to |formal|
        invariant missing == MissingRequired(formal[..i], required)
      {
        assert formal[..i + 1][..i] == formal[..i];
        if formal[i].name in required && Text(formal[i].value) == "" {
          missing := missing + [formal[i].name];
        }
      }
      assert formal[..|formal|] == formal;
      if |missing| > 0 {
        return Some(missing);
      }
      return None;
    }

    /** `hasAny`: whether `VisitAll` visits at least one flag. */
    method HasAny() returns (has: bool)
      ensures has <==> formal != []
    {
      has := false;
      for i := 0 to |formal|
        invariant has <==> i > 0
      {
        has := true;
      }
    }
  }

  /** The scan of `parseOne` for the first `=` after the first character of
      a flag name. */
  method SplitAtEquals(name: string) returns (n: string, hasValue: bool, value: string)
    requires name != []
    ensures (n, hasValue, value) == SplitAssignment(name)
  {
    n, hasValue, value := name, false, "";
    var k := 1;
    while k < |name|
      invariant 1 <= k <= |name|
      invariant '=' !in name[1..k]
    {
      if name[k] == '=' {
        assert name[1..][..k - 1] == name[1..k];
        return name[..k], true, name[k + 1..];
      }
      assert name[1..k + 1] == name[1..k] + [name[k]];
      k := k + 1;
    }
    assert name[1..] == name[1..k];
  }

  /** A name is reported missing exactly when some declared flag of that name
      is required and prints as the empty string. */
  lemma {:induction false} MissingRequiredMembers(formal: seq<Flag>, required: set<string>, n: string)
    ensures n in MissingRequired(formal, required) <==>
            exists i :: 0 <= i < |formal| && formal[i].name == n && n in required && Text(formal[i].value) == ""
    ensures MissingRequired(formal, required) == [] <==>
            forall i :: 0 <= i < |formal| ==> !(formal[i].name in required && Text(formal[i].value) == "")
    decreases |formal|
  {
    if formal != [] {
      var init := formal[..|formal| - 1];
      MissingRequiredMembers(init, required, n);
      assert forall i :: 0 <= i < |init| ==> init[i] == formal[i];
    }
  }

  // ---------------------------------------------------------------------
  // What parsing does with each kind of token
  // ---------------------------------------------------------------------

  /** A flag name as written after its dashes: non-empty, not starting with
      `-` and free of `=`. */
  predicate PlainName(n: string) {
    n != [] && n[0] != '-' && '=' !in n
  }

  /** `-` or `--`: both spellings introduce a flag. */
  predicate Dashes(d: string) {
    d == "-" || d == "--"
  }

  /** A token that does not introduce a flag (a positional argument). */
  predicate Positional(token: string) {
    |token| < 2 || token[0] != '-'
  }

  lemma FlagToken(d: string, n: string)
    requires Dashes(d) && PlainName(n)
    ensures var s := d + n;
            |s| >= 2 && s[0] == '-' && s != "--" && (if s[1] == '-' then s[2..] else s[1..]) == n
    ensures SplitAssignment(n) == (n, false, "")
  {
    var s := d + n;
    if d == "-" { assert s[1] == n[0] && s[1..] == n; } else { assert s[2..] == n; }
  }

  /** `name=value` splits at the `=` after the name. */
  lemma SplitsAtEquals(n: string, v: string)
    requires PlainName(n)
    ensures SplitAssignment(n + "=" + v) == (n, true, v)
  {
    var name := n + "=" + v;
    assert name[1..] == n[1..] + "=" + v;
    assert IndexOf(name[1..], '=') == Some(|n| - 1) by {
      assert name[1..][|n| - 1] == '=';
      assert name[1..][..|n| - 1] == n[1..];
    }
    assert name[..|n|] == n && name[|n| + 1..] == v;
  }

  lemma AssignmentToken(d: string, n: string, v: string)
    requires Dashes(d) && PlainName(n)
    ensures var s := d + n + "=" + v;
            |s| >= 2 && s[0] == '-' && s != "--" && (if s[1] == '-' then s[2..] else s[1..]) == n + "=" + v
    ensures SplitAssignment(n + "=" + v) == (n, true, v)
  {
    var s := d + n + "=" + v;
    if d == "-" { assert s[1] == n[0] && s[1..] == n + "=" + v; } else { assert s[2..] == n + "=" + v; }
    SplitsAtEquals(n, v);
  }

  /** One step on a token already known to spell flag `n` without a value. */
  lemma PlainFlagStep(formal: seq<Flag>, s: string, n: string, tail: seq<string>)
    requires |s| >= 2 && s[0] == '-' && s != "--" && (if s[1] == '-' then s[2..] else s[1..]) == n
    requires PlainName(n) && SplitAssignment(n) == (n, false, "")
    ensures ParseStep(formal, [s] + tail)
            == match Lookup(formal, n)
               case None =>
                 if n == "help" || n == "h" then Fail(HelpRequested, formal, tail) else Fail(NotDefined(n), formal, tail)
               case Some(i) =>
                 if formal[i].value.BoolValue? then Assign(formal, i, "true", tail)
                 else if tail == [] then Fail(NeedsArgument(n), formal, tail)
                 else Assign(formal, i, tail[0], tail[1..])
  {
    var args := [s] + tail;
    assert args[0] == s && args[1..] == tail;
  }

  /** A bool flag written without `=value` is set to true and does not take
      the next token as its value. */
  lemma {:induction false} BoolFlagTakesNoArgument(formal: seq<Flag>, d: string, n: string, i: nat, tail: seq<string>)
    requires Dashes(d) && PlainName(n)
    requires Lookup(formal, n) == Some(i) && formal[i].value.BoolValue?
    ensures ParseStep(formal, [d + n] + tail) == Continue(formal[i := Flag(n, BoolValue(true))], tail)
  {
    FlagToken(d, n);
    PlainFlagStep(formal, d + n, n, tail);
  }

  /** A string, int or list flag written without `=value` takes the next token
      as its value, even one that looks like a flag; with no next token the
      parse fails. */
  lemma {:induction false} ValueFlagTakesNextToken(formal: seq<Flag>, d: string, n: string, i: nat, tail: seq<string>)
    requires Dashes(d) && PlainName(n)
    requires Lookup(formal, n) == Some(i) && !formal[i].value.BoolValue?
    ensures tail == [] ==> ParseStep(formal, [d + n]) == Fail(NeedsArgument(n), formal, [])
    ensures tail != [] ==> ParseStep(formal, [d + n] + tail) == Assign(formal, i, tail[0], tail[1..])
  {
    FlagToken(d, n);
    PlainFlagStep(formal, d + n, n, tail);
    assert tail == [] ==> [d + n] + tail == [d + n];
  }

  /** One step on a token already known to spell flag `n` with value `v`. */
  lemma AssignmentStep(formal: seq<Flag>, s: string, n: string, v: string, i: nat, tail: seq<string>)
    requires |s| >= 2 && s[0] == '-' && s != "--" && (if s[1] == '-' then s[2..] else s[1..]) == n + "=" + v
    requires PlainName(n) && SplitAssignment(n + "=" + v) == (n, true, v)
    requires Lookup(formal, n) == Some(i)
    ensures ParseStep(formal, [s] + tail) == Assign(formal, i, v, tail)
  {
    var args := [s] + tail;
    assert args[0] == s && args[1..] == tail;
    var name := if s[1] == '-' then s[2..] else s[1..];
    assert name != [] && name[0] == n[0] && name[0] != '=';
  }

  /** `name=value` binds `value` to the flag, whatever its kind. */
  lemma {:induction false} AssignmentBindsValue(formal: seq<Flag>, d: string, n: string, v: string, i: nat, tail: seq<string>)
    requires Dashes(d) && PlainName(n)
    requires Lookup(formal, n) == Some(i)
    ensures ParseStep(formal, [d + n + "=" + v] + tail) == Assign(formal, i, v, tail)
  {
    AssignmentToken(d, n, v);
    AssignmentStep(formal, d + n + "=" + v, n, v, i, tail);
  }

  /** An undeclared name fails the parse; `h` and `help` (when not declared)
      ask for help instead. Either way the token is consumed. */
  lemma {:induction false} UndeclaredFlag(formal: seq<Flag>, d: string, n: string, tail: seq<string>)
    requires Dashes(d) && PlainName(n)
    requires Lookup(formal, n).None?
    ensures n == "h" || n == "help" ==> ParseAll(formal, [d + n] + tail) == ParseResult(formal, tail, Some(HelpRequested))
    ensures n != "h" && n != "help" ==> ParseAll(formal, [d + n] + tail) == ParseResult(formal, tail, Some(NotDefined(n)))
  {
    FlagToken(d, n);
    PlainFlagStep(formal, d + n, n, tail);
  }

  /** A flag token whose name is empty or starts with `-` or `=` is a syntax
      error, and the token stays in the leftover tokens. */
  lemma {:induction false} BadFlagSyntax(formal: seq<Flag>, token: string, tail: seq<string>)
    requires |token| >= 2 && token[0] == '-' && token != "--"
    requires var name := if token[1] == '-' then token[2..] else token[1..];
             name == [] || name[0] == '-' || name[0] == '='
    ensures ParseAll(formal, [token] + tail) == ParseResult(formal, [token] + tail, Some(BadSyntax(token)))
  {
    var args := [token] + tail;
    assert args != [] && args[0] == token;
    assert ParseStep(formal, args) == Fail(BadSyntax(token), formal, args);
  }

  /** The first positional token ends flag parsing: it and everything after it
      are left over, so flags written after a positional are never bound. */
  lemma {:induction false} PositionalEndsParsing(formal: seq<Flag>, args: seq<string>)
    requires args != [] && Positional(args[0])
    ensures ParseAll(formal, args) == ParseResult(formal, args, None)
  {
  }

  /** `--` ends flag parsing and is itself dropped. */
  lemma {:induction false} TerminatorEndsParsing(formal: seq<Flag>, post: seq<string>)
    ensures ParseAll(formal, ["--"] + post) == ParseResult(formal, post, None)
  {
    assert (["--"] + post)[1..] == post;
  }

  /** `--n a` sets string flag `n` to `a`, and parsing goes on after `a`. */
  lemma {:induction false} StringFlagStep(formal: seq<Flag>, n: string, i: nat, a: string, rest: seq<string>)
    requires PlainName(n)
    requires Lookup(formal, n) == Some(i) && formal[i].value.StringValue?
    ensures ParseAll(formal, ["--" + n, a] + rest) == ParseAll(formal[i := Flag(n, StringValue(a))], rest)
  {
    var args := ["--" + n, a] + rest;
    assert args == ["--" + n] + ([a] + rest);
    ValueFlagTakesNextToken(formal, "--", n, i, [a] + rest);
    assert ([a] + rest)[0] == a && ([a] + rest)[1..] == rest;
  }

  /** No tokens: nothing is bound and nothing is left over. */
  lemma NoTokens(formal: seq<Flag>)
    ensures ParseAll(formal, []) == ParseResult(formal, [], None)
  {
  }

  /** The first of two `--n` string flags sets `n`, then parsing goes on. */
  lemma FirstOfRepeated(formal: seq<Flag>, n: string, i: nat, a: string, b: string)
    requires PlainName(n)
    requires Lookup(formal, n) == Some(i) && formal[i].value.StringValue?
    ensures ParseAll(formal, ["--" + n, a, "--" + n, b]) == ParseAll(formal[i := Flag(n, StringValue(a))], ["--" + n, b])
  {
    var second := ["--" + n, b];
    assert ["--" + n, a, "--" + n, b] == ["--" + n, a] + second;
    StringFlagStep(formal, n, i, a, second);
  }

  /** A last `--n b` sets `n` to `b` and ends the parse. */
  lemma LastStringFlag(formal: seq<Flag>, n: string, i: nat, b: string)
    requires PlainName(n)
    requires Lookup(formal, n) == Some(i) && formal[i].value.StringValue?
    ensures ParseAll(formal, ["--" + n, b]) == ParseResult(formal[i := Flag(n, StringValue(b))], [], None)
  {
    var second := ["--" + n, b];
    assert second == second + [];
    StringFlagStep(formal, n, i, b, []);
    NoTokens(formal[i := Flag(n, StringValue(b))]);
  }

  /** Giving a string flag a value leaves where it is found, and its kind. */
  lemma SetKeepsLookup(formal: seq<Flag>, n: string, i: nat, a: string)
    requires Lookup(formal, n) == Some(i) && formal[i].value.StringValue?
    ensures var f1 := formal[i := Flag(n, StringValue(a))];
            Lookup(f1, n) == Some(i) && f1[i].value.StringValue?
  {
    LookupSameShape(formal, formal[i := Flag(n, StringValue(a))], n);
  }

  /** A second update of a slot replaces the first. */
  lemma UpdateTwice(formal: seq<Flag>, i: nat, x: Flag, y: Flag)
    requires i < |formal|
    ensures formal[i := x][i := y] == formal[i := y]
  {
  }

  /** When a string flag is given twice, the later value wins. */
  lemma {:induction false} LaterValueWins(formal: seq<Flag>, n: string, i: nat, a: string, b: string)
    requires PlainName(n)
    requires Lookup(formal, n) == Some(i) && formal[i].value.StringValue?
    ensures ParseAll(formal, ["--" + n, a, "--" + n, b]) == ParseResult(formal[i := Flag(n, StringValue(b))], [], None)
  {
    FirstOfRepeated(formal, n, i, a, b);
    SetKeepsLookup(formal, n, i, a);
    LastStringFlag(formal[i := Flag(n, StringValue(a))], n, i, b);
    UpdateTwice(formal, i, Flag(n, StringValue(a)), Flag(n, StringValue(b)));
  }

  /** A string-list flag prints as the empty string, so once marked required
      it is reported missing whatever it was given. */
  lemma {:induction false} RequiredListAlwaysMissing(formal: seq<Flag>, required: set<string>, i: nat)
    requires i < |formal| && formal[i].value.ListValue? && formal[i].name in required
    ensures formal[i].name in MissingRequired(formal, required)
  {
    MissingRequiredMembers(formal, required, formal[i].name);
  }

  /** The missing names come out in the order `VisitAll` visits the flags:
      strictly increasing. */
  lemma {:induction false} MissingRequiredSorted(formal: seq<Flag>, required: set<string>)
    requires SortedByName(formal)
    ensures var m := MissingRequired(formal, required);
            forall i, j :: 0 <= i < j < |m| ==> Less(m[i], m[j])
    decreases |formal|
  {
    if formal != [] {
      var init := formal[..|formal| - 1];
      var last := formal[|formal| - 1];
      MissingRequiredSorted(init, required);
      var m0 := MissingRequired(init, required);
      forall k | 0 <= k < |m0| ensures Less(m0[k], last.name) {
        MissingRequiredMembers(init, required, m0[k]);
        var j :| 0 <= j < |init| && init[j].name == m0[k] && m0[k] in required && Text(init[j].value) == "";
        assert formal[j] == init[j];
      }
    }
  }
}
