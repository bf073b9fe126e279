/** The parts of Go's `strings` and `strconv` packages that the command-line
    code relies on, restricted to ASCII text: `unicode.IsSpace` is taken to be
    the six ASCII white-space characters and `strings.ToLower` folds only A-Z. */
module GoStrings {
  import opened Wrappers

  /** ASCII white space as `unicode.IsSpace` sees it: space, \t, \n, \v, \f, \r. */
  predicate IsSpace(c: char) {
    c == ' ' || c == '\t' || c == '\n' || c == '\U{000B}' || c == '\U{000C}' || c == '\r'
  }

  /** `strings.TrimLeft(s, " \t\n\v\f\r")`. */
  function TrimLeftSpace(s: string): (r: string)
    ensures |r| <= |s| && r == s[|s| - |r|..]
    ensures r == [] || !IsSpace(r[0])
    ensures forall i :: 0 <= i < |s| - |r| ==> IsSpace(s[i])
  {
    if s != [] && IsSpace(s[0]) then TrimLeftSpace(s[1..]) else s
  }

  /** `strings.TrimRight(s, " \t\n\v\f\r")`. */
  function TrimRightSpace(s: string): (r: string)
    ensures |r| <= |s| && r == s[..|r|]
    ensures r == [] || !IsSpace(r[|r| - 1])
    ensures forall i :: |r| <= i < |s| ==> IsSpace(s[i])
  {
    if s != [] && IsSpace(s[|s| - 1]) then TrimRightSpace(s[..|s| - 1]) else s
  }

  /** The number of white-space characters `s` opens with. */
  function LeadingSpace(s: string): (n: nat)
    ensures n <= |s| && forall i :: 0 <= i < n ==> IsSpace(s[i])
    ensures n < |s| ==> !IsSpace(s[n])
  {
    if s != [] && IsSpace(s[0]) then 1 + LeadingSpace(s[1..]) else 0
  }

  /** `TrimLeftSpace` drops exactly the leading white space. */
  lemma {:induction false} TrimLeftCount(s: string)
    ensures |s| - |TrimLeftSpace(s)| == LeadingSpace(s)
  {
    if s != [] && IsSpace(s[0]) {
      TrimLeftCount(s[1..]);
    }
  }

  /** `strings.TrimSpace`: drop leading and trailing white space. */
  function TrimSpace(s: string): (r: string)
    ensures r == [] || (!IsSpace(r[0]) && !IsSpace(r[|r| - 1]))
    ensures |r| <= |s|
  {
    TrimRightSpace(TrimLeftSpace(s))
  }

  /** What `TrimSpace` keeps: the infix of `s` after its leading white space,
      followed only by white space. */
  lemma TrimSpaceInfix(s: string)
    ensures var r := TrimSpace(s);
            var k := LeadingSpace(s);
            k + |r| <= |s| && r == s[k..k + |r|] && forall i :: k + |r| <= i < |s| ==> IsSpace(s[i])
  {
    TrimLeftCount(s);
    InfixBeforeSpace(s, TrimLeftSpace(s), TrimSpace(s), LeadingSpace(s));
  }

  lemma InfixBeforeSpace(s: string, l: string, r: string, k: nat)
    requires k <= |s| && l == s[k..] && |r| <= |l| && r == l[..|r|]
    requires forall i :: |r| <= i < |l| ==> IsSpace(l[i])
    ensures k + |r| <= |s| && r == s[k..k + |r|] && forall i :: k + |r| <= i < |s| ==> IsSpace(s[i])
  {
    forall i | k + |r| <= i < |s|
      ensures IsSpace(s[i])
    {
      assert s[i] == l[i - k];
    }
  }

  function LowerChar(c: char): char {
    if 'A' <= c <= 'Z' then (c as int + 32) as char else c
  }

  /** `strings.ToLower` on ASCII text. */
  function ToLower(s: string): (r: string)
    ensures |r| == |s|
    ensures forall i :: 0 <= i < |s| ==> r[i] == LowerChar(s[i])
  {
    if s == [] then [] else [LowerChar(s[0])] + ToLower(s[1..])
  }

  /** The index of the first occurrence of `c` in `s`, as `strings.IndexByte` finds it. */
  function IndexOf(s: string, c: char): (r: Option<nat>)
    ensures r.None? <==> c !in s
    ensures r.Some? ==> r.value < |s| && s[r.value] == c && c !in s[..r.value]
  {
    if s == [] then None
    else if s[0] == c then Some(0)
    else match IndexOf(s[1..], c)
      case None => None
      case Some(i) => assert s[1..][..i] == s[1..i + 1]; Some(i + 1)
  }

  /** `strings.Join(parts, sep)`. */
  function Join(parts: seq<string>, sep: string): string {
    if parts == [] then ""
    else if |parts| == 1 then parts[0]
    else parts[0] + sep + Join(parts[1..], sep)
  }

  /** `strings.Split(s, string(sep))`: the pieces between occurrences of `sep`. */
  function Split(s: string, sep: char): (r: seq<string>)
    ensures |r| >= 1
    ensures forall i :: 0 <= i < |r| ==> sep !in r[i]
    ensures Join(r, [sep]) == s
    decreases |s|
  {
    match IndexOf(s, sep)
    case None => [s]
    case Some(i) =>
      var tail := Split(s[i + 1..], sep);
      assert s == s[..i] + [sep] + s[i + 1..];
      [s[..i]] + tail
  }

  /** The first occurrence of `c` in `a + [c] + b` when `a` holds none. */
  lemma IndexOfAfter(a: string, b: string, c: char)
    requires c !in a
    ensures IndexOf(a + [c] + b, c) == Some(|a|)
  {
    var s := a + [c] + b;
    assert s[|a|] == c && s[..|a|] == a;
  }

  /** Splitting text that opens with a piece free of `c`, then `c`. */
  lemma SplitCons(a: string, b: string, c: char)
    requires c !in a
    ensures Split(a + [c] + b, c) == [a] + Split(b, c)
  {
    var s := a + [c] + b;
    IndexOfAfter(a, b, c);
    assert s[..|a|] == a && s[|a| + 1..] == b;
  }

  /** A trailing separator adds one empty piece. */
  lemma {:induction false} SplitSnoc(s: string, c: char)
    ensures Split(s + [c], c) == Split(s, c) + [""]
    decreases |s|
  {
    if c !in s {
      SplitNone(s, c);
      SplitNone([], c);
      assert s + [c] == s + [c] + [];
      SplitCons(s, [], c);
    } else {
      var i := IndexOf(s, c).value;
      var a, b := s[..i], s[i + 1..];
      assert s == a + [c] + b;
      calc {
        Split(s + [c], c);
        { assert s + [c] == a + [c] + (b + [c]); }
        Split(a + [c] + (b + [c]), c);
        { SplitCons(a, b + [c], c); }
        [a] + Split(b + [c], c);
        { SplitSnoc(b, c); }
        [a] + Split(b, c) + [""];
        { SplitCons(a, b, c); }
        Split(s, c) + [""];
      }
    }
  }

  /** Text without the separator is a single piece. */
  lemma SplitNone(s: string, c: char)
    requires c !in s
    ensures Split(s, c) == [s]
  {
    assert IndexOf(s, c).None?;
  }

  /** `strings.Split` undoes `strings.Join` when no piece holds the separator. */
  lemma {:induction false} SplitJoin(parts: seq<string>, c: char)
    requires |parts| >= 1 && forall i :: 0 <= i < |parts| ==> c !in parts[i]
    ensures Split(Join(parts, [c]), c) == parts
    decreases |parts|
  {
    if |parts| == 1 {
      assert Join(parts, [c]) == parts[0];
    } else {
      assert forall i :: 0 <= i < |parts[1..]| ==> parts[1..][i] == parts[i + 1];
      SplitCons(parts[0], Join(parts[1..], [c]), c);
      SplitJoin(parts[1..], c);
      assert [parts[0]] + parts[1..] == parts;
    }
  }

  lemma Reassociate(a: string, j: string, rest: string, sep: string)
    ensures a + sep + j + sep + rest == a + sep + (j + sep + rest)
  {
  }

  /** Splitting text that opens with whole pieces, each followed by `c`. */
  lemma {:induction false} SplitJoinThen(parts: seq<string>, rest: string, c: char)
    requires |parts| >= 1 && forall i :: 0 <= i < |parts| ==> c !in parts[i]
    ensures Split(Join(parts, [c]) + [c] + rest, c) == parts + Split(rest, c)
    decreases |parts|
  {
    if |parts| == 1 {
      assert Join(parts, [c]) == parts[0];
      SplitCons(parts[0], rest, c);
    } else {
      var j := Join(parts[1..], [c]);
      var after := Split(rest, c);
      calc {
        Split(Join(parts, [c]) + [c] + rest, c);
        { Reassociate(parts[0], j, rest, [c]); }
        Split(parts[0] + [c] + (j + [c] + rest), c);
        { SplitCons(parts[0], j + [c] + rest, c); }
        [parts[0]] + Split(j + [c] + rest, c);
        { SplitJoinThen(parts[1..], rest, c); }
        [parts[0]] + (parts[1..] + after);
        { ConsAppend(parts, after); }
        parts + after;
      }
    }
  }

  /** Whole pieces, then `rest` ended by `c`: the pieces, the pieces of
      `rest`, and the empty piece after the final `c`. */
  lemma SplitLinesThen(parts: seq<string>, rest: string, c: char)
    requires |parts| >= 1 && forall i :: 0 <= i < |parts| ==> c !in parts[i]
    ensures Split(Join(parts, [c]) + [c] + rest + [c], c) == parts + Split(rest, c) + [""]
  {
    var j := Join(parts, [c]);
    calc {
      Split(j + [c] + rest + [c], c);
      { assert j + [c] + rest + [c] == j + [c] + (rest + [c]); }
      Split(j + [c] + (rest + [c]), c);
      { SplitJoinThen(parts, rest + [c], c); }
      parts + Split(rest + [c], c);
      { SplitSnoc(rest, c); }
      parts + (Split(rest, c) + [""]);
    }
  }

  /** A join of several pieces opens with the first piece and the separator. */
  lemma JoinHead(parts: seq<string>, c: char)
    requires |parts| >= 2
    ensures parts[0] + [c] <= Join(parts, [c])
  {
    assert Join(parts, [c]) == parts[0] + [c] + Join(parts[1..], [c]);
  }

  lemma ConsAppend<T>(parts: seq<T>, after: seq<T>)
    requires parts != []
    ensures [parts[0]] + (parts[1..] + after) == parts + after
  {
    assert [parts[0]] + parts[1..] == parts;
  }

  /** The longest prefix of `s` that holds no white space. */
  function Word(s: string): (r: string)
    ensures r <= s
    ensures forall i :: 0 <= i < |r| ==> !IsSpace(r[i])
    ensures |r| == |s| || IsSpace(s[|r|])
  {
    if s == [] || IsSpace(s[0]) then [] else [s[0]] + Word(s[1..])
  }

  /** A prefix without white space that ends at white space or at the end
      of `s` is the first word of `s`. */
  lemma {:induction false} WordIs(s: string, w: string)
    requires w <= s && (forall i :: 0 <= i < |w| ==> !IsSpace(w[i]))
    requires |w| == |s| || IsSpace(s[|w|])
    ensures Word(s) == w
  {
    if w != [] {
      assert s[1..][..|w| - 1] == w[1..];
      WordIs(s[1..], w[1..]);
    }
  }

  /** `strings.Fields(s)[0]` when `s` has a field, and None when `strings.Fields(s)`
      is empty (all of `s` is white space): the word that starts at the first
      character that is not white space. */
  function FirstField(s: string): (r: Option<string>)
    ensures r.None? <==> forall i :: 0 <= i < |s| ==> IsSpace(s[i])
    ensures r.Some? ==> r.value != [] && forall i :: 0 <= i < |r.value| ==> !IsSpace(r.value[i])
  {
    if s == [] then None
    else if IsSpace(s[0]) then FirstField(s[1..])
    else Some(Word(s))
  }

  /** The first field is the word after the leading white space. */
  lemma {:induction false} FirstFieldIsWord(s: string)
    ensures FirstField(s).Some? ==> FirstField(s).value == Word(s[LeadingSpace(s)..])
  {
    if s != [] && IsSpace(s[0]) {
      FirstFieldIsWord(s[1..]);
      assert s[1..][LeadingSpace(s[1..])..] == s[LeadingSpace(s)..];
    }
  }

  /** The first field of a string that starts with the word `w`. */
  lemma FirstFieldIs(s: string, w: string)
    requires w != [] && w <= s && (forall i :: 0 <= i < |w| ==> !IsSpace(w[i]))
    requires |w| == |s| || IsSpace(s[|w|])
    ensures FirstField(s) == Some(w)
  {
    assert !IsSpace(w[0]);
    WordIs(s, w);
  }

  function DigitChar(d: nat): char
    requires d < 10
  {
    "0123456789"[d]
  }

  predicate IsDigit(c: char) {
    '0' <= c <= '9'
  }

  /** The value of a string of decimal digits (0 for the empty string). */
  function DigitsValue(s: string): (r: int)
    requires forall i :: 0 <= i < |s| ==> IsDigit(s[i])
    ensures r >= 0
  {
    if s == [] then 0
    else
      assert IsDigit(s[|s| - 1]);
      DigitsValue(s[..|s| - 1]) * 10 + (s[|s| - 1] as int - '0' as int)
  }

  predicate AllDigits(s: string) {
    s != [] && forall i :: 0 <= i < |s| ==> IsDigit(s[i])
  }

  /** Decimal digits of a natural number, most significant first, no leading
      zero; read back as a decimal they give `n`. */
  function NatToString(n: nat): (r: string)
    ensures AllDigits(r) && DigitsValue(r) == n
    ensures |r| > 1 ==> r[0] != '0'
  {
    if n < 10 then
      var r := [DigitChar(n)];
      assert r[..0] == [];
      r
    else
      var head := NatToString(n / 10);
      var r := head + [DigitChar(n % 10)];
      assert r[..|r| - 1] == head;
      r
  }

  /** `strconv.Itoa` (and `fmt`'s `%d`): read back as a signed decimal, the
      text gives `n`. */
  function Itoa(n: int): (r: string)
    ensures r != []
    ensures n < 0 <==> r[0] == '-'
    ensures SignedDecimal(r) == Some(n)
  {
    if n < 0 then
      var r := "-" + NatToString(-n);
      assert r[1..] == NatToString(-n);
      r
    else NatToString(n)
  }

  /** An optional sign followed by a non-empty run of decimal digits (leading
      zeros allowed), read as an unbounded integer; None for anything else. */
  function SignedDecimal(s: string): (r: Option<int>)
    ensures r.Some? ==> s != []
  {
    if s != [] && (s[0] == '+' || s[0] == '-') then
      var digits := s[1..];
      var magnitude: int := if AllDigits(digits) then DigitsValue(digits) else 0;
      if AllDigits(digits) then Some(if s[0] == '-' then -magnitude else magnitude)
      else None
    else if AllDigits(s) then Some(DigitsValue(s))
    else None
  }

  const MinInt64: int := -0x8000_0000_0000_0000
  const MaxInt64: int := 0x7fff_ffff_ffff_ffff

  /** `strconv.Atoi` on a 64-bit platform: decimal only, within the int64 range. */
  function Atoi(s: string): (r: Option<int>)
    ensures r.Some? ==> MinInt64 <= r.value <= MaxInt64
  {
    match SignedDecimal(s)
    case Some(v) => if MinInt64 <= v <= MaxInt64 then Some(v) else None
    case None => None
  }

  /** `fmt`'s `%-<width>s`: `s` followed by spaces up to `width` characters. */
  function PadRight(s: string, width: nat): (r: string)
    ensures s <= r
    ensures |r| == if |s| >= width then |s| else width
    ensures forall i :: |s| <= i < |r| ==> r[i] == ' '
    decreases width - |s|
  {
    if |s| >= width then s else PadRight(s + " ", width)
  }

  /** Go's `<` on strings: lexicographic, a proper prefix first. */
  predicate Less(a: string, b: string)
    decreases |a|
  {
    if a == [] then b != []
    else if b == [] then false
    else if a[0] == b[0] then Less(a[1..], b[1..])
    else a[0] < b[0]
  }

  lemma {:induction false} LessIrreflexive(a: string)
    ensures !Less(a, a)
    decreases |a|
  {
    if a != [] { LessIrreflexive(a[1..]); }
  }

  lemma {:induction false} LessTransitive(a: string, b: string, c: string)
    requires Less(a, b) && Less(b, c)
    ensures Less(a, c)
    decreases |a|
  {
    if a != [] && b != [] && c != [] && a[0] == b[0] && b[0] == c[0] {
      LessTransitive(a[1..], b[1..], c[1..]);
    }
  }

  lemma {:induction false} LessTotal(a: string, b: string)
    requires a != b
    ensures Less(a, b) || Less(b, a)
    decreases |a|
  {
    if a != [] && b != [] && a[0] == b[0] {
      assert a == [a[0]] + a[1..] && b == [b[0]] + b[1..];
      LessTotal(a[1..], b[1..]);
    }
  }
}
