/** The subcommand dispatcher of third_party/cobra/cobra.go: a tree of commands
    walked over a token vector.

    A `Command` is the tree as `AddCommand` builds it; its flag sets are
    objects that parsing updates in place. A `Node` is a value snapshot of a
    command and everything below it, and `Exec` says, on snapshots, what
    `execute` does: which help text it prints, which hooks and handlers it
    calls with which tokens, which error it returns and what the flag sets
    hold afterwards. The `Execute` method is proved to do exactly that.

    The hooks (`PersistentPreRunE`, `RunE`) are code this model cannot see:
    they are oracle functions of the command they run for and the tokens they
    receive, and every call is recorded in a trace, as is every help text
    printed. */
module Cobra {
  import opened Wrappers
  import opened GoStrings
  import opened Flags

  /** A command: `Use`, `Short`, which hooks are set, its children in
      registration order, its own flag set and its optional persistent one. */
  datatype Command = Command(
    use: string,
    short: string,
    hasRunE: bool,
    hasRun: bool,
    hasPreRun: bool,
    subcommands: seq<Command>,
    flags: FlagSet,
    persistentFlags: FlagSet?)

  /** A snapshot of a command with the current state of its flag sets. */
  datatype Node = Node(
    use: string,
    short: string,
    hasRunE: bool,
    hasRun: bool,
    hasPreRun: bool,
    children: seq<Node>,
    flags: FlagState,
    persistent: Option<FlagState>)

  /** Observable effects: a help text printed, or a hook called with tokens. */
  datatype Event =
    | Printed(text: string)
    | PreRunCalled(use: string, args: seq<string>)
    | RunECalled(use: string, args: seq<string>)
    | RunCalled(use: string, args: seq<string>)

  /** The errors `execute` returns: a flag-parse error, a missing required
      flag, "no command handler", or an error a hook returned. */
  datatype Error =
    | FlagError(parse: ParseError)
    | MissingFlags(names: seq<string>)
    | NoCommandHandler
    | HookError(message: string)

  /** The behaviour of the hooks: the error each returns (None for nil) when
      called for a command in a given state with given tokens. */
  datatype Oracle = Oracle(
    preRun: (Node, seq<string>) -> Option<string>,
    runE: (Node, seq<string>) -> Option<string>)

  datatype Outcome = Outcome(err: Option<Error>, trace: seq<Event>, node: Node)

  // ---------------------------------------------------------------------
  // The tree of commands and its snapshot
  // ---------------------------------------------------------------------

  /** Every flag set in the tree. */
  function Repr(c: Command): set<object>
    decreases c
  {
    {c.flags} + (if c.persistentFlags == null then {} else {c.persistentFlags}) + ReprList(c.subcommands)
  }

  function ReprList(cs: seq<Command>): (r: set<object>)
    ensures forall k :: 0 <= k < |cs| ==> Repr(cs[k]) <= r
    decreases cs
  {
    if cs == [] then {} else Repr(cs[0]) + ReprList(cs[1..])
  }

  /** Each command owns its flag sets (no two commands share one) and every
      child has a name (a first word in its `Use`), which `help` requires. */
  ghost predicate Valid(c: Command)
    decreases c
  {
    && c.persistentFlags != c.flags
    && c.flags !in ReprList(c.subcommands)
    && (c.persistentFlags != null ==> c.persistentFlags !in ReprList(c.subcommands))
    && (forall k :: 0 <= k < |c.subcommands| ==> FirstField(c.subcommands[k].use).Some?)
    && ValidList(c.subcommands)
  }

  ghost predicate ValidList(cs: seq<Command>)
    decreases cs
  {
    && (forall k :: 0 <= k < |cs| ==> Valid(cs[k]))
    && (forall i, j :: 0 <= i < j < |cs| ==> Repr(cs[i]) !! Repr(cs[j]))
  }

  function Abs(c: Command): (r: Node)
    reads Repr(c)
    ensures r.use == c.use && r.short == c.short
    decreases c
  {
    Node(c.use, c.short, c.hasRunE, c.hasRun, c.hasPreRun, AbsList(c.subcommands), c.flags.State(),
         if c.persistentFlags == null then None else Some(c.persistentFlags.State()))
  }

  function AbsList(cs: seq<Command>): (r: seq<Node>)
    reads ReprList(cs)
    ensures |r| == |cs|
    ensures forall k :: 0 <= k < |cs| ==> r[k] == Abs(cs[k])
    decreases cs
  {
    if cs == [] then [] else [Abs(cs[0])] + AbsList(cs[1..])
  }

  /** Two different children of a well-formed list share no flag set. */
  lemma ChildrenDisjoint(cs: seq<Command>, i: nat, j: nat)
    requires ValidList(cs) && i < |cs| && j < |cs| && i != j
    ensures Repr(cs[i]) !! Repr(cs[j])
  {
    if j < i {
      assert Repr(cs[j]) !! Repr(cs[i]);
    }
  }

  /** Two node lists that agree everywhere are equal. */
  lemma SameNodes(xs: seq<Node>, ys: seq<Node>)
    requires |xs| == |ys| && forall j :: 0 <= j < |xs| ==> xs[j] == ys[j]
    ensures xs == ys
  {
  }

  /** The flag sets of a tree are objects that exist. */
  lemma {:induction false} ReprAllocated(c: Command)
    ensures forall o :: o in Repr(c) ==> allocated(o)
    decreases c
  {
    ReprListAllocated(c.subcommands);
  }

  lemma {:induction false} ReprListAllocated(cs: seq<Command>)
    ensures forall o :: o in ReprList(cs) ==> allocated(o)
    decreases cs
  {
    if cs != [] {
      ReprAllocated(cs[0]);
      ReprListAllocated(cs[1..]);
    }
  }

  /** A command literal: no children, no persistent flag set, and an empty own
      flag set (created here, where `Flags()` would create it on first use). */
  method NewCommand(use: string, short: string, hasRunE: bool, hasRun: bool, hasPreRun: bool)
    returns (c: Command)
    ensures fresh(c.flags) && Valid(c)
    ensures c.use == use && c.short == short && c.subcommands == [] && c.persistentFlags == null
    ensures c.hasRunE == hasRunE && c.hasRun == hasRun && c.hasPreRun == hasPreRun
    ensures c.flags.name == use && c.flags.State() == FlagState([], {}, [])
  {
    var fs := new FlagSet(use);
    c := Command(use, short, hasRunE, hasRun, hasPreRun, [], fs, null);
  }

  /** `PersistentFlags()`: the persistent flag set, created on first use under
      the name `<Use>-persistent`. */
  method PersistentFlags(c: Command) returns (r: Command, fs: FlagSet)
    requires Valid(c)
    ensures Valid(r) && r.persistentFlags == fs
    ensures c.persistentFlags != null ==> r == c && fs == c.persistentFlags
    ensures c.persistentFlags == null ==>
              && fresh(fs) && fs.name == c.use + "-persistent" && fs.State() == FlagState([], {}, [])
              && r == c.(persistentFlags := fs)
  {
    if c.persistentFlags != null {
      return c, c.persistentFlags;
    }
    ReprListAllocated(c.subcommands);
    fs := new FlagSet(c.use + "-persistent");
    r := c.(persistentFlags := fs);
  }

  /** `MarkFlagRequired`: record the name in the own flag set's required set;
      the returned error is always nil. */
  method MarkFlagRequired(c: Command, n: string) returns (err: Option<string>)
    modifies c.flags
    ensures err.None?
    ensures c.flags.required == old(c.flags.required) + {n}
    ensures c.flags.formal == old(c.flags.formal) && c.flags.rest == old(c.flags.rest)
  {
    c.flags.MarkRequired(n);
    err := None;
  }

  /** `AddCommand`: append children in the order given. */
  function AddCommand(c: Command, cmds: seq<Command>): (r: Command)
    ensures |r.subcommands| == |c.subcommands| + |cmds|
    ensures r.subcommands[..|c.subcommands|] == c.subcommands && r.subcommands[|c.subcommands|..] == cmds
    ensures r.flags == c.flags && r.persistentFlags == c.persistentFlags && r.use == c.use
  {
    c.(subcommands := c.subcommands + cmds)
  }

  lemma {:induction false} ReprListAppend(a: seq<Command>, b: seq<Command>)
    ensures ReprList(a + b) == ReprList(a) + ReprList(b)
    decreases a
  {
    if a != [] {
      assert (a + b)[0] == a[0];
      assert (a + b)[1..] == a[1..] + b;
      ReprListAppend(a[1..], b);
      assert ReprList(a + b) == Repr(a[0]) + ReprList(a[1..] + b);
    } else {
      assert a + b == b;
    }
  }

  lemma ValidListAppend(a: seq<Command>, b: seq<Command>)
    requires ValidList(a) && ValidList(b) && ReprList(a) !! ReprList(b)
    ensures ValidList(a + b)
  {
    var ab := a + b;
    forall i, j | 0 <= i < j < |ab| ensures Repr(ab[i]) !! Repr(ab[j]) {
      if j >= |a| && i < |a| {
        assert ab[i] == a[i] && ab[j] == b[j - |a|];
      } else if i >= |a| {
        assert ab[i] == b[i - |a|] && ab[j] == b[j - |a|];
      }
    }
    forall k | 0 <= k < |ab| ensures Valid(ab[k]) {
      if k >= |a| { assert ab[k] == b[k - |a|]; }
    }
  }

  /** Adding well-formed children whose flag sets are their own keeps the tree
      well-formed, and keeps the existing children where they were. */
  lemma AddCommandValid(c: Command, cmds: seq<Command>)
    requires Valid(c) && ValidList(cmds)
    requires Repr(c) !! ReprList(cmds)
    requires forall k :: 0 <= k < |cmds| ==> FirstField(cmds[k].use).Some?
    ensures Valid(AddCommand(c, cmds))
    ensures Repr(AddCommand(c, cmds)) == Repr(c) + ReprList(cmds)
  {
    var r := AddCommand(c, cmds);
    ReprListAppend(c.subcommands, cmds);
    ValidListAppend(c.subcommands, cmds);
    assert forall k :: 0 <= k < |r.subcommands| ==> FirstField(r.subcommands[k].use).Some? by {
      forall k | 0 <= k < |r.subcommands| ensures FirstField(r.subcommands[k].use).Some? {
        if k >= |c.subcommands| { assert r.subcommands[k] == cmds[k - |c.subcommands|]; }
      }
    }
  }

  // ---------------------------------------------------------------------
  // Help
  // ---------------------------------------------------------------------

  predicate HelpToken(a: string) {
    a == "-h" || a == "--help" || a == "-help" || a == "help"
  }

  /** Some token, wherever it stands, asks for help. */
  predicate WantsHelp(args: seq<string>) {
    exists i :: 0 <= i < |args| && HelpToken(args[i])
  }

  /** `wantsHelp`: scan the tokens for a help token. */
  method ScanForHelp(args: seq<string>) returns (wants: bool)
    ensures wants == WantsHelp(args)
  {
    for i := 0 to |args|
      invariant forall j :: 0 <= j < i ==> !HelpToken(args[j])
    {
      if HelpToken(args[i]) {
        return true;
      }
    }
    return false;
  }

  /** The name a child is invoked by: the first word of its `Use`. */
  function Name(use: string): string {
    FirstField(use).GetOr("")
  }

  /** One "Available Commands" line: the name padded to 12 columns, then the
      short description. */
  function HelpLine(child: Node): (r: string)
    ensures |r| >= 3 + |Name(child.use)| + |child.short|
    ensures r[..2] == "  " && r[2..2 + |Name(child.use)|] == Name(child.use)
    ensures |Name(child.use)| <= 12 ==> |r| == 15 + |child.short| && r[15..] == child.short
    ensures |Name(child.use)| > 12 ==> r[2 + |Name(child.use)|..] == " " + child.short
    ensures forall i :: 2 + |Name(child.use)| <= i < |r| - |child.short| ==> r[i] == ' '
  {
    var padded := PadRight(Name(child.use), 12);
    assert ("  " + padded + " " + child.short)[2..2 + |Name(child.use)|] == padded[..|Name(child.use)|];
    "  " + padded + " " + child.short
  }

  function HelpLines(children: seq<Node>): (r: seq<string>)
    ensures |r| == |children| && forall k :: 0 <= k < |r| ==> r[k] == HelpLine(children[k])
  {
    if children == [] then [] else [HelpLine(children[0])] + HelpLines(children[1..])
  }

  /** The header lines of the help of a command with children. */
  function HelpHeader(use: string): seq<string> {
    ["Usage:", "  " + use, "", "Available Commands:"]
  }

  /** No line break inside a command's `Use` or inside a child's `Short`. */
  predicate OneLineTexts(n: Node) {
    '\n' !in n.use && forall k :: 0 <= k < |n.children| ==> '\n' !in n.children[k].short
  }

  /** `help`: the bare `Use` for a command without children; otherwise, line by
      line, a usage header of four lines followed by one line per child in
      registration order. */
  function Help(n: Node): (r: string)
    ensures n.children == [] ==> r == n.use
    ensures n.children != [] && OneLineTexts(n) ==> Split(r, '\n') == HelpHeader(n.use) + HelpLines(n.children)
  {
    if n.children == [] then n.use
    else
      var lines := HelpHeader(n.use) + HelpLines(n.children);
      if OneLineTexts(n) then
        forall i | 0 <= i < |lines|
          ensures '\n' !in lines[i]
        {
          if i >= 4 {
            HelpLineOneLine(n.children[i - 4]);
          } else if i == 1 {
            assert lines[1] == "  " + n.use;
          }
        }
        SplitJoin(lines, '\n');
        Join(lines, "\n")
      else Join(lines, "\n")
  }

  /** A help line breaks no line when the child's `Short` holds no line break. */
  lemma HelpLineOneLine(child: Node)
    requires '\n' !in child.short
    ensures '\n' !in HelpLine(child)
  {
    var name := Name(child.use);
    var padded := PadRight(name, 12);
    assert forall i :: 0 <= i < |name| ==> !IsSpace(name[i]);
    assert forall i :: 0 <= i < |padded| ==> padded[i] != '\n' by {
      forall i | 0 <= i < |padded|
        ensures padded[i] != '\n'
      {
        if i < |name| {
          assert padded[i] == name[i] && !IsSpace(name[i]);
        }
      }
    }
    var line := "  " + padded + " " + child.short;
    assert line == HelpLine(child);
    forall i | 0 <= i < |line|
      ensures line[i] != '\n'
    {
      if 2 <= i < 2 + |padded| {
        assert line[i] == padded[i - 2];
      } else if i >= 3 + |padded| {
        assert line[i] == child.short[i - 3 - |padded|];
      }
    }
  }

  // ---------------------------------------------------------------------
  // Choosing the child to descend into
  // ---------------------------------------------------------------------

  /** `strings.HasPrefix(a, "-")`. */
  predicate Dashed(a: string) {
    |a| > 0 && a[0] == '-'
  }

  /** The first child, in registration order, whose name is `arg`. */
  function ChildNamed(uses: seq<string>, arg: string): (r: Option<nat>)
    ensures r.None? <==> forall k :: 0 <= k < |uses| ==> FirstField(uses[k]) != Some(arg)
    ensures r.Some? ==> r.value < |uses| && FirstField(uses[r.value]) == Some(arg)
    ensures r.Some? ==> forall k :: 0 <= k < r.value ==> FirstField(uses[k]) != Some(arg)
  {
    if uses == [] then None
    else if FirstField(uses[0]) == Some(arg) then Some(0)
    else match ChildNamed(uses[1..], arg)
      case None => None
      case Some(k) => Some(k + 1)
  }

  /** A token that selects a child: it does not start with `-` and names one. */
  predicate Selects(uses: seq<string>, a: string) {
    !Dashed(a) && ChildNamed(uses, a).Some?
  }

  /** The leftmost token that selects a child, and that child. */
  function Descend(uses: seq<string>, args: seq<string>): (r: Option<(nat, nat)>)
    ensures r.None? <==> forall i :: 0 <= i < |args| ==> !Selects(uses, args[i])
    ensures r.Some? ==> var (idx, k) := r.value;
              && idx < |args| && Selects(uses, args[idx]) && ChildNamed(uses, args[idx]) == Some(k)
              && forall i :: 0 <= i < idx ==> !Selects(uses, args[i])
  {
    if args == [] then None
    else if Selects(uses, args[0]) then Some((0, ChildNamed(uses, args[0]).value))
    else
      assert forall i :: 1 <= i < |args| ==> args[i] == args[1..][i - 1];
      match Descend(uses, args[1..])
      case None => None
      case Some((idx, k)) =>
        assert forall i :: 0 <= i < idx + 1 ==> !Selects(uses, args[i]) by {
          forall i | 1 <= i < idx + 1
            ensures !Selects(uses, args[i])
          {
            assert args[i] == args[1..][i - 1];
          }
        }
        Some((idx + 1, k))
  }

  function Uses(ns: seq<Node>): (r: seq<string>)
    ensures |r| == |ns| && forall k :: 0 <= k < |ns| ==> r[k] == ns[k].use
  {
    seq(|ns|, k requires 0 <= k < |ns| => ns[k].use)
  }

  function CommandUses(cs: seq<Command>): (r: seq<string>)
    ensures |r| == |cs| && forall k :: 0 <= k < |cs| ==> r[k] == cs[k].use
  {
    seq(|cs|, k requires 0 <= k < |cs| => cs[k].use)
  }

  /** The first selecting token is the one `Descend` finds. */
  lemma DescendAt(uses: seq<string>, args: seq<string>, idx: nat)
    requires idx < |args| && Selects(uses, args[idx])
    requires forall i :: 0 <= i < idx ==> !Selects(uses, args[i])
    ensures Descend(uses, args) == Some((idx, ChildNamed(uses, args[idx]).value))
  {
    var r := Descend(uses, args);
    assert r.Some?;
    assert r.value.0 == idx;
  }

  /** The descent loop of `execute`: the outer loop over tokens, the inner one
      over children. */
  method FindSubcommand(subs: seq<Command>, args: seq<string>) returns (found: Option<(nat, nat)>)
    ensures found == Descend(CommandUses(subs), args)
  {
    var uses := CommandUses(subs);
    for idx := 0 to |args|
      invariant forall i :: 0 <= i < idx ==> !Selects(uses, args[i])
    {
      var arg := args[idx];
      if Dashed(arg) {
        continue;
      }
      var k := MatchChild(subs, arg);
      if k.Some? {
        DescendAt(uses, args, idx);
        return Some((idx, k.value));
      }
    }
    return None;
  }

  /** The inner loop of the descent: the first child whose name is `arg`. */
  method MatchChild(subs: seq<Command>, arg: string) returns (found: Option<nat>)
    ensures found == ChildNamed(CommandUses(subs), arg)
  {
    var uses := CommandUses(subs);
    for k := 0 to |subs|
      invariant forall j :: 0 <= j < k ==> FirstField(uses[j]) != Some(arg)
    {
      var name := FirstField(subs[k].use);
      if name.Some? && arg == name.value {
        return Some(k);
      }
    }
    return None;
  }

  // ---------------------------------------------------------------------
  // The specification of `execute`
  // ---------------------------------------------------------------------

  function Lift(e: Option<string>): Option<Error> {
    match e
    case None => None
    case Some(m) => Some(HookError(m))
  }

  /** Where a phase of `execute` left off: it returned, or it goes on with the
      command in a new state, the events so far and the leftover tokens. */
  datatype Phase = Halt(outcome: Outcome) | Proceed(node: Node, trace: seq<Event>, args: seq<string>)

  /** The persistent flags parsed over `tokens`, when at least one is
      declared; the command state afterwards and the parse error, if any. */
  function PersistentParse(n: Node, tokens: seq<string>): (r: (Node, Option<ParseError>))
    ensures r.0 == n.(persistent := r.0.persistent) && r.0.persistent.Some? == n.persistent.Some?
    ensures r.0.persistent.Some? ==> r.0.persistent.value.required == n.persistent.value.required
    ensures n.persistent.None? || n.persistent.value.formal == [] ==> r == (n, None)
  {
    if n.persistent.Some? && n.persistent.value.formal != [] then
      var parsed := ParseAll(n.persistent.value.formal, tokens);
      (n.(persistent := Some(FlagState(parsed.formal, n.persistent.value.required, parsed.rest))), parsed.err)
    else (n, None)
  }

  /** What follows the persistent parse (which left the command in state `n`
      with error `perr`): stop on a parse error (help on the help signal),
      pick the leftovers (`fallback` when there is no persistent set), then
      run `PersistentPreRunE`. */
  function AfterPersistent(n: Node, perr: Option<ParseError>, fallback: seq<string>, o: Oracle): (r: Phase)
    ensures r.Proceed? ==> perr.None? && r.node == n
    ensures r.Proceed? ==> r.trace == (if n.hasPreRun then [PreRunCalled(n.use, r.args)] else [])
    ensures r.Proceed? ==> r.args == if n.persistent.Some? then n.persistent.value.rest else fallback
    ensures r.Halt? ==> r.outcome.node == n
    ensures r.Halt? ==> forall e :: e in r.outcome.trace ==> e.Printed? || e.PreRunCalled?
    ensures perr.Some? ==> r.Halt? && r.outcome.trace == (if perr == Some(HelpRequested) then [Printed(Help(n))] else [])
  {
    if perr == Some(HelpRequested) then Halt(Outcome(None, [Printed(Help(n))], n))
    else if perr.Some? then Halt(Outcome(Some(FlagError(perr.value)), [], n))
    else
      var leftover := if n.persistent.Some? then n.persistent.value.rest else fallback;
      if !n.hasPreRun then Proceed(n, [], leftover)
      else match o.preRun(n, leftover)
        case Some(e) => Halt(Outcome(Some(HookError(e)), [PreRunCalled(n.use, leftover)], n))
        case None => Proceed(n, [PreRunCalled(n.use, leftover)], leftover)
  }

  /** The steps both paths of `execute` share: the persistent parse over
      `tokens`, then `AfterPersistent`. */
  function Prelude(n: Node, tokens: seq<string>, fallback: seq<string>, o: Oracle): (r: Phase)
    ensures r.Proceed? ==> r.node == n.(persistent := r.node.persistent) && r.node.persistent.Some? == n.persistent.Some?
    ensures r.Halt? ==> r.outcome.node == n.(persistent := r.outcome.node.persistent)
  {
    var (n1, perr) := PersistentParse(n, tokens);
    AfterPersistent(n1, perr, fallback, o)
  }

  /** The own flags parsed over the leftover tokens. */
  function OwnParse(n: Node, args: seq<string>): (r: (Node, Option<ParseError>))
    ensures r.0 == n.(flags := r.0.flags) && r.0.flags.required == n.flags.required
  {
    var parsed := ParseAll(n.flags.formal, args);
    (n.(flags := FlagState(parsed.formal, n.flags.required, parsed.rest)), parsed.err)
  }

  /** After the own flags were parsed, leaving the command in state `n` with
      error `err`: stop on a parse error (help on the help signal), check the
      required flags, then call `RunE`, else `Run`, else print help (with
      children) or fail with "no command handler". */
  function Dispatch(n: Node, trace: seq<Event>, err: Option<ParseError>, o: Oracle): (r: Outcome)
    ensures r.node == n
  {
    if err == Some(HelpRequested) then Outcome(None, trace + [Printed(Help(n))], n)
    else if err.Some? then Outcome(Some(FlagError(err.value)), trace, n)
    else
      var missing := MissingRequired(n.flags.formal, n.flags.required);
      if missing != [] then Outcome(Some(MissingFlags(missing)), trace, n)
      else if n.hasRunE then Outcome(Lift(o.runE(n, n.flags.rest)), trace + [RunECalled(n.use, n.flags.rest)], n)
      else if n.hasRun then Outcome(None, trace + [RunCalled(n.use, n.flags.rest)], n)
      else if n.children != [] then Outcome(None, trace + [Printed(Help(n))], n)
      else Outcome(Some(NoCommandHandler), trace, n)
  }

  /** The leaf path after the prelude: parse the own flags, then `Dispatch`. */
  function RunLeaf(n: Node, trace: seq<Event>, args: seq<string>, o: Oracle): (r: Outcome)
    ensures r.node == n.(flags := r.node.flags) && r.node.flags.required == n.flags.required
  {
    var (n2, err) := OwnParse(n, args);
    Dispatch(n2, trace, err, o)
  }

  /** `execute(args)` on a command in state `n`. */
  function Exec(n: Node, args: seq<string>, o: Oracle): (r: Outcome)
    ensures |r.node.children| == |n.children|
    decreases n, 1
  {
    if WantsHelp(args) then Outcome(None, [Printed(Help(n))], n)
    else match Descend(Uses(n.children), args)
      case Some((idx, k)) => ExecDescend(n, args, idx, k, o)
      case None => ExecLeaf(n, args, o)
  }

  /** The descent into child `k`, selected by the token at `idx`. */
  function ExecDescend(n: Node, args: seq<string>, idx: nat, k: nat, o: Oracle): (r: Outcome)
    requires idx < |args| && k < |n.children|
    ensures |r.node.children| == |n.children|
    decreases n, 0
  {
    match Prelude(n, args[..idx], [], o)
    case Halt(out) => out
    case Proceed(n1, t1, _) =>
      var sub := Exec(n.children[k], args[idx + 1..], o);
      Outcome(sub.err, t1 + sub.trace, n1.(children := n1.children[k := sub.node]))
  }

  /** The command itself as the leaf, with all of `args`. */
  function ExecLeaf(n: Node, args: seq<string>, o: Oracle): (r: Outcome)
    ensures |r.node.children| == |n.children|
  {
    match Prelude(n, args, args, o)
    case Halt(out) => out
    case Proceed(n1, t1, leftover) => RunLeaf(n1, t1, leftover, o)
  }

  // ---------------------------------------------------------------------
  // The imperative `execute`
  // ---------------------------------------------------------------------

  /** Parse the persistent flag set over `tokens` when one with at least one
      flag exists. */
  method ParsePersistent(c: Command, tokens: seq<string>) returns (perr: Option<ParseError>)
    requires Valid(c)
    modifies c.persistentFlags
    ensures PersistentParse(old(Abs(c)), tokens) == (Abs(c), perr)
  {
    ReprListAllocated(c.subcommands);
    ghost var n := Abs(c);
    perr := None;
    if c.persistentFlags != null {
      var has := c.persistentFlags.HasAny();
      if has {
        perr := c.persistentFlags.Parse(tokens);
      }
    }
    assert unchanged(ReprList(c.subcommands));
    assert AbsList(c.subcommands) == n.children;
  }

  /** The rest of the prelude on a command whose persistent flags were parsed. */
  method FinishPrelude(c: Command, perr: Option<ParseError>, fallback: seq<string>, o: Oracle)
    returns (halted: bool, err: Option<Error>, trace: seq<Event>, leftover: seq<string>)
    ensures var p := AfterPersistent(Abs(c), perr, fallback, o);
            && halted == p.Halt?
            && (p.Halt? ==> p.outcome == Outcome(err, trace, Abs(c)))
            && (p.Proceed? ==> p.trace == trace && p.args == leftover)
  {
    if perr == Some(HelpRequested) {
      return true, None, [Printed(Help(Abs(c)))], [];
    }
    if perr.Some? {
      return true, Some(FlagError(perr.value)), [], [];
    }
    leftover := fallback;
    if c.persistentFlags != null {
      leftover := c.persistentFlags.rest;
    }
    trace := [];
    if c.hasPreRun {
      trace := [PreRunCalled(c.use, leftover)];
      var e := o.preRun(Abs(c), leftover);
      if e.Some? {
        return true, Some(HookError(e.value)), trace, leftover;
      }
    }
    return false, None, trace, leftover;
  }

  /** Parse the own flag set over the leftover tokens. */
  method ParseOwn(c: Command, args: seq<string>) returns (perr: Option<ParseError>)
    requires Valid(c)
    modifies c.flags
    ensures OwnParse(old(Abs(c)), args) == (Abs(c), perr)
  {
    ReprListAllocated(c.subcommands);
    ghost var n := Abs(c);
    perr := c.flags.Parse(args);
    assert unchanged(ReprList(c.subcommands));
    assert AbsList(c.subcommands) == n.children;
  }

  /** The leaf's checks and handler call once its own flags are parsed. */
  method DispatchOn(c: Command, trace: seq<Event>, perr: Option<ParseError>, o: Oracle)
    returns (err: Option<Error>, events: seq<Event>)
    ensures Dispatch(Abs(c), trace, perr, o) == Outcome(err, events, Abs(c))
  {
    if perr == Some(HelpRequested) {
      return None, trace + [Printed(Help(Abs(c)))];
    }
    if perr.Some? {
      return Some(FlagError(perr.value)), trace;
    }
    var parsedArgs := c.flags.rest;
    var missing := c.flags.ValidateRequired();
    if missing.Some? {
      return Some(MissingFlags(missing.value)), trace;
    }
    if c.hasRunE {
      var e := o.runE(Abs(c), parsedArgs);
      return Lift(e), trace + [RunECalled(c.use, parsedArgs)];
    }
    if c.hasRun {
      return None, trace + [RunCalled(c.use, parsedArgs)];
    }
    if |c.subcommands| > 0 {
      return None, trace + [Printed(Help(Abs(c)))];
    }
    return Some(NoCommandHandler), trace;
  }

  /** The names `execute` matches tokens against are those of the snapshot. */
  lemma UsesOfAbs(c: Command)
    ensures CommandUses(c.subcommands) == Uses(Abs(c).children)
  {
    assert |AbsList(c.subcommands)| == |c.subcommands|;
  }

  /** `execute`: help, else descend into the selected child, else run as a leaf. */
  method Execute(c: Command, args: seq<string>, o: Oracle) returns (err: Option<Error>, trace: seq<Event>)
    requires Valid(c)
    modifies Repr(c)
    ensures Exec(old(Abs(c)), args, o) == Outcome(err, trace, Abs(c))
    decreases c, 3
  {
    ReprAllocated(c);
    UsesOfAbs(c);
    ghost var n := Abs(c);
    var wants := ScanForHelp(args);
    if wants {
      return None, [Printed(Help(Abs(c)))];
    }
    var found := FindSubcommand(c.subcommands, args);
    assert Abs(c) == n;
    if found.Some? {
      err, trace := ExecuteDescend(c, args, found.value.0, found.value.1, o);
    } else {
      err, trace := ExecuteLeaf(c, args, o);
    }
  }

  /** The prelude on the command's own persistent flag set. */
  method RunPrelude(c: Command, tokens: seq<string>, fallback: seq<string>, o: Oracle)
    returns (halted: bool, err: Option<Error>, trace: seq<Event>, leftover: seq<string>)
    requires Valid(c)
    modifies c.persistentFlags
    ensures var p := Prelude(old(Abs(c)), tokens, fallback, o);
            && halted == p.Halt?
            && (p.Halt? ==> p.outcome == Outcome(err, trace, Abs(c)))
            && (p.Proceed? ==> p.node == Abs(c) && p.trace == trace && p.args == leftover)
  {
    ReprAllocated(c);
    var perr := ParsePersistent(c, tokens);
    halted, err, trace, leftover := FinishPrelude(c, perr, fallback, o);
  }

  /** The leaf path of `execute`. */
  method ExecuteLeaf(c: Command, args: seq<string>, o: Oracle) returns (err: Option<Error>, trace: seq<Event>)
    requires Valid(c)
    modifies c.flags, c.persistentFlags
    ensures ExecLeaf(old(Abs(c)), args, o) == Outcome(err, trace, Abs(c))
  {
    ReprAllocated(c);
    var halted, leftover;
    halted, err, trace, leftover := RunPrelude(c, args, args, o);
    if halted {
      return;
    }
    err, trace := RunLeafOn(c, trace, leftover, o);
  }

  /** A leaf's own parse of what the prelude left, then its dispatch. */
  method RunLeafOn(c: Command, trace: seq<Event>, args: seq<string>, o: Oracle)
    returns (err: Option<Error>, events: seq<Event>)
    requires Valid(c)
    modifies c.flags
    ensures RunLeaf(old(Abs(c)), trace, args, o) == Outcome(err, events, Abs(c))
  {
    ReprAllocated(c);
    var perr := ParseOwn(c, args);
    err, events := DispatchOn(c, trace, perr, o);
  }

  /** The descent path of `execute` into child `k`, selected by `args[idx]`. */
  method ExecuteDescend(c: Command, args: seq<string>, idx: nat, k: nat, o: Oracle)
    returns (err: Option<Error>, trace: seq<Event>)
    requires Valid(c) && idx < |args| && k < |c.subcommands|
    modifies Repr(c)
    ensures ExecDescend(old(Abs(c)), args, idx, k, o) == Outcome(err, trace, Abs(c))
    decreases c, 2
  {
    ghost var n := Abs(c);
    var halted, leftover;
    halted, err, trace, leftover := RunPrelude(c, args[..idx], [], o);
    if halted {
      return;
    }
    ghost var n1 := Abs(c);
    assert n1.children == n.children;
    var subErr, subTrace := ExecuteChild(c, k, args[idx + 1..], o);
    return subErr, trace + subTrace;
  }

  /** `execute` on child `k`: only that child's part of the tree changes. */
  method ExecuteChild(c: Command, k: nat, args: seq<string>, o: Oracle)
    returns (err: Option<Error>, trace: seq<Event>)
    requires Valid(c) && k < |c.subcommands|
    modifies Repr(c.subcommands[k])
    ensures var sub := Exec(old(Abs(c)).children[k], args, o);
            && sub.err == err && sub.trace == trace
            && Abs(c) == old(Abs(c)).(children := old(Abs(c)).children[k := sub.node])
    decreases c, 1
  {
    ReprListAllocated(c.subcommands);
    ghost var n := Abs(c);
    var sub := c.subcommands[k];
    assert Abs(sub) == n.children[k];
    assert c.flags !in Repr(sub) && (c.persistentFlags != null ==> c.persistentFlags !in Repr(sub));
    err, trace := Execute(sub, args, o);
    assert unchanged(c.flags) && (c.persistentFlags != null ==> unchanged(c.persistentFlags));
    ghost var now := AbsList(c.subcommands);
    ghost var want := n.children[k := Abs(sub)];
    forall j | 0 <= j < |c.subcommands|
      ensures now[j] == want[j]
    {
      if j != k {
        ChildrenDisjoint(c.subcommands, j, k);
      }
    }
    SameNodes(now, want);
  }
}
