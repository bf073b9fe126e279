/** What `execute` does on the token vectors of the tests
    third_party/cobra/cobra_test.go and cmd/add_arg_order_test.go, and on two
    vectors through a root with persistent flags. Each scenario uses a small
    command tree, as the tests do: the `add` command of cmd/add.go alone, or a
    root with the persistent flags of cmd/root.go and `add` as its only child. */
module CobraScenarios {
  import opened Wrappers
  import opened GoStrings
  import opened Flags
  import opened Cobra
  import opened CobraFacts

  function Str(n: string): Flag { Flag(n, StringValue("")) }
  function Bool(n: string): Flag { Flag(n, BoolValue(false)) }

  /** A command with a `RunE`, own flags `formal` and no children. */
  function Leaf(use: string, formal: seq<Flag>): Node {
    Node(use, "", true, false, false, [], FlagState(formal, {}, []), None)
  }

  /** The own flags of `add`, in name order: `--dry-run` and `--tool`. */
  const AddFlags: seq<Flag> := [Bool("dry-run"), Str("tool")]

  /** The persistent flags of the root, in name order. */
  const RootPersistent: seq<Flag> := [Str("base-url"), Str("config"), Bool("debug"), Bool("json"), Str("profile")]

  const AddUse: string := "add @rule/<slug>|@skill/<slug>"

  /** `codemint` with a `PersistentPreRunE`, no handler of its own, and `add`. */
  function MiniRoot(): Node {
    Node("codemint", "CodeMint CLI", false, false, true, [Leaf(AddUse, AddFlags)],
      FlagState([], {}, []), Some(FlagState(RootPersistent, {}, [])))
  }

  /** A hook that never fails. */
  ghost predicate Accepting(o: Oracle) {
    forall m, a :: o.preRun(m, a).None?
  }

  /** The first test: `add @rule/safe-api-route-pattern --tool cursor --dry-run`.
      The own-flag parse stops at the positional, so `RunE` receives all four
      tokens and neither `--tool` nor `--dry-run` is set. */
  lemma FlagsAfterPositionalReachHandler(o: Oracle)
    ensures var args := ["@rule/safe-api-route-pattern", "--tool", "cursor", "--dry-run"];
            var after := Leaf("add", AddFlags).(flags := FlagState(AddFlags, {}, args));
            Exec(Leaf("add", AddFlags), args, o) == Outcome(Lift(o.runE(after, args)), [RunECalled("add", args)], after)
  {
    var args := ["@rule/safe-api-route-pattern", "--tool", "cursor", "--dry-run"];
    assert !WantsHelp(args) by {
      assert !HelpToken(args[0]) && !HelpToken(args[1]) && !HelpToken(args[2]) && !HelpToken(args[3]);
    }
    PositionalFirstRunsHandler(Leaf("add", AddFlags), args, o);
  }

  /** The second test: `value -- --debug` leaves `--debug` unset, and the
      handler receives the whole vector, `--` included. */
  lemma TerminatorAfterPositional(o: Oracle)
    ensures var args := ["value", "--", "--debug"];
            var after := Leaf("cmd", [Bool("debug")]).(flags := FlagState([Bool("debug")], {}, args));
            Exec(Leaf("cmd", [Bool("debug")]), args, o) == Outcome(Lift(o.runE(after, args)), [RunECalled("cmd", args)], after)
  {
    var args := ["value", "--", "--debug"];
    assert !WantsHelp(args) by {
      assert !HelpToken(args[0]) && !HelpToken(args[1]) && !HelpToken(args[2]);
    }
    PositionalFirstRunsHandler(Leaf("cmd", [Bool("debug")]), args, o);
  }

  /** cmd/add_arg_order_test.go: `add foo --tool cursor`, with `add` as the
      command executed. The handler receives three tokens. */
  lemma AddReceivesTrailingFlags(o: Oracle)
    ensures var args := ["foo", "--tool", "cursor"];
            var after := Leaf(AddUse, AddFlags).(flags := FlagState(AddFlags, {}, args));
            Exec(Leaf(AddUse, AddFlags), args, o) == Outcome(Lift(o.runE(after, args)), [RunECalled(AddUse, args)], after)
  {
    var args := ["foo", "--tool", "cursor"];
    assert !WantsHelp(args) by {
      assert !HelpToken(args[0]) && !HelpToken(args[1]) && !HelpToken(args[2]);
    }
    PositionalFirstRunsHandler(Leaf(AddUse, AddFlags), args, o);
  }

  /** `codemint add --help` prints the root's help, not the help of `add`:
      the help check runs before the descent. */
  lemma AddHelpShowsRootHelp(o: Oracle)
    ensures Exec(MiniRoot(), ["add", "--help"], o) == Outcome(None, [Printed(Help(MiniRoot()))], MiniRoot())
  {
    assert HelpToken(["add", "--help"][1]);
  }

  /** The root picks `add` by the first word of its `Use`. */
  lemma AddSelected()
    ensures Uses(MiniRoot().children) == [AddUse]
    ensures Selects([AddUse], "add") && ChildNamed([AddUse], "add") == Some(0)
  {
    FirstFieldIs(AddUse, "add");
  }

  /** `add` run on `--json x` fails: it declares no `--json`. */
  lemma AddRejectsJson(o: Oracle)
    ensures Exec(Leaf(AddUse, AddFlags), ["--json", "x"], o)
            == Outcome(Some(FlagError(NotDefined("json"))), [], Leaf(AddUse, AddFlags).(flags := FlagState(AddFlags, {}, ["x"])))
  {
    var t := "--" + "json";
    assert t == "--json" by { assert |t| == 6 && t[2] == 'j' && t[3] == 's' && t[4] == 'o' && t[5] == 'n'; }
    var args := [t] + ["x"];
    assert args == ["--json", "x"];
    assert !WantsHelp(args) by { assert !HelpToken(args[0]) && !HelpToken(args[1]); }
    UndeclaredFlagFails(Leaf(AddUse, AddFlags), "--", "json", ["x"], o);
  }

  /** `codemint add --json x`: persistent flags are not inherited, so the own
      parse of `add` does not know `--json`. The root's hook has already run,
      with no leftovers. */
  lemma PersistentFlagNotInherited(o: Oracle)
    requires Accepting(o)
    ensures var r := Exec(MiniRoot(), ["add", "--json", "x"], o);
            r.err == Some(FlagError(NotDefined("json"))) && r.trace == [PreRunCalled("codemint", [])]
  {
    var root := MiniRoot();
    var args := ["add", "--json", "x"];
    assert !WantsHelp(args) by { assert !HelpToken(args[0]) && !HelpToken(args[1]) && !HelpToken(args[2]); }
    AddSelected();
    assert Descend([AddUse], args) == Some((0, 0));
    assert args[..0] == [] && args[1..] == ["--json", "x"];
    assert PersistentParse(root, []) == (root, None);
    HookThenChild(root, args, o, 0, 0);
    AddRejectsJson(o);
  }

  /** `--profile` is the fifth persistent flag of the root and takes a value. */
  lemma ProfileDeclared()
    ensures Lookup(RootPersistent, "profile") == Some(4)
    ensures PlainName("profile") && !RootPersistent[4].value.BoolValue?
  {
  }

  lemma ProfileStep(t: string)
    requires t == "--" + "profile"
    ensures ParseStep(RootPersistent, [t]) == Fail(NeedsArgument("profile"), RootPersistent, [])
  {
    ProfileDeclared();
    ValueFlagTakesNextToken(RootPersistent, "--", "profile", 4, []);
  }

  /** The root's parse of `--profile` alone: the value is missing. */
  lemma ProfileWithoutValue()
    ensures ParseAll(RootPersistent, ["--profile"]).err == Some(NeedsArgument("profile"))
  {
    var t := "--" + "profile";
    assert t == "--profile" by { assert forall i :: 0 <= i < |t| ==> t[i] == "--profile"[i]; }
    ProfileStep(t);
  }

  /** A dashed token followed by a selecting one: the second selects. */
  lemma DescendPastDashed(uses: seq<string>, args: seq<string>)
    requires |args| > 1 && Dashed(args[0]) && Selects(uses, args[1])
    ensures Descend(uses, args) == Some((1, ChildNamed(uses, args[1]).value))
  {
    assert args[1..][0] == args[1];
  }

  /** In `codemint --profile add add` the root selects `add` at the second
      token, so the persistent parse sees `--profile` alone. */
  lemma AddAfterProfileAt(root: Node, args: seq<string>)
    requires root == MiniRoot() && args == ["--profile", "add", "add"]
    ensures !WantsHelp(args) && Descend(Uses(root.children), args) == Some((1, 0))
    ensures args[..1] == ["--profile"] && root.persistent.value.formal == RootPersistent
  {
    ProfileAddAddNoHelp(args);
    ProfileAddAddDescends(root, args);
  }

  /** No token of `--profile add add` asks for help. */
  lemma ProfileAddAddNoHelp(args: seq<string>)
    requires args == ["--profile", "add", "add"]
    ensures !WantsHelp(args)
  {
    forall i | 0 <= i < |args| ensures !HelpToken(args[i]) {
      assert |args[i]| == 9 || |args[i]| == 3;
    }
  }

  /** In `--profile add add` the second token selects `add`. */
  lemma ProfileAddAddDescends(root: Node, args: seq<string>)
    requires root == MiniRoot() && args == ["--profile", "add", "add"]
    ensures Descend(Uses(root.children), args) == Some((1, 0))
  {
    AddSelected();
    assert Dashed(args[0]) && args[1] == "add";
    DescendPastDashed(Uses(root.children), args);
  }

  /** `codemint --profile add add`: the persistent parse sees only the tokens
      before the selecting `add`, so `--profile` lacks its value and nothing
      runs. */
  lemma PersistentValueCutAtSubcommand(root: Node, args: seq<string>, o: Oracle)
    requires root == MiniRoot() && args == ["--profile", "add", "add"]
    ensures Exec(root, args, o).err == Some(FlagError(NeedsArgument("profile")))
    ensures Exec(root, args, o).trace == []
  {
    AddAfterProfileAt(root, args);
    ProfileWithoutValue();
    PersistentErrorStopsDescent(root, args, o, 1, 0, NeedsArgument("profile"));
  }
}
