/** What `execute` of third_party/cobra/cobra.go promises, proved about its
    specification `Exec` for every command tree, every token vector and every
    behaviour of the hooks. */
module CobraFacts {
  import opened Wrappers
  import opened Flags
  import opened Cobra

  /** A call of `RunE` or `Run`. */
  predicate Handler(e: Event) {
    e.RunECalled? || e.RunCalled?
  }

  /** `a` is a suffix of `b`: what is left of `b` after dropping a prefix. */
  predicate IsSuffix(a: seq<string>, b: seq<string>) {
    |a| <= |b| && a == b[|b| - |a|..]
  }

  lemma SuffixTrans(a: seq<string>, b: seq<string>, c: seq<string>)
    requires IsSuffix(a, b) && IsSuffix(b, c)
    ensures IsSuffix(a, c)
  {
    assert c[|c| - |b|..][|b| - |a|..] == c[|c| - |a|..];
  }

  // ---------------------------------------------------------------------
  // Help comes first
  // ---------------------------------------------------------------------

  /** A help token anywhere in the tokens (after `--`, or as a flag's value)
      prints the help of the command `execute` runs on and returns nil;
      nothing is parsed and no hook runs. */
  lemma HelpAnywhere(n: Node, args: seq<string>, o: Oracle, i: nat)
    requires i < |args| && HelpToken(args[i])
    ensures Exec(n, args, o) == Outcome(None, [Printed(Help(n))], n)
  {
  }

  /** A command without children, persistent flags or hook goes straight to
      its own-flag parse over all the tokens and then to `Dispatch`. */
  lemma PlainLeaf(n: Node, args: seq<string>, o: Oracle)
    requires n.children == [] && n.persistent.None? && !n.hasPreRun && !WantsHelp(args)
    ensures var (n2, err) := OwnParse(n, args);
            Exec(n, args, o) == Dispatch(n2, [], err, o)
  {
    assert Descend(Uses(n.children), args).None?;
    assert Prelude(n, args, args, o) == Proceed(n, [], args);
  }

  /** Such a command whose first token is positional calls `RunE` with all
      the tokens: the own-flag parse stops at once, so flags written after the
      positional are neither bound nor taken off. */
  lemma PositionalFirstRunsHandler(n: Node, args: seq<string>, o: Oracle)
    requires n.children == [] && n.persistent.None? && !n.hasPreRun && n.hasRunE
    requires !WantsHelp(args) && args != [] && Positional(args[0])
    requires MissingRequired(n.flags.formal, n.flags.required) == []
    ensures var after := n.(flags := FlagState(n.flags.formal, n.flags.required, args));
            Exec(n, args, o) == Outcome(Lift(o.runE(after, args)), [RunECalled(n.use, args)], after)
  {
    PlainLeaf(n, args, o);
    PositionalEndsParsing(n.flags.formal, args);
  }

  /** Such a command run on an undeclared flag (other than `h` or `help`)
      fails with `NotDefined` before any handler runs; the token is consumed. */
  lemma UndeclaredFlagFails(n: Node, d: string, name: string, tail: seq<string>, o: Oracle)
    requires n.children == [] && n.persistent.None? && !n.hasPreRun && !WantsHelp([d + name] + tail)
    requires Dashes(d) && PlainName(name) && name != "h" && name != "help"
    requires Lookup(n.flags.formal, name).None?
    ensures Exec(n, [d + name] + tail, o)
            == Outcome(Some(FlagError(NotDefined(name))), [], n.(flags := FlagState(n.flags.formal, n.flags.required, tail)))
  {
    PlainLeaf(n, [d + name] + tail, o);
    UndeclaredFlag(n.flags.formal, d, name, tail);
  }

  /** On descent, when the persistent parse of the tokens in front of the
      child's name succeeds and the hook accepts its leftovers, the hook call
      is followed by exactly what the child does on the tokens after its
      name, and the child's error is the run's error. */
  lemma HookThenChild(n: Node, args: seq<string>, o: Oracle, idx: nat, k: nat)
    requires !WantsHelp(args) && Descend(Uses(n.children), args) == Some((idx, k))
    requires n.hasPreRun && n.persistent.Some? && PersistentParse(n, args[..idx]).1.None?
    requires var n1 := PersistentParse(n, args[..idx]).0;
             o.preRun(n1, n1.persistent.value.rest).None?
    ensures var rest := PersistentParse(n, args[..idx]).0.persistent.value.rest;
            var sub := Exec(n.children[k], args[idx + 1..], o);
            var r := Exec(n, args, o);
            r.err == sub.err && r.trace == [PreRunCalled(n.use, rest)] + sub.trace
  {
    ExecIsDescend(n, args, o, idx, k);
    HookProceeds(n, args[..idx], o);
  }

  /** A run whose tokens select a child is that descent. */
  lemma ExecIsDescend(n: Node, args: seq<string>, o: Oracle, idx: nat, k: nat)
    requires !WantsHelp(args) && Descend(Uses(n.children), args) == Some((idx, k))
    ensures idx < |args| && k < |n.children|
    ensures Exec(n, args, o) == ExecDescend(n, args, idx, k, o)
  {
  }

  /** When the persistent parse succeeds and the hook accepts, the prelude
      goes on with one hook call on the leftovers. */
  lemma HookProceeds(n: Node, tokens: seq<string>, o: Oracle)
    requires n.hasPreRun && n.persistent.Some? && PersistentParse(n, tokens).1.None?
    requires var n1 := PersistentParse(n, tokens).0;
             o.preRun(n1, n1.persistent.value.rest).None?
    ensures var n1 := PersistentParse(n, tokens).0;
            var rest := n1.persistent.value.rest;
            Prelude(n, tokens, [], o) == Proceed(n1, [PreRunCalled(n.use, rest)], rest)
  {
    var (n1, perr) := PersistentParse(n, tokens);
    var rest := n1.persistent.value.rest;
    assert AfterPersistent(n1, perr, [], o) == Proceed(n1, [PreRunCalled(n.use, rest)], rest);
  }

  /** On descent, a failed persistent parse (other than the help signal) of
      the tokens in front of the child's name ends the run with that error:
      no hook, no child, no handler. */
  lemma PersistentErrorStopsDescent(n: Node, args: seq<string>, o: Oracle, idx: nat, k: nat, e: ParseError)
    requires !WantsHelp(args) && Descend(Uses(n.children), args) == Some((idx, k))
    requires n.persistent.Some? && n.persistent.value.formal != []
    requires ParseAll(n.persistent.value.formal, args[..idx]).err == Some(e) && e != HelpRequested
    ensures Exec(n, args, o) == Outcome(Some(FlagError(e)), [], PersistentParse(n, args[..idx]).0)
  {
  }

  // ---------------------------------------------------------------------
  // The shape of the trace
  // ---------------------------------------------------------------------

  /** Every event but the last is a `PersistentPreRunE` call; so at most one
      handler runs, after every hook, and nothing happens after it. A run
      that fails on a flag, a missing required flag or for want of a handler
      calls no handler and prints nothing, and a help signal from a parse
      never comes back as an error. A run that succeeds ends with the handler
      call or the help text. */
  predicate WellFormedRun(r: Outcome) {
    && (forall i :: 0 <= i < |r.trace| - 1 ==> r.trace[i].PreRunCalled?)
    && (r.err.Some? && !r.err.value.HookError? ==> forall e :: e in r.trace ==> e.PreRunCalled?)
    && (r.err.Some? && r.err.value.FlagError? ==> r.err.value.parse != HelpRequested)
    && (r.err.None? ==> r.trace != [] && !r.trace[|r.trace| - 1].PreRunCalled?)
  }

  /** Events that are all hook calls, as the prelude leaves them. */
  predicate HooksOnly(t: seq<Event>) {
    forall e :: e in t ==> e.PreRunCalled?
  }

  lemma DispatchRun(n: Node, trace: seq<Event>, err: Option<ParseError>, o: Oracle)
    requires HooksOnly(trace)
    ensures WellFormedRun(Dispatch(n, trace, err, o))
  {
  }

  lemma PreludeRun(n: Node, tokens: seq<string>, fallback: seq<string>, o: Oracle)
    ensures var p := Prelude(n, tokens, fallback, o);
            && (p.Halt? ==> WellFormedRun(p.outcome))
            && (p.Proceed? ==> HooksOnly(p.trace))
  {
    var (n1, perr) := PersistentParse(n, tokens);
    assert Prelude(n, tokens, fallback, o) == AfterPersistent(n1, perr, fallback, o);
  }

  lemma ExecLeafRun(n: Node, args: seq<string>, o: Oracle)
    ensures WellFormedRun(ExecLeaf(n, args, o))
  {
    PreludeRun(n, args, args, o);
    var p := Prelude(n, args, args, o);
    if p.Proceed? {
      var (n2, err) := OwnParse(p.node, p.args);
      DispatchRun(n2, p.trace, err, o);
    }
  }

  lemma ExecDescendRun(n: Node, args: seq<string>, idx: nat, k: nat, o: Oracle)
    requires idx < |args| && k < |n.children|
    requires WellFormedRun(Exec(n.children[k], args[idx + 1..], o))
    ensures WellFormedRun(ExecDescend(n, args, idx, k, o))
  {
    PreludeRun(n, args[..idx], [], o);
    var p := Prelude(n, args[..idx], [], o);
    var r := ExecDescend(n, args, idx, k, o);
    if p.Proceed? {
      var sub := Exec(n.children[k], args[idx + 1..], o);
      assert r.trace == p.trace + sub.trace && r.err == sub.err;
      forall i | 0 <= i < |r.trace| - 1 ensures r.trace[i].PreRunCalled? {
        if i < |p.trace| {
          assert r.trace[i] == p.trace[i] && p.trace[i] in p.trace;
        } else {
          assert r.trace[i] == sub.trace[i - |p.trace|];
        }
      }
      if r.err.Some? && !r.err.value.HookError? {
        forall e | e in r.trace ensures e.PreRunCalled? {
          assert e in p.trace || e in sub.trace;
        }
      }
      if r.err.None? {
        assert r.trace[|r.trace| - 1] == sub.trace[|sub.trace| - 1];
      }
    } else {
      assert r == p.outcome;
    }
  }

  lemma {:induction false} ExecTrace(n: Node, args: seq<string>, o: Oracle)
    ensures WellFormedRun(Exec(n, args, o))
    decreases n
  {
    if !WantsHelp(args) {
      match Descend(Uses(n.children), args)
      case Some((idx, k)) =>
        ExecTrace(n.children[k], args[idx + 1..], o);
        ExecDescendRun(n, args, idx, k, o);
      case None =>
        ExecLeafRun(n, args, o);
    }
  }

  /** At most one handler call, and it is the last event. */
  lemma OneHandlerLast(n: Node, args: seq<string>, o: Oracle)
    ensures var t := Exec(n, args, o).trace;
            forall i :: 0 <= i < |t| && Handler(t[i]) ==> i == |t| - 1
  {
    ExecTrace(n, args, o);
  }

  /** A persistent flag set without flags was never parsed, so it has no
      leftover tokens (`Args()` of a fresh Go flag set is empty); this holds
      for every command of a tree built with `NewCommand` and
      `PersistentFlags`, and `execute` keeps it. */
  ghost predicate EmptySetsUnparsed(n: Node)
    decreases n
  {
    && (n.persistent.Some? && n.persistent.value.formal == [] ==> n.persistent.value.rest == [])
    && forall k :: 0 <= k < |n.children| ==> EmptySetsUnparsed(n.children[k])
  }

  /** Handlers receive only tokens of the vector they were run on. */
  predicate HandlersGetSuffix(r: Outcome, args: seq<string>) {
    forall e :: e in r.trace && Handler(e) ==> IsSuffix(e.args, args)
  }

  lemma PreludeSuffix(n: Node, args: seq<string>, o: Oracle)
    requires n.persistent.Some? && n.persistent.value.formal == [] ==> n.persistent.value.rest == []
    ensures var p := Prelude(n, args, args, o);
            p.Proceed? ==> IsSuffix(p.args, args)
  {
    var (n1, perr) := PersistentParse(n, args);
    assert Prelude(n, args, args, o) == AfterPersistent(n1, perr, args, o);
  }

  lemma DispatchSuffix(n: Node, trace: seq<Event>, err: Option<ParseError>, o: Oracle)
    requires HooksOnly(trace)
    ensures forall e :: e in Dispatch(n, trace, err, o).trace && Handler(e) ==> e.args == n.flags.rest
  {
  }

  lemma ExecLeafSuffix(n: Node, args: seq<string>, o: Oracle)
    requires n.persistent.Some? && n.persistent.value.formal == [] ==> n.persistent.value.rest == []
    ensures HandlersGetSuffix(ExecLeaf(n, args, o), args)
  {
    PreludeRun(n, args, args, o);
    PreludeSuffix(n, args, o);
    var p := Prelude(n, args, args, o);
    if p.Proceed? {
      var (n2, err) := OwnParse(p.node, p.args);
      SuffixTrans(n2.flags.rest, p.args, args);
      DispatchSuffix(n2, p.trace, err, o);
      assert ExecLeaf(n, args, o) == Dispatch(n2, p.trace, err, o);
    }
  }

  lemma ExecDescendSuffix(n: Node, args: seq<string>, idx: nat, k: nat, o: Oracle)
    requires idx < |args| && k < |n.children|
    requires HandlersGetSuffix(Exec(n.children[k], args[idx + 1..], o), args[idx + 1..])
    ensures HandlersGetSuffix(ExecDescend(n, args, idx, k, o), args)
  {
    PreludeRun(n, args[..idx], [], o);
    var p := Prelude(n, args[..idx], [], o);
    var r := ExecDescend(n, args, idx, k, o);
    if p.Proceed? {
      var sub := Exec(n.children[k], args[idx + 1..], o);
      assert r.trace == p.trace + sub.trace;
      forall e | e in r.trace && Handler(e) ensures IsSuffix(e.args, args) {
        assert e !in p.trace;
        SuffixTrans(e.args, args[idx + 1..], args);
      }
    } else {
      assert r == p.outcome;
    }
  }

  /** `RunE` or `Run` is called with what is left of the tokens after the
      subcommand names and the flags were taken off the front. */
  lemma {:induction false} HandlerGetsSuffix(n: Node, args: seq<string>, o: Oracle)
    requires EmptySetsUnparsed(n)
    ensures HandlersGetSuffix(Exec(n, args, o), args)
    decreases n
  {
    if !WantsHelp(args) {
      match Descend(Uses(n.children), args)
      case Some((idx, k)) =>
        HandlerGetsSuffix(n.children[k], args[idx + 1..], o);
        ExecDescendSuffix(n, args, idx, k, o);
      case None =>
        ExecLeafSuffix(n, args, o);
    }
  }

  // ---------------------------------------------------------------------
  // What descent touches
  // ---------------------------------------------------------------------

  /** On descent into child `k` (selected by the token at `idx`), the
      command's own flags are left alone, its persistent flags see only the
      tokens in front of the child's name, the other children are
      untouched, and child `k` runs on exactly the tokens after its name. */
  lemma DescentFrame(n: Node, args: seq<string>, o: Oracle, idx: nat, k: nat)
    requires !WantsHelp(args) && Descend(Uses(n.children), args) == Some((idx, k))
    ensures var r := Exec(n, args, o);
            && r.node.flags == n.flags
            && r.node.persistent == PersistentParse(n, args[..idx]).0.persistent
            && (forall j :: 0 <= j < |n.children| && j != k ==> r.node.children[j] == n.children[j])
            && (Prelude(n, args[..idx], [], o).Proceed? ==>
                  var sub := Exec(n.children[k], args[idx + 1..], o);
                  r.node.children[k] == sub.node && r.err == sub.err)
  {
  }

  // ---------------------------------------------------------------------
  // The tree is never reshaped
  // ---------------------------------------------------------------------

  /** Two flag states with the same flags (names and kinds, in order) and the
      same required names. */
  predicate SameFlags(a: FlagState, b: FlagState) {
    SameShape(a.formal, b.formal) && a.required == b.required
  }

  /** `b` is `a` with possibly different flag values and leftover tokens. */
  ghost predicate Congruent(a: Node, b: Node)
    decreases a
  {
    && a.use == b.use && a.short == b.short
    && a.hasRunE == b.hasRunE && a.hasRun == b.hasRun && a.hasPreRun == b.hasPreRun
    && SameFlags(a.flags, b.flags)
    && a.persistent.Some? == b.persistent.Some?
    && (a.persistent.Some? ==> SameFlags(a.persistent.value, b.persistent.value))
    && |a.children| == |b.children|
    && forall k :: 0 <= k < |a.children| ==> Congruent(a.children[k], b.children[k])
  }

  lemma {:induction false} CongruentRefl(a: Node)
    ensures Congruent(a, a)
    decreases a
  {
    forall k | 0 <= k < |a.children| ensures Congruent(a.children[k], a.children[k]) {
      CongruentRefl(a.children[k]);
    }
    SameShapeRefl(a.flags.formal);
    if a.persistent.Some? {
      SameShapeRefl(a.persistent.value.formal);
    }
  }

  lemma SameShapeRefl(f: seq<Flag>)
    ensures SameShape(f, f)
  {
  }

  /** Changing the flag states of one command keeps the tree congruent. */
  lemma CongruentFlags(n: Node, m: Node)
    requires m == n.(flags := m.flags, persistent := m.persistent)
    requires SameFlags(n.flags, m.flags) && n.persistent.Some? == m.persistent.Some?
    requires n.persistent.Some? ==> SameFlags(n.persistent.value, m.persistent.value)
    ensures Congruent(n, m)
  {
    forall k | 0 <= k < |n.children| ensures Congruent(n.children[k], m.children[k]) {
      CongruentRefl(n.children[k]);
    }
  }

  /** The prelude changes at most the persistent flag values. */
  lemma PreludeCongruent(n: Node, tokens: seq<string>, fallback: seq<string>, o: Oracle)
    ensures var p := Prelude(n, tokens, fallback, o);
            && (p.Proceed? ==> Congruent(n, p.node) && p.node.children == n.children)
            && (p.Halt? ==> Congruent(n, p.outcome.node))
  {
    var p := Prelude(n, tokens, fallback, o);
    var (n1, perr) := PersistentParse(n, tokens);
    assert p == AfterPersistent(n1, perr, fallback, o);
    SameShapeRefl(n.flags.formal);
    CongruentFlags(n, n1);
  }

  lemma ExecLeafCongruent(n: Node, args: seq<string>, o: Oracle)
    ensures Congruent(n, ExecLeaf(n, args, o).node)
  {
    PreludeCongruent(n, args, args, o);
    var p := Prelude(n, args, args, o);
    if p.Proceed? {
      var (n2, err) := OwnParse(p.node, p.args);
      assert ExecLeaf(n, args, o).node == n2;
      if p.node.persistent.Some? {
        SameShapeRefl(p.node.persistent.value.formal);
      }
      CongruentFlags(p.node, n2);
      CongruentTrans(n, p.node, n2);
    }
  }

  lemma {:induction false} CongruentTrans(a: Node, b: Node, c: Node)
    requires Congruent(a, b) && Congruent(b, c)
    ensures Congruent(a, c)
    decreases a
  {
    forall k | 0 <= k < |a.children| ensures Congruent(a.children[k], c.children[k]) {
      CongruentTrans(a.children[k], b.children[k], c.children[k]);
    }
  }

  lemma ExecDescendCongruent(n: Node, args: seq<string>, idx: nat, k: nat, o: Oracle)
    requires idx < |args| && k < |n.children|
    requires Congruent(n.children[k], Exec(n.children[k], args[idx + 1..], o).node)
    ensures Congruent(n, ExecDescend(n, args, idx, k, o).node)
  {
    PreludeCongruent(n, args[..idx], [], o);
    var p := Prelude(n, args[..idx], [], o);
    if p.Proceed? {
      var sub := Exec(n.children[k], args[idx + 1..], o);
      var m := p.node.(children := p.node.children[k := sub.node]);
      assert ExecDescend(n, args, idx, k, o).node == m;
      forall j | 0 <= j < |n.children| ensures Congruent(n.children[j], m.children[j]) {
        if j != k {
          CongruentRefl(n.children[j]);
        }
      }
    }
  }

  /** `execute` changes flag values and leftover tokens only: no command,
      hook, flag or required name appears, disappears or moves. */
  lemma {:induction false} ExecCongruent(n: Node, args: seq<string>, o: Oracle)
    ensures Congruent(n, Exec(n, args, o).node)
    decreases n
  {
    if WantsHelp(args) {
      CongruentRefl(n);
    } else {
      match Descend(Uses(n.children), args)
      case Some((idx, k)) =>
        ExecCongruent(n.children[k], args[idx + 1..], o);
        ExecDescendCongruent(n, args, idx, k, o);
      case None =>
        ExecLeafCongruent(n, args, o);
    }
  }

  /** Every flag set of the tree lists its flags in name order. */
  ghost predicate Sorted(n: Node)
    decreases n
  {
    && SortedByName(n.flags.formal)
    && (n.persistent.Some? ==> SortedByName(n.persistent.value.formal))
    && forall k :: 0 <= k < |n.children| ==> Sorted(n.children[k])
  }

  lemma {:induction false} CongruentSorted(a: Node, b: Node)
    requires Congruent(a, b) && Sorted(a)
    ensures Sorted(b)
    decreases a
  {
    SameShapeSorted(a.flags.formal, b.flags.formal);
    if a.persistent.Some? {
      SameShapeSorted(a.persistent.value.formal, b.persistent.value.formal);
    }
    forall k | 0 <= k < |b.children| ensures Sorted(b.children[k]) {
      CongruentSorted(a.children[k], b.children[k]);
    }
  }

  /** Flag sets stay in name order across `execute`, so `validateRequired`
      keeps reporting missing names in name order. */
  lemma ExecKeepsOrder(n: Node, args: seq<string>, o: Oracle)
    requires Sorted(n)
    ensures Sorted(Exec(n, args, o).node)
  {
    ExecCongruent(n, args, o);
    CongruentSorted(n, Exec(n, args, o).node);
  }
}
