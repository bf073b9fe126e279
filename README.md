# CodeMint CLI in Dafny

A model of the core of the CodeMint command-line client (`codemint`), with proofs
of what it promises. The client installs rules and skills from the CodeMint catalog
into a repository. It places each item where the chosen AI coding tool (Cursor,
Cline, Windsurf, Continue, Copilot, Claude, Codex) looks for it, and records it in
the project manifest `.codemint/manifest.json`.

The model covers:

- **Catalog references.** `@rule/<slug>` and `@skill/<slug>`, parsed and printed
  (`Catalog`).
- **The API client's deterministic part.** Converting search hits into catalog
  items, normalising catalog items, building the search query, and batching and
  aligning a catalog sync (`Api`). Also the error text and the process exit code
  (`ApiErrors`).
- **The installer.** The per-tool directory and file name, the default content,
  Cursor front matter, the backup of a non-empty file it overwrites, and file
  removal (`Install`). Files are a map from path to content held by a `Disk`
  object.
- **The manifest store.** Loading with defaults, saving sorted by type then slug,
  lookup by catalog id and by reference, and the settings file (`Manifest`). The
  two stored files are fields of a `Store` object.
- **The supported tools and their validation** (`Tooling`), and the choice of
  tool for a project: flag, saved setting or interactive prompt (`ToolSelect`).
- **Configuration loading** (`Config`). Defaults, then the config file, then
  `CODEMINT_BASE_URL` and `CODEMINT_PROFILE`, then explicit overrides.
- **The commands `add`, `remove`, `sync` and `suggest`** (`AddCommand`,
  `RemoveCommand`, `SyncCommand`, `SuggestCommand`). Each is an imperative method
  over the store and the disk. It is proved against pure definitions of what it
  writes and returns.
- **The vendored command dispatcher** (`Cobra`, `Flags`). It builds a tree of
  commands and walks it over the command-line tokens:
  - it prints help;
  - it chooses a subcommand;
  - it parses persistent flags and own flags with Go's `flag` syntax;
  - it calls `PersistentPreRunE`, then `RunE` or `Run`.

  Flag sets are objects that parsing updates in place. `Cobra.Execute` is proved to
  do exactly what the value-level specification `Cobra.Exec` says. The lemmas in
  `CobraFacts` state the dispatcher's promises for every tree and token vector:
  - help anywhere wins;
  - at most one handler runs, and it runs last;
  - a handler receives a suffix of the tokens;
  - descending changes only the chosen child and the parent's persistent flags;
  - execution never changes the tree's shape.

  `CobraScenarios` replays the repository's dispatcher tests on small trees.

`GoStrings` holds the parts of Go's `strings` and `strconv` that this code relies
on, over ASCII text.

The model follows the code where it differs from its tests (cobra_test.go, add_arg_order_test.go):

- **Flags after a positional argument are not parsed.** Go's `flag.FlagSet.Parse`
  stops at the first token that is not a flag, so in `execute` the handler receives
  that token and everything after it unparsed. The tests
  third_party/cobra/cobra_test.go:5-33 and cmd/add_arg_order_test.go:9-26 expect
  flags placed after the identifier to be parsed. The code as written does not do
  that:
  - `CobraScenarios.FlagsAfterPositionalReachHandler` shows `--tool` and
    `--dry-run` reaching `RunE` as arguments.
  - `CobraScenarios.AddReceivesTrailingFlags` shows `add foo --tool cursor` handing
    three arguments to `add`, which makes `add` fail with "add expects exactly one
    identifier".
  - `CobraScenarios.TerminatorAfterPositional` shows that for
    `value -- --debug` the handler receives all three tokens. `--debug` stays
    unset, as the test wants.
- **A subcommand name used as a flag value cuts the persistent flags.** The search
  for a subcommand takes the first token that does not start with `-` and names a
  child. So in `codemint --profile add add …` the first `add` is taken as the
  subcommand, and `--profile` loses its value
  (`CobraScenarios.PersistentValueCutAtSubcommand`).
- **Persistent flags are not inherited.** Persistent flags are parsed only on the
  tokens before the subcommand. A child never sees its parent's persistent flags,
  so `codemint add --json x` fails in `add` with "flag provided but not defined"
  (`CobraScenarios.PersistentFlagNotInherited`).

## Model

| member | source | states |
|---|---|---|
| GoStrings.TrimSpace | internal/catalog/types.go:20 | the result neither starts nor ends with white space and is no longer than the input |
| GoStrings.TrimSpaceInfix | internal/catalog/types.go:20 | the trimmed text is the infix of the input that starts after its leading white space and is followed only by white space |
| GoStrings.ToLower | cmd/tool_select.go:65 | same length; every character is folded to lower case |
| GoStrings.IndexOf | internal/catalog/types.go:24 | the first position of the character, or none exactly when it does not occur |
| GoStrings.Split | third_party/cobra/cobra.go:198 | at least one piece; no piece holds the separator; joining the pieces with the separator gives back the input |
| GoStrings.FirstField | third_party/cobra/cobra.go:52 | none exactly when the text is all white space; otherwise a non-empty word without white space |
| GoStrings.FirstFieldIsWord | third_party/cobra/cobra.go:52 | the first field is the word that starts right after the leading white space |
| GoStrings.FirstFieldIs | third_party/cobra/cobra.go:52 | a white-space-free prefix ended by white space or the end of the text is the first field |
| GoStrings.NatToString | internal/api/errors.go:22 | `%d` of a natural number is all digits, with no leading zero, and reads back as the number |
| GoStrings.Itoa | internal/api/errors.go:22 | `%d` starts with `-` exactly for negative numbers and reads back as a signed decimal to the number |
| GoStrings.PadRight | third_party/cobra/cobra.go:160 | `%-12s`: the text is a prefix of the result, which is padded with spaces to the width |
| GoStrings.LessIrreflexive | internal/manifest/store.go:83-88 | Go's byte-wise string `<` is irreflexive |
| GoStrings.LessTransitive | internal/manifest/store.go:83-88 | Go's string `<` is transitive |
| GoStrings.LessTotal | internal/manifest/store.go:83-88 | two different strings are ordered one way or the other |
| Flags.Text | third_party/cobra/cobra.go:220 | `Value.String()`: a string flag shows its value, bool and int flags are never empty, and a string-list flag always shows the empty string |
| Flags.ParseInt | third_party/cobra/cobra.go:184-186 | bad syntax stores 0 and fails; a decimal in the int64 range is stored and succeeds; one out of range stores the nearest bound and fails |
| Flags.ParseIntItoa | third_party/cobra/cobra.go:184-186 | the text of every int64 value parses back to that value |
| Flags.ListOf | third_party/cobra/cobra.go:193-200 | empty text gives an empty list; otherwise the comma-free pieces join back to the text |
| Flags.Set | third_party/cobra/cobra.go:176-204 | per kind: a string flag stores the text; a bool flag stores `ParseBool`'s value (false on error) and fails exactly when it rejects the text; an int flag stores and succeeds as `ParseInt` says; a list flag stores `ListOf` of the text; the kind never changes |
| Flags.Lookup | third_party/cobra/cobra.go:206-208 | the position of the flag with that name; none exactly when no declared flag has it |
| Flags.LookupSameShape | third_party/cobra/cobra.go:206-208 | parsing changes values only, so every name is found at the same position afterwards |
| Flags.Declare | third_party/cobra/cobra.go:176-186 | declaring keeps the flags sorted by name and adds exactly the new flag |
| Flags.SplitAssignment | third_party/cobra/cobra.go:206-208 | `name=value` splits at the first `=` into a non-empty name and the value, which reassemble to the token |
| Flags.SplitAtEquals | third_party/cobra/cobra.go:206-208 | the scanning loop finds the same name and value as `SplitAssignment` |
| Flags.Assign | third_party/cobra/cobra.go:206-208 | writes `Set`'s value into flag i only; continues exactly when `Set` accepts the text, else fails with "invalid value" for that flag and text; consumes nothing further |
| Flags.ParseStep | third_party/cobra/cobra.go:206-208 | one step consumes at least one token when it continues; the rest is a suffix of the input; parsing stops only at the end, at a positional token or after `--` |
| Flags.ParseAll | third_party/cobra/cobra.go:206-212 | `Args()` is a suffix of the input; on success it is empty, begins with a positional token, or follows `--`; names and kinds are kept |
| Flags.SameShapeSorted | third_party/cobra/cobra.go:216 | parsing preserves the name order in which `VisitAll` presents the flags |
| Flags.FlagSet.constructor | third_party/cobra/cobra.go:170-174 | a new flag set has the given name, no flags, no required names and no arguments |
| Flags.FlagSet.StringVar | third_party/cobra/cobra.go:176-178 | adds a string flag with its default, keeps the set sorted, and changes nothing else |
| Flags.FlagSet.BoolVar | third_party/cobra/cobra.go:180-182 | adds a bool flag with its default, keeps the set sorted, and changes nothing else |
| Flags.FlagSet.IntVar | third_party/cobra/cobra.go:184-186 | adds an int flag with its default, keeps the set sorted, and changes nothing else |
| Flags.FlagSet.StringSliceVar | third_party/cobra/cobra.go:188-204 | adds a list flag whose value is the default joined with commas and split again |
| Flags.FlagSet.MarkRequired | third_party/cobra/cobra.go:149-152 | adds the name to the required set and changes nothing else |
| Flags.FlagSet.Bind | third_party/cobra/cobra.go:206-208 | writes the converted value into that one flag only and reports whether the text was accepted |
| Flags.FlagSet.ParseOne | third_party/cobra/cobra.go:206-208 | one in-place step has exactly the effect of `ParseStep` |
| Flags.FlagSet.Parse | third_party/cobra/cobra.go:206-212 | the flags, the remaining arguments and the error are exactly those of `ParseAll`, and a sorted set stays sorted |
| Flags.FlagSet.ValidateRequired | third_party/cobra/cobra.go:214-228 | fails exactly when a required flag shows the empty string, and lists exactly those names |
| Flags.FlagSet.HasAny | third_party/cobra/cobra.go:230-236 | true exactly when at least one flag is declared |
| Flags.MissingRequiredMembers | third_party/cobra/cobra.go:214-228 | a name is reported missing if and only if it is declared, required and empty; none is missing exactly when no such flag exists |
| Flags.MissingRequiredSorted | third_party/cobra/cobra.go:216-223 | the missing names come in strictly increasing order |
| Flags.RequiredListAlwaysMissing | third_party/cobra/cobra.go:193-200 | a required string-list flag is always reported missing, whatever was passed |
| Flags.BoolFlagTakesNoArgument | third_party/cobra/cobra.go:206-208 | `-b` or `--b` sets a bool flag to true and consumes only that token |
| Flags.ValueFlagTakesNextToken | third_party/cobra/cobra.go:206-208 | a non-bool flag takes the next token as its value, and fails when there is none |
| Flags.AssignmentBindsValue | third_party/cobra/cobra.go:206-208 | `--name=value` binds the value without consuming another token |
| Flags.UndeclaredFlag | third_party/cobra/cobra.go:206-208 | an undeclared flag fails with "not defined", except `-h` and `-help`, which request help |
| Flags.BadFlagSyntax | third_party/cobra/cobra.go:206-208 | `-`/`--` followed by nothing, a third dash or `=` is a syntax error that consumes nothing |
| Flags.PositionalEndsParsing | third_party/cobra/cobra.go:206-212 | a positional first token ends parsing with every token left as arguments |
| Flags.TerminatorEndsParsing | third_party/cobra/cobra.go:206-212 | `--` ends parsing, and the arguments are the tokens after it |
| Flags.StringFlagStep | third_party/cobra/cobra.go:206-208 | `--name value rest…` parses like `rest…` with the flag already set |
| Flags.NoTokens | third_party/cobra/cobra.go:206-212 | parsing no tokens changes nothing and succeeds |
| Flags.LaterValueWins | third_party/cobra/cobra.go:206-208 | a string flag given twice keeps the later value |
| Cobra.NewCommand | third_party/cobra/cobra.go:135-140 | a new command has no children and no persistent set, and has an empty own flag set named after `Use` |
| Cobra.PersistentFlags | third_party/cobra/cobra.go:142-147 | returns the existing persistent set, or attaches a fresh empty one named `Use + "-persistent"` |
| Cobra.MarkFlagRequired | third_party/cobra/cobra.go:149-152 | never fails, and only adds the name to the own flag set's required names |
| Cobra.AddCommand | third_party/cobra/cobra.go:26-31 | the new children follow the existing ones in order; flag sets and `Use` are untouched |
| Cobra.AddCommandValid | third_party/cobra/cobra.go:26-31 | adding well-formed commands that share no flag set keeps the tree well-formed; its flag sets are the union |
| Cobra.ScanForHelp | third_party/cobra/cobra.go:238-245 | true exactly when some token is `-h`, `--help`, `-help` or `help` |
| Cobra.HelpLine | third_party/cobra/cobra.go:160 | two spaces, the child's first `Use` word, only spaces up to column 15 (or one space after a longer name), then `Short` |
| Cobra.HelpLines | third_party/cobra/cobra.go:159-161 | one help line per child, in registration order |
| Cobra.Help | third_party/cobra/cobra.go:154-162 | a command without children prints its `Use`; with children, split at line breaks the help is "Usage:", "  <use>", "", "Available Commands:", then exactly one `HelpLine` per child in order |
| Cobra.ChildNamed | third_party/cobra/cobra.go:51-53 | the first child whose first `Use` word is the token; none exactly when no child has it |
| Cobra.Descend | third_party/cobra/cobra.go:46-53 | the first token not starting with `-` that names a child, and that child; none exactly when no token selects one |
| Cobra.DescendAt | third_party/cobra/cobra.go:46-53 | the first selecting token is where `execute` descends |
| Cobra.FindSubcommand | third_party/cobra/cobra.go:46-53 | the nested loops find exactly `Descend`'s token and child |
| Cobra.MatchChild | third_party/cobra/cobra.go:51-53 | the inner loop finds exactly `ChildNamed`'s child |
| Cobra.PersistentParse | third_party/cobra/cobra.go:54-62 | only the persistent flag set changes, and its required names are kept; nothing is parsed when the set is absent or empty |
| Cobra.AfterPersistent | third_party/cobra/cobra.go:56-71 | a parse error halts (printing help for `-h`); otherwise `PersistentPreRunE` gets the persistent set's arguments, or the fallback tokens when there is no set |
| Cobra.Prelude | third_party/cobra/cobra.go:81-98 | the persistent phase changes only the persistent flag set |
| Cobra.OwnParse | third_party/cobra/cobra.go:100-107 | parsing the own flags changes only that set's values and arguments |
| Cobra.Dispatch | third_party/cobra/cobra.go:109-125 | choosing the handler changes no flag set |
| Cobra.RunLeaf | third_party/cobra/cobra.go:100-125 | running a command's own part changes only its own flag set |
| Cobra.Exec | third_party/cobra/cobra.go:41-126 | execution keeps the number of children; the `CobraFacts` lemmas state the rest |
| Cobra.ExecDescend | third_party/cobra/cobra.go:54-76 | descending keeps the number of children |
| Cobra.ExecLeaf | third_party/cobra/cobra.go:81-125 | running without descending keeps the number of children |
| Cobra.ParsePersistent | third_party/cobra/cobra.go:54-62 | updates the persistent flag set in place exactly as `PersistentParse` says |
| Cobra.FinishPrelude | third_party/cobra/cobra.go:56-71 | returns the halt, error, trace and arguments that `AfterPersistent` specifies |
| Cobra.ParseOwn | third_party/cobra/cobra.go:100-107 | updates the own flag set in place exactly as `OwnParse` says |
| Cobra.DispatchOn | third_party/cobra/cobra.go:109-125 | returns the error and trace of `Dispatch` |
| Cobra.RunPrelude | third_party/cobra/cobra.go:81-98 | the persistent phase in place has exactly the outcome of `Prelude` |
| Cobra.RunLeafOn | third_party/cobra/cobra.go:100-125 | the own phase in place has exactly the outcome of `RunLeaf` |
| Cobra.ExecuteLeaf | third_party/cobra/cobra.go:81-125 | running without descending has exactly the outcome of `ExecLeaf` |
| Cobra.ExecuteDescend | third_party/cobra/cobra.go:54-76 | descending has exactly the outcome of `ExecDescend` |
| Cobra.ExecuteChild | third_party/cobra/cobra.go:72-76 | runs child k as `Exec` says and leaves every other child's flag sets as they were |
| Cobra.Execute | third_party/cobra/cobra.go:41-126 | the error, the printed help and hook calls, and every flag set's new state are exactly those of `Exec` |
| CobraFacts.HelpAnywhere | third_party/cobra/cobra.go:42-45 | a help token anywhere prints this command's help, returns nil and parses nothing |
| CobraFacts.PlainLeaf | third_party/cobra/cobra.go:100-125 | a leaf without persistent flags or hook parses its own flags and dispatches |
| CobraFacts.PositionalFirstRunsHandler | third_party/cobra/cobra.go:100-114 | when the first token is positional, `RunE` receives every token and no flag changes |
| CobraFacts.UndeclaredFlagFails | third_party/cobra/cobra.go:100-106 | an undeclared flag fails with "not defined" and no handler runs |
| CobraFacts.ExecIsDescend | third_party/cobra/cobra.go:46-53 | when a token selects a child, `execute` descends there |
| CobraFacts.HookProceeds | third_party/cobra/cobra.go:63-71 | after a clean persistent parse, `PersistentPreRunE` runs once with the persistent set's arguments |
| CobraFacts.HookThenChild | third_party/cobra/cobra.go:63-76 | descending calls the parent's hook first, then returns the child's error and trace |
| CobraFacts.PersistentErrorStopsDescent | third_party/cobra/cobra.go:54-62 | a persistent parse error other than help is returned before any hook, and the child never runs |
| CobraFacts.ExecTrace | third_party/cobra/cobra.go:41-126 | every run is hook calls, then at most one handler call or help text |
| CobraFacts.OneHandlerLast | third_party/cobra/cobra.go:113-119 | at most one `RunE`/`Run` is called, and it is the last event |
| CobraFacts.DispatchSuffix | third_party/cobra/cobra.go:107-117 | the handler receives the own flag set's remaining arguments |
| CobraFacts.HandlerGetsSuffix | third_party/cobra/cobra.go:90-117 | the arguments any handler receives are a suffix of the command line |
| CobraFacts.DescentFrame | third_party/cobra/cobra.go:54-76 | descending leaves the parent's own flags and every other child unchanged, parses the persistent flags on the tokens before the subcommand, and returns the child's error |
| CobraFacts.ExecCongruent | third_party/cobra/cobra.go:41-126 | execution changes flag values and arguments only, never the tree, the flag names or the required names |
| CobraFacts.ExecKeepsOrder | third_party/cobra/cobra.go:216 | every flag set stays sorted by name through execution |
| CobraScenarios.FlagsAfterPositionalReachHandler | third_party/cobra/cobra_test.go:5-33 | as written, `RunE` receives all four tokens and `--tool`/`--dry-run` stay unset |
| CobraScenarios.TerminatorAfterPositional | third_party/cobra/cobra_test.go:35-51 | `--debug` after `value --` stays unset; the handler receives all three tokens |
| CobraScenarios.AddReceivesTrailingFlags | cmd/add_arg_order_test.go:9-26 | `add foo --tool cursor` hands three arguments to the `add` handler |
| CobraScenarios.AddHelpShowsRootHelp | third_party/cobra/cobra.go:42-45 | `add --help` given to the root prints the root's help |
| CobraScenarios.AddRejectsJson | cmd/root.go:73 | the `add` command alone does not know `--json` |
| CobraScenarios.PersistentFlagNotInherited | cmd/root.go:73-77 | `codemint add --json x` runs the root hook with no arguments, then fails in `add` on `--json` |
| CobraScenarios.ProfileWithoutValue | cmd/root.go:75 | `--profile` with no value is a missing-argument error |
| CobraScenarios.PersistentValueCutAtSubcommand | third_party/cobra/cobra.go:46-62 | in `--profile add add` the first `add` is taken as the subcommand, so `--profile` lacks its value and nothing runs |
| Catalog.ParseRef | internal/catalog/types.go:19-33 | a parsed ref keeps the trimmed text, has a known type and is `@type/slug`; an invalid-identifier error carries the trimmed text |
| Catalog.ParseShaped | internal/catalog/types.go:26-32 | a trimmed `@type/slug` parses to that ref, or to "unsupported type" for any other type |
| Catalog.ParseUnshaped | internal/catalog/types.go:20-25 | text not of the form `@type/slug` is an invalid identifier |
| Catalog.ParseRefOutcome | internal/catalog/types.go:19-33 | success, "unsupported type" and "invalid identifier" each happen exactly in their own case |
| Catalog.ParseNormalizeRoundTrip | internal/catalog/types.go:35-37 | parsing a normalised ref gives back its type and slug |
| Catalog.NormalizeParseRoundTrip | internal/catalog/types.go:19-37 | normalising a parsed ref gives back the trimmed input |
| Catalog.ParsesRuleRef | internal/catalog/types_test.go:5-13 | `@rule/react-best-coding` parses to type rule and that slug |
| Catalog.RejectsMissingAt | internal/catalog/types_test.go:15-20 | `rule/react-best-coding` is an invalid identifier |
| ApiErrors.ErrorText | internal/api/errors.go:20-25 | opens with "api error (" and the status, ends with "): <message>"; with a code, a `/` and the code sit between them and the length is exact; without one, nothing does |
| ApiErrors.ErrorTextShowsCode | internal/api/errors.go:20-25 | the status reads back from the text, and the `/` after it appears exactly when there is an error code |
| ApiErrors.ExitCode | internal/api/errors.go:27-50 | 0 exactly for no error; any error other than an API error gives 1 |
| ApiErrors.ExitCodeOfStatus | internal/api/errors.go:35-49 | 401→10, 403→11, 422→12, 429→13, ≥500→14, any other status→1, each in both directions; a wrapped API error gives 1 |
| Api.SyntheticId | internal/api/client.go:289-291 | `type:slug`, from which the type and the slug can be read back |
| Api.StrMeta | internal/api/client.go:329-339 | the metadata string under the key, or empty when the metadata is nil, the key is absent or the value is not a string |
| Api.BoolMeta | internal/api/client.go:341-351 | true exactly when the metadata holds `true` under the key |
| Api.FirstNonEmpty | cmd/add.go:108-113 | empty exactly when all candidates are empty; otherwise the first non-empty one |
| Api.ItemToCatalog | internal/api/client.go:252-308 | each field takes the first non-empty of its fallback chain; the version is never empty and equals `catalogVersion`; the id is never empty |
| Api.Normalized | internal/api/client.go:310-327 | the result is normal, with non-empty versions; name, version and id are filled as the code does; every other field is kept |
| Api.NormalizedIdempotent | internal/api/client.go:310-327 | normalising a normal item changes nothing, so normalising twice equals normalising once |
| Api.ItemToCatalogNormal | internal/api/client.go:252-327 | items converted from search hits are already normal |
| Api.NormalizeCatalogItem | internal/api/client.go:310-327 | the in-place field updates give exactly `Normalized` |
| Api.SearchQuery | internal/api/client.go:57-83 | a query key is present exactly when its field is set, with the field's text as value |
| Api.SearchQueryShape | internal/api/client.go:92 | a suggest request carries `latest=true`, `page=1` and `limit=50`; the query is empty exactly when no field is set |
| Api.Ids | internal/api/client.go:121-124 | the catalog ids of the local items, in order |
| Api.BatchesFromCover | internal/api/client.go:116-124 | the batches from a start position concatenate to the ids from there, each holding 1 to 100 ids |
| Api.BatchesCover | internal/api/client.go:114-124 | the batches concatenate to all ids, each holding 1 to 100 ids; there are none exactly when there are no items |
| Api.BatchIds | internal/api/client.go:121-124 | the loop collects exactly the ids of that batch |
| Api.FetchBatches | internal/api/client.go:116-130 | the batches sent are a prefix of all batches; on failure the last one sent failed and its error is returned |
| Api.ResultFor | internal/api/client.go:133-156 | a missing answer marks the item removed; otherwise the result carries the normalised item, its non-empty version and its deprecation |
| Api.Assemble | internal/api/client.go:132-158 | one result per local item, aligned by position with the answers |
| Api.AssembleAligned | internal/api/client.go:133-157 | result i is removed exactly when answer i is missing; otherwise its latest version is the normalised answer's |
| Api.AlignResults | internal/api/client.go:132-158 | the loop builds exactly `Assemble` |
| Api.CatalogSync | internal/api/client.go:113-159 | fails exactly when a batch request fails, with that error; otherwise every batch was sent and the results are `Assemble` of the answers |
| Install.ItemDir | internal/install/installer.go:27-61 | one or two segments below the root; one exactly for Cline rules |
| Install.SkillAndRuleDirs | internal/install/installer.go:28-55 | `.<tool>/skills` for skills, `.<tool>/rules` for rules, `.clinerules` for Cline rules |
| Install.OtherToolDirs | internal/install/installer.go:49-59 | Copilot uses `.github/instructions`, Codex `.codex/<type>s`, and any other tool `.codemint/<type>s` |
| Install.ItemPath | internal/install/installer.go:63-89 | inside the item's directory: `<slug>/SKILL.md` for Cursor and Cline skills, otherwise a file named from the prefix, the slug and the tool's extension |
| Install.ItemPathTableCursorCline | internal/install/installer_test.go:18-21 | the expected Cursor and Cline paths |
| Install.ItemPathTableCopilotCodex | internal/install/installer_test.go:22-24 | the expected Copilot and Codex paths |
| Install.BackupPath | internal/install/installer.go:91-93 | `<root>/.codemint/backup/<type>s/<slug>.bak` |
| Install.BackupPathProperties | internal/install/installer.go:91-93 | the backup path does not depend on the tool and never equals the item's own path |
| Install.SafeTitle | internal/install/installer.go:151-159 | the first non-empty of title, name and slug |
| Install.DefaultContent | internal/install/installer.go:137-139 | starts with the heading `# <name>`; split at line breaks it is the heading, a blank line, the Type, Ref, Catalog ID and Version lines, and the empty piece after the final break |
| Install.FrontMatter | internal/install/installer.go:148 | split at line breaks: "---", "description: <title>", "alwaysApply: false", "---", "", then the content's lines and the empty piece after the final break |
| Install.RenderForTool | internal/install/installer.go:141-149 | only Cursor content without front matter changes, and it gains front matter titled by `SafeTitle` |
| Install.FrontMatterDetected | internal/install/installer.go:145-148 | rendered front matter is recognised as front matter |
| Install.RenderIdempotent | internal/install/installer.go:141-149 | rendering twice equals rendering once |
| Install.InstallPlan | internal/install/installer.go:95-107 | fails exactly for an unknown type with "unsupported item type"; an empty tool means `codemint`; the content is never empty, Cursor content has front matter, and the content is `RenderForTool` of the item's content or, when that is empty, of `DefaultContent` |
| Install.InstallOutcome | internal/install/installer.go:95-121 | writes the content at the item path; backs up a non-empty old file, and touches the backup path only then; leaves every other file; adds no other path; returns the path and the content's checksum |
| Install.Disk.constructor | internal/install/installer.go:23-25 | a disk holding the given files |
| Install.Disk.Install | internal/install/installer.go:95-121 | changes the files exactly as `InstallOutcome` says, and nothing on failure |
| Install.Disk.RemovePath | internal/install/installer.go:123-135 | the file is gone afterwards, a missing file is no error, and the path is returned |
| Manifest.ManifestPath | internal/manifest/store.go:49-51 | `<root>/.codemint/manifest.json` |
| Manifest.SettingsPath | internal/manifest/store.go:53-55 | `<root>/.codemint/settings.json` |
| Manifest.StoreFilesApart | internal/manifest/store.go:45-55 | the manifest and settings files are distinct and never an installed item's path or backup path |
| Manifest.Loaded | internal/manifest/store.go:57-77 | a missing manifest is empty at the current version; a broken one is an error; a stored one keeps its items and gains the current version if it had none |
| Manifest.LoadedSettings | internal/manifest/store.go:96-109 | missing settings are empty, broken ones an error, stored ones returned as they are |
| Manifest.AdjacentIsSorted | internal/manifest/store.go:83-88 | ordered neighbours make the whole list ordered by type then slug |
| Manifest.SwapDown | internal/manifest/store.go:83-88 | exchanges two neighbouring entries and keeps the multiset |
| Manifest.Sink | internal/manifest/store.go:83-88 | one insertion step extends the sorted prefix and keeps the multiset |
| Manifest.SortItems | internal/manifest/store.go:83-88 | sorts the array in place by type then slug; the result is a permutation |
| Manifest.SortedForSave | internal/manifest/store.go:83-88 | the saved order is sorted and a permutation of the items |
| Manifest.SortedForSaveKeepsItems | internal/manifest/store.go:83-88 | sorting keeps every item and the count |
| Manifest.FirstWithId | internal/manifest/store.go:119-126 | the first entry with the catalog id; none exactly when no entry has it |
| Manifest.FirstWithRef | internal/manifest/store.go:128-135 | the first entry with the reference; none exactly when no entry has it |
| Manifest.FindByCatalogID | internal/manifest/store.go:119-126 | found exactly when some entry has the id; the index is the first such entry, else -1 |
| Manifest.FindByRef | internal/manifest/store.go:128-135 | found exactly when some entry has the reference; the index is the first such entry, else -1 |
| Manifest.Store.constructor | internal/manifest/store.go:41-43 | a store over the root with the given manifest and settings files |
| Manifest.Store.Load | internal/manifest/store.go:57-77 | returns `Loaded` of the stored manifest |
| Manifest.Store.Save | internal/manifest/store.go:79-94 | writes a manifest with a non-empty version whose items are sorted and a permutation of the given ones; the settings are untouched |
| Manifest.Store.LoadSettings | internal/manifest/store.go:96-109 | returns `LoadedSettings` of the stored settings |
| Manifest.Store.SaveSettings | internal/manifest/store.go:111-117 | writes the settings and leaves the manifest |
| Manifest.SaveLoadRoundTrip | internal/manifest/store.go:57-94 | loading a saved manifest that has a version returns it unchanged |
| Tooling.Supported | internal/tooling/tools.go:18-22 | a fresh array holding the seven supported tools in order |
| Tooling.Validate | internal/tooling/tools.go:24-34 | succeeds exactly for a supported tool; the empty name is "tool is required"; any other name is "unsupported tool" with the list |
| Tooling.CodeMintNotSupported | internal/tooling/tools.go:5-16 | `codemint` is not a selectable tool; every listed tool is valid and non-empty |
| Config.ConfigFile | internal/config/config.go:25-32 | the explicit path, or `<home>/.config/codemint/config.json`, or the home-directory error |
| Config.Load | internal/config/config.go:23-53 | the imperative layering computes exactly `Layered` |
| Config.DefaultsWithoutSources | internal/config/config.go:24 | with no file, no environment and no override the result is the built-in defaults |
| Config.LoadFailures | internal/config/config.go:26-38 | loading fails exactly when the home directory is unknown or the file cannot be decoded; the latter is "invalid config file" |
| Config.OverrideWins | internal/config/config.go:46-51 | a non-empty override always decides the field |
| Config.EnvironmentBeatsFile | internal/config/config.go:34-45 | without an override, a set environment variable decides the field; otherwise the file's value or the default does |
| ToolSelect.ParseSelection | cmd/tool_select.go:65-78 | a blank line is "no selection provided"; a number picks that tool or is an invalid selection; a word must be a supported tool; any success is supported |
| ToolSelect.EveryNameSelectsItself | cmd/tool_select.go:75-78 | typing a supported tool's name selects it |
| ToolSelect.NumberSelects | cmd/tool_select.go:69-73 | typing k+1 selects the k-th supported tool |
| ToolSelect.BlankSelects | cmd/tool_select.go:65-68 | a line of white space is "no selection provided" |
| ToolSelect.PromptAITool | cmd/tool_select.go:53-79 | a read error is returned as it is; otherwise the line's selection, always a supported tool |
| ToolSelect.NoToolText | cmd/tool_select.go:40 | "no AI tool selected. run add with --tool <name> (supported: ", then the tools joined by ", ", then ")" |
| ToolSelect.NoToolError | cmd/tool_select.go:39-41 | the error lists the supported tools |
| ToolSelect.Resolution | cmd/tool_select.go:14-51 | a chosen tool is supported; the settings change only to record it over loadable settings; unreadable settings are an error; a valid override, and an answer read at the prompt, are saved to the settings and returned |
| ToolSelect.ResolutionPrecedence | cmd/tool_select.go:14-51 | a valid override wins and is saved, an invalid one fails with its validation error and saves nothing; then a valid saved tool wins without a write; then non-interactive use fails with "no AI tool selected. run add with --tool <name> (supported: …)" and saves nothing; interactive use saves the answer it reads, or returns its error and saves nothing |
| ToolSelect.ResolveAITool | cmd/tool_select.go:14-51 | returns the tool and updates the settings exactly as `Resolution`; the manifest is untouched |
| ToolSelect.UseOverride | cmd/tool_select.go:15-28 | the override branch as `Resolution` says |
| ToolSelect.UseSavedOrAsk | cmd/tool_select.go:30-50 | the saved-or-prompt branch as `Resolution` says |
| AddCommand.Upsert | cmd/add.go:86-90 | replaces the first entry with the same catalog id, or appends when there is none |
| AddCommand.UpsertFinds | cmd/add.go:86-90 | afterwards the entry is found by its id; the list grows by at most one; entries with other ids stay in place |
| AddCommand.UpsertIdempotent | cmd/add.go:86-90 | recording the same entry twice equals recording it once |
| AddCommand.NewEntry | cmd/add.go:75-85 | the entry takes id, type, slug and version from the item, the ref as typed, the tool, the installed path, and the item's checksum or else the installed one |
| AddCommand.Finish | cmd/add.go:50-93 | unchanged when the same version is installed; a plan on dry run; otherwise install, upsert and save sorted, or the install error with nothing written |
| AddCommand.Add | cmd/add.go:21-101 | the argument-count, identifier and token errors come first; the catalog is asked once, for the parsed type and slug; after that the command is `ResolvedAdd` for the parsed reference (see AddResolved) |
| AddCommand.AddResolved | cmd/add.go:33-93 | `ResolvedAdd`: the catalog error, then the manifest load error, then the tool-choice error, each with nothing written but the tool choice's save; otherwise `Finish` on the normalised catalog answer, the loaded manifest and the tool `Resolution` chose |
| AddCommand.ResolvedAddRecords | cmd/add.go:33-93 | a successful add asked the catalog, loaded the manifest and chose a tool; an added entry holds the ref, the normalised catalog id and version, and the chosen tool, and is in the saved manifest; a plan carries the same values; the outcome is Unchanged exactly when that version is already recorded |
| RemoveCommand.TargetPath | cmd/remove.go:40-43 | the recorded path, or the tool's item path when none was recorded |
| RemoveCommand.RemoveAt | cmd/remove.go:48 | drops exactly the entry at the index and keeps the others in order |
| RemoveCommand.AddThenRemove | cmd/remove.go:35-48 | removing a freshly added entry by its ref restores the list |
| RemoveCommand.RemoveLoaded | cmd/remove.go:35-51 | a missing ref is "not installed"; otherwise its file is deleted and the manifest saved without the entry |
| RemoveCommand.Remove | cmd/remove.go:18-57 | argument-count, identifier and load errors change nothing; otherwise as `RemoveLoaded` for the loaded manifest |
| SyncCommand.FirstSync | cmd/sync.go:116-123 | the first result for the catalog id; none exactly when there is no result for it |
| SyncCommand.Lookup | cmd/sync.go:116-123 | a result for the id from the list; none exactly when there is none |
| SyncCommand.LookupSync | cmd/sync.go:116-123 | the loop returns exactly `Lookup` |
| SyncCommand.Classify | cmd/sync.go:61-75 | gone exactly when missing or removed; current exactly when the latest version is empty or equal; otherwise an upgrade to the new version and checksum |
| SyncCommand.Recorded | cmd/sync.go:87-93 | the upgraded entry records the install path, the tool, the normalised ref, and a checksum taken from the catalog or else from the install |
| SyncCommand.ReplaceFirst | cmd/sync.go:94-96 | replaces the first entry with the id, and changes nothing when there is none |
| SyncCommand.Upgraded | cmd/sync.go:79-96 | the tool is the entry's, else the saved default; it succeeds exactly when installing the latest item for that tool does, with that error otherwise; the files are the install's; the first slot with the entry's catalog id holds `Recorded` of the upgrade and the install result, every other slot is unchanged; the plan is kept |
| SyncCommand.Step | cmd/sync.go:61-96 | one item keeps the number of entries |
| SyncCommand.StepPlacesOnce | cmd/sync.go:61-97 | each item lands in exactly one of removed, same or upgrade; only upgrades touch files or entries; dry runs touch nothing |
| SyncCommand.StepWritesFirstSlot | cmd/sync.go:94-96 | an upgrade rewrites only the first entry with that id |
| SyncCommand.StepKeepsRest | cmd/sync.go:94-96 | processing entry k leaves the entries after it unchanged |
| SyncCommand.SyncFromCounts | cmd/sync.go:60-97 | a completed loop puts every item in the plan once |
| SyncCommand.DryRunChangesNothing | cmd/sync.go:76-78 | a dry run never fails and leaves entries and files as they were |
| SyncCommand.SyncPartition | cmd/sync.go:60-97 | the plan's three lists together hold as many items as the manifest; a dry run changes nothing |
| SyncCommand.InstallUpgrade | cmd/sync.go:79-96 | installs and records the upgrade as `Upgraded` says, and changes no file on failure |
| SyncCommand.SyncOne | cmd/sync.go:61-96 | one loop iteration in place is exactly `Step` |
| SyncCommand.SyncLoop | cmd/sync.go:60-97 | the loop's plan, entries, files and error are exactly those of `SyncFrom` |
| SyncCommand.SyncResults | cmd/sync.go:52-55 | a successful sync answer has one result per item |
| SyncCommand.SyncItems | cmd/sync.go:48-51 | one request item per manifest entry, with its id, version and checksum |
| SyncCommand.Sync | cmd/sync.go:27-110 | token and load errors are returned as they are and change nothing; an empty manifest sends no request; a failed request changes nothing; otherwise it runs the loop and saves the sorted manifest unless it was a dry run or an install failed |
| SuggestCommand.MatchCount | cmd/suggest.go:73-82 | at most the number of item tags, and zero exactly when no item tag was detected |
| SuggestCommand.ReasonCases | cmd/suggest.go:72-90 | "Matched n detected tags" exactly when a tag matches; otherwise the deprecated or the general reason, each exactly in its case |
| SuggestCommand.ReasonForItem | cmd/suggest.go:72-90 | the counting loop gives exactly `Reason` |
| SuggestCommand.TypesFor | cmd/suggest.go:37-40 | rule then skill, or only the requested type |
| SuggestCommand.CatalogSuggestConverts | internal/api/client.go:91-101 | the request asks for the latest version, page 1 and 50 hits of the type; each hit becomes its `ItemToCatalog`, in order |
| SuggestCommand.SuggestionsOf | cmd/suggest.go:47-50 | one suggestion per item, in order, with the normalised ref, the reason and the tags |
| SuggestCommand.SuggestionsAppend | cmd/suggest.go:42-51 | suggestions for two lists of types are those of the first followed by those of the second, stopping at the first error |
| SuggestCommand.DefaultTypesOrder | cmd/suggest.go:37-51 | without `--type`, rules come before skills and either failure fails the command |
| SuggestCommand.SuggestionsFor | cmd/suggest.go:47-50 | the loop builds exactly `SuggestionsOf` |
| SuggestCommand.SuggestLoop | cmd/suggest.go:42-51 | the loop returns exactly `Suggestions`, and queries every type when it succeeds |
| SuggestCommand.Suggest | cmd/suggest.go:27-51 | token and scan errors are returned before any query; otherwise the suggestions for the chosen types |

## Left out

- HTTP is not modelled. This covers `do`, with its retries, back-off, headers and JSON decoding. It also covers `parseAPIError`, `transient`, `NewClient`, `AuthMe` and `OrgList`, and the URL escaping of `CatalogGetByRef`.
- Each server answer is a parameter instead:
  - `server` answers one sync batch;
  - `search` answers one search;
  - `resolve` answers `CatalogGetByRef`.
- internal/auth, the token store and `tokenFromStore` are not part of this model. The token arrives as a parameter, either a token or its error.
- `scan.Detect` is not part of this model. `suggest` receives the detected tags or the scan error.
- Printing is not modelled: text output, JSON output and tables. Where a command prints instead of failing, the model returns a value saying what happened.
- The other commands are not part of this model: `version`, `auth`, `doctor`, `items`, `list`, `org`, `scan` and `tool`. Neither is `PersistentPreRunE` of cmd/root.go beyond config loading. The hooks of the dispatcher are oracle functions.
- `Command.Execute` reads `os.Args` and the context. It is not modelled; `Cobra.Execute` takes the token vector. Contexts and the `parent` pointer are dropped because `execute` never reads them.
- `InstalledAt` and `time.Now` are not modelled.
- JSON encoding and decoding of the manifest, the settings and the config file is not modelled. A stored file is either missing, unreadable or broken, or decoded. A config file that decodes sets only the fields it holds.
- File-system failures are not modelled: `EnsureDir`, `AtomicWriteFile`, `Save`, `SaveSettings`, and `os.Remove` errors other than "does not exist". The model takes writes to succeed.
- Install.Disk.RemovePath: does not model the removal of a directory left empty, because directories are not part of the file map.
- Paths are sequences of segments below the project root, so `filepath.Join` cleaning is not modelled. Slugs and tool names are taken to hold no separator.
- Text is ASCII. `unicode.IsSpace` is the six ASCII white-space characters, and `strings.ToLower` folds only A-Z.
- Flags.ParseInt: accepts only plain decimal. Go's base-0 forms (`0x…`, `0o…`, `0b…`, leading-zero octal, `_` separators) are rejected.
- `%q` in error texts is written as plain double quotes, which is what it prints for text without quotes, backslashes or unprintable characters. `%v` of the supported list is written as Go prints a string slice: `[` and the names separated by spaces, then `]`.
- Cobra.Execute: requires every child to have a first word in its `Use` (part of `Cobra.Valid`). Go's descent skips a child with a blank `Use`, and only `help()` panics on one. Trees with such a child are not modelled.
- Flags.FlagSet.StringVar, BoolVar, IntVar and StringSliceVar require a name not yet declared and without a leading `-` or an `=`. Go's `flag` package panics on these.
- CobraScenarios: the scenarios use a root whose only child is `add`. They do not use the full twelve-command tree of cmd/root.go, in the same way the tests build small trees.
- SyncCommand.Sync: the plan returned when an install fails mid-loop is not stated. The Go code returns only the error, and the model says the manifest is then unchanged.
- Go's `sort.Slice` is not stable, so entries with equal type and slug may come out in any order. Manifest.Store.Save states sortedness and permutation only, not one particular order.
