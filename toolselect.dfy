/** Choosing the AI tool of a project, cmd/tool_select.go: an explicit
    choice, the saved setting, or an answer typed at a prompt. The line read
    from standard input is a parameter (the text, or the read error); the
    prompt's printing is not modelled. */
module ToolSelect {
  import opened Wrappers
  import opened GoStrings
  import opened ApiErrors
  import opened Tooling
  import opened Manifest

  /** The text of a `Validate` error. `%q` is taken to add plain double
      quotes, which is what it does for printable text without quotes or
      backslashes. */
  function ToolErrorText(e: ToolError): string {
    match e
    case ToolRequired => "tool is required"
    case UnsupportedTool(tool, supported) =>
      "unsupported tool \"" + tool + "\" (supported: [" + Join(supported, " ") + "])"
  }

  /** The error `Validate` gives for a tool it rejects. */
  function ValidateError(tool: string): Error {
    Other(ToolErrorText(if tool == "" then ToolRequired else UnsupportedTool(tool, SupportedTools)))
  }

  /** How `promptAITool` reads an answer: lower-cased and trimmed; a number
      picks from the listed tools counting from 1, anything else must be a
      supported tool's name. */
  function ParseSelection(line: string): (r: Result<string, Error>)
    ensures r.Success? ==> ValidTool(r.value)
    ensures TrimSpace(ToLower(line)) == "" ==> r == Failure(Other("no selection provided"))
    ensures Atoi(TrimSpace(ToLower(line))).Some? ==>
              var n := Atoi(TrimSpace(ToLower(line))).value;
              r == if 1 <= n <= |SupportedTools| then Success(SupportedTools[n - 1])
                   else Failure(Other("invalid selection " + Itoa(n)))
    ensures TrimSpace(ToLower(line)) != "" && Atoi(TrimSpace(ToLower(line))).None? ==>
              r == if ValidTool(TrimSpace(ToLower(line))) then Success(TrimSpace(ToLower(line)))
                   else Failure(ValidateError(TrimSpace(ToLower(line))))
  {
    var s := TrimSpace(ToLower(line));
    if s == "" then Failure(Other("no selection provided"))
    else match Atoi(s)
      case Some(n) =>
        if n < 1 || n > |SupportedTools| then Failure(Other("invalid selection " + Itoa(n)))
        else Success(SupportedTools[n - 1])
      case None =>
        if !ValidTool(s) then Failure(ValidateError(s)) else Success(s)
  }

  /** A name made of letters is no number. */
  lemma LettersAreNoNumber(s: string)
    requires s != [] && 'a' <= s[0] <= 'z'
    ensures Atoi(s).None?
  {
    assert !AllDigits(s) by { assert !IsDigit(s[0]); }
  }

  /** Lower-casing leaves a word of lower-case letters as it is. */
  lemma LowerWordUnchanged(t: string)
    requires forall i :: 0 <= i < |t| ==> 'a' <= t[i] <= 'z'
    ensures ToLower(t) == t
  {
    forall i | 0 <= i < |t|
      ensures ToLower(t)[i] == t[i]
    {
      assert !('A' <= t[i] <= 'Z');
    }
  }

  /** A word of lower-case letters has no white space to trim. */
  lemma PlainWordTrimmed(t: string)
    requires t != [] && forall i :: 0 <= i < |t| ==> 'a' <= t[i] <= 'z'
    ensures TrimLeftSpace(t) == t && TrimRightSpace(t) == t
  {
    assert !IsSpace(t[0]) && !IsSpace(t[|t| - 1]);
  }

  /** A supported name, typed in lower case, selects itself. */
  lemma NameSelectsItself(t: string)
    requires ValidTool(t)
    requires forall i :: 0 <= i < |t| ==> 'a' <= t[i] <= 'z'
    ensures ParseSelection(t) == Success(t)
  {
    assert t != [];
    LowerWordUnchanged(t);
    PlainWordTrimmed(t);
    assert TrimSpace(ToLower(t)) == t;
    LettersAreNoNumber(t);
  }

  /** The names of the supported tools are such words, so each selects itself. */
  lemma EveryNameSelectsItself()
    ensures forall t :: ValidTool(t) ==> ParseSelection(t) == Success(t)
  {
    forall t | ValidTool(t)
      ensures ParseSelection(t) == Success(t)
    {
      assert forall i :: 0 <= i < |t| ==> 'a' <= t[i] <= 'z';
      NameSelectsItself(t);
    }
  }

  /** A single digit is its own lower case and trimmed form, and reads as
      its value. */
  lemma SingleDigit(d: nat)
    requires d < 10
    ensures var s := [DigitChar(d)];
            ToLower(s) == s && TrimSpace(s) == s && Atoi(s) == Some(d)
  {
    var s := [DigitChar(d)];
    assert IsDigit(s[0]) && !IsSpace(s[0]) && LowerChar(s[0]) == s[0];
    assert TrimLeftSpace(s) == s;
    assert s[..0] == [];
    assert DigitsValue(s) == s[0] as int - '0' as int == d;
  }

  /** The number `k + 1` selects the `k`-th listed tool. */
  lemma NumberSelects(k: nat)
    requires k < |SupportedTools|
    ensures ParseSelection(Itoa(k + 1)) == Success(SupportedTools[k])
  {
    assert Itoa(k + 1) == [DigitChar(k + 1)];
    SingleDigit(k + 1);
  }

  /** The answer for an empty line, or a line of white space only. */
  lemma BlankSelects(line: string)
    requires forall i :: 0 <= i < |line| ==> IsSpace(line[i])
    ensures ParseSelection(line) == Failure(Other("no selection provided"))
  {
    var l := ToLower(line);
    assert forall i :: 0 <= i < |l| ==> IsSpace(l[i]);
  }

  /** `promptAITool()`: the stdin line, or the error reading it. */
  function PromptAITool(input: Result<string, Error>): (r: Result<string, Error>)
    ensures r.Success? ==> ValidTool(r.value)
    ensures input.Failure? ==> r == Failure(input.error)
    ensures input.Success? ==> r == ParseSelection(input.value)
  {
    match input
    case Failure(e) => Failure(e)
    case Success(line) => ParseSelection(line)
  }

  /** The message of a run without a tool and without a terminal, listing
      the tools `supported`. */
  function NoToolText(supported: seq<string>): (r: string)
    ensures "no AI tool selected. run add with --tool <name> (supported: " <= r
    ensures var k := |"no AI tool selected. run add with --tool <name> (supported: "|;
            |r| == k + |Join(supported, ", ")| + 1 && r[k..|r| - 1] == Join(supported, ", ") && r[|r| - 1] == ')'
  {
    "no AI tool selected. run add with --tool <name> (supported: " + Join(supported, ", ") + ")"
  }

  /** The error of a run without a tool and without a terminal. */
  method NoToolError() returns (e: Error)
    ensures e == Other(NoToolText(SupportedTools))
  {
    var names := Supported();
    e := Other(NoToolText(names[..]));
  }

  /** The outcome of `resolveAITool` on the saved settings `saved`: the
      tool (or the error), and the settings afterwards. An explicit tool is
      validated, then saved; without one, a valid saved setting is used as
      it is; otherwise the user is asked, unless there is no terminal, and
      the answer is saved. Every tool returned is a supported one, and the
      settings change only to record the tool returned. */
  function Resolution(saved: Stored<Settings>, override: string, nonInteractive: bool, input: Result<string, Error>)
    : (r: (Result<string, Error>, Stored<Settings>))
    ensures r.0.Success? ==> ValidTool(r.0.value)
    ensures r.1 != saved ==>
              r.0.Success? && LoadedSettings(saved).Success? &&
              r.1 == Present(LoadedSettings(saved).value.(aiTool := r.0.value))
    ensures LoadedSettings(saved).Failure? && (override == "" || ValidTool(override)) ==>
              r == (Failure(LoadedSettings(saved).error), saved)
    ensures ValidTool(override) && LoadedSettings(saved).Success? ==>
              r == (Success(override), Present(LoadedSettings(saved).value.(aiTool := override)))
    ensures override == "" && LoadedSettings(saved).Success? && !ValidTool(LoadedSettings(saved).value.aiTool)
            && !nonInteractive && PromptAITool(input).Success? ==>
              r == (PromptAITool(input), Present(LoadedSettings(saved).value.(aiTool := PromptAITool(input).value)))
  {
    if override != "" then
      if !ValidTool(override) then (Failure(ValidateError(override)), saved)
      else match LoadedSettings(saved)
        case Failure(e) => (Failure(e), saved)
        case Success(s) => (Success(override), Present(s.(aiTool := override)))
    else match LoadedSettings(saved)
      case Failure(e) => (Failure(e), saved)
      case Success(s) =>
        if ValidTool(s.aiTool) then (Success(s.aiTool), saved)
        else if nonInteractive then
          (Failure(Other(NoToolText(SupportedTools))), saved)
        else match PromptAITool(input)
          case Failure(e) => (Failure(e), saved)
          case Success(t) => (Success(t), Present(s.(aiTool := t)))
  }

  /** The explicit tool wins over the saved one and is saved; a valid saved
      tool is used without asking and without writing; otherwise a run
      without a terminal fails with the "no AI tool selected" message, and an
      interactive one saves the answer it reads (or fails with its error,
      saving nothing). */
  lemma ResolutionPrecedence(saved: Stored<Settings>, override: string, nonInteractive: bool, input: Result<string, Error>)
    ensures ValidTool(override) && LoadedSettings(saved).Success? ==>
              Resolution(saved, override, nonInteractive, input)
                == (Success(override), Present(LoadedSettings(saved).value.(aiTool := override)))
    ensures override != "" && !ValidTool(override) ==>
              Resolution(saved, override, nonInteractive, input) == (Failure(ValidateError(override)), saved)
    ensures override == "" && saved.Present? && ValidTool(saved.value.aiTool) ==>
              Resolution(saved, override, nonInteractive, input) == (Success(saved.value.aiTool), saved)
    ensures override == "" && LoadedSettings(saved).Success? && !ValidTool(LoadedSettings(saved).value.aiTool) ==>
              (nonInteractive ==> Resolution(saved, override, nonInteractive, input) == (Failure(Other(NoToolText(SupportedTools))), saved)) &&
              (!nonInteractive ==> Resolution(saved, override, nonInteractive, input).0 == PromptAITool(input)) &&
              (!nonInteractive && PromptAITool(input).Failure? ==> Resolution(saved, override, nonInteractive, input).1 == saved) &&
              (!nonInteractive && PromptAITool(input).Success? ==>
                 Resolution(saved, override, nonInteractive, input).1 == Present(LoadedSettings(saved).value.(aiTool := PromptAITool(input).value)))
  {
  }

  /** `resolveAITool(store, override, nonInteractive)`, with the stdin line
      as `input`; the manifest is never touched. */
  method ResolveAITool(store: Store, override: string, nonInteractive: bool, input: Result<string, Error>)
    returns (r: Result<string, Error>)
    modifies store
    ensures store.manifest == old(store.manifest)
    ensures (r, store.settings) == Resolution(old(store.settings), override, nonInteractive, input)
  {
    if override != "" {
      r := UseOverride(store, override);
    } else {
      r := UseSavedOrAsk(store, nonInteractive, input);
    }
  }

  /** The path of `resolveAITool` with an explicit tool. */
  method UseOverride(store: Store, override: string) returns (r: Result<string, Error>)
    requires override != ""
    modifies store
    ensures store.manifest == old(store.manifest)
    ensures (r, store.settings) == Resolution(old(store.settings), override, false, Failure(Other("")))
  {
    var verr := Validate(override);
    if verr.Some? {
      return Failure(Other(ToolErrorText(verr.value)));
    }
    var loaded := store.LoadSettings();
    if loaded.Failure? {
      return Failure(loaded.error);
    }
    store.SaveSettings(loaded.value.(aiTool := override));
    return Success(override);
  }

  /** The path of `resolveAITool` without an explicit tool. */
  method UseSavedOrAsk(store: Store, nonInteractive: bool, input: Result<string, Error>) returns (r: Result<string, Error>)
    modifies store
    ensures store.manifest == old(store.manifest)
    ensures (r, store.settings) == Resolution(old(store.settings), "", nonInteractive, input)
  {
    var loaded := store.LoadSettings();
    if loaded.Failure? {
      return Failure(loaded.error);
    }
    var settings := loaded.value;
    if settings.aiTool != "" {
      var verr := Validate(settings.aiTool);
      if verr.None? {
        return Success(settings.aiTool);
      }
    }
    if nonInteractive {
      var e := NoToolError();
      return Failure(e);
    }
    var answer := PromptAITool(input);
    if answer.Failure? {
      return Failure(answer.error);
    }
    store.SaveSettings(settings.(aiTool := answer.value));
    return Success(answer.value);
  }
}
