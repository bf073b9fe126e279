/** The AI coding tools of internal/tooling/tools.go: their names, the list
    of supported ones, and `Validate`. */
module Tooling {
  import opened Wrappers

  const Cursor: string := "cursor"
  const Cline: string := "cline"
  const Windsurf: string := "windsurf"
  const Continue: string := "continue"
  const Copilot: string := "copilot"
  const Claude: string := "claude"
  const Codex: string := "codex"
  /** Declared beside the others, but not supported: the install target
      used when no tool is given. */
  const CodeMint: string := "codemint"

  /** The package's `supported` list, in declaration order. */
  const SupportedTools: seq<string> := [Cursor, Cline, Windsurf, Continue, Copilot, Claude, Codex]

  /** The tools `Validate` accepts. */
  predicate ValidTool(tool: string) {
    tool in SupportedTools
  }

  /** "tool is required", or "unsupported tool ... (supported: ...)". */
  datatype ToolError = ToolRequired | UnsupportedTool(tool: string, supported: seq<string>)

  /** `Supported()`: a fresh slice holding a copy of the supported names. */
  method Supported() returns (out: array<string>)
    ensures fresh(out)
    ensures out[..] == SupportedTools
  {
    out := new string[|SupportedTools|];
    for i := 0 to out.Length
      invariant out[..i] == SupportedTools[..i]
    {
      out[i] := SupportedTools[i];
    }
  }

  /** `Validate(tool)`: the empty name is required-missing; otherwise a
      search of the supported list. */
  method Validate(tool: string) returns (err: Option<ToolError>)
    ensures err.None? <==> ValidTool(tool)
    ensures tool == "" ==> err == Some(ToolRequired)
    ensures tool != "" && err.Some? ==> err == Some(UnsupportedTool(tool, SupportedTools))
  {
    if tool == "" {
      return Some(ToolRequired);
    }
    for i := 0 to |SupportedTools|
      invariant tool !in SupportedTools[..i]
    {
      if tool == SupportedTools[i] {
        return None;
      }
    }
    return Some(UnsupportedTool(tool, SupportedTools));
  }

  /** "codemint" is a tool constant that `Validate` rejects, and every
      supported name is accepted. */
  lemma CodeMintNotSupported()
    ensures !ValidTool(CodeMint)
    ensures forall i :: 0 <= i < |SupportedTools| ==> ValidTool(SupportedTools[i]) && SupportedTools[i] != ""
  {
  }
}
