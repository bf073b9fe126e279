/** Where internal/install/installer.go puts an item for each AI tool, what it
    writes there, and the checks `Install` makes before touching a file.
    A path is a sequence of segments below the project root; joining and
    cleaning them (`filepath.Join`) is left to the file system, so slugs are
    taken to hold no separator and no `.`/`..` segment. */
module Install {
  import opened Wrappers
  import opened GoStrings
  import opened Tooling
  import opened Catalog
  import opened Api

  type Path = seq<string>

  /** The directory an item of type `kind` goes to for `tool`. */
  function ItemDir(root: Path, tool: string, kind: string): (r: Path)
    ensures root <= r && (|r| == |root| + 1 || |r| == |root| + 2)
    ensures |r| == |root| + 1 <==> tool == Cline && kind != TypeSkill
  {
    if tool == Cursor then
      if kind == TypeSkill then root + [".cursor", "skills"] else root + [".cursor", "rules"]
    else if tool == Cline then
      if kind == TypeSkill then root + [".cline", "skills"] else root + [".clinerules"]
    else if tool == Windsurf then
      if kind == TypeSkill then root + [".windsurf", "skills"] else root + [".windsurf", "rules"]
    else if tool == Continue then
      if kind == TypeSkill then root + [".continue", "skills"] else root + [".continue", "rules"]
    else if tool == Copilot then root + [".github", "instructions"]
    else if tool == Claude then
      if kind == TypeSkill then root + [".claude", "skills"] else root + [".claude", "rules"]
    else if tool == Codex then root + [".codex", kind + "s"]
    else root + [".codemint", kind + "s"]
  }

  /** `"." + t`, spelled out for each tool with its own directory. */
  lemma DotNames()
    ensures "." + Cursor == ".cursor" && "." + Cline == ".cline" && "." + Windsurf == ".windsurf"
    ensures "." + Continue == ".continue" && "." + Claude == ".claude"
  {
    assert forall i :: 0 <= i < |"." + Cursor| ==> ("." + Cursor)[i] == ".cursor"[i];
    assert forall i :: 0 <= i < |"." + Cline| ==> ("." + Cline)[i] == ".cline"[i];
    assert forall i :: 0 <= i < |"." + Windsurf| ==> ("." + Windsurf)[i] == ".windsurf"[i];
    assert forall i :: 0 <= i < |"." + Continue| ==> ("." + Continue)[i] == ".continue"[i];
    assert forall i :: 0 <= i < |"." + Claude| ==> ("." + Claude)[i] == ".claude"[i];
  }

  /** Skills of cursor, cline, windsurf, continue and claude live in
      `.<tool>/skills`; their rules in `.cursor/rules`, `.clinerules`,
      `.windsurf/rules`, `.continue/rules` and `.claude/rules`. */
  lemma SkillAndRuleDirs(root: Path, tool: string, kind: string)
    requires tool in {Cursor, Cline, Windsurf, Continue, Claude}
    ensures kind == TypeSkill ==> ItemDir(root, tool, kind) == root + ["." + tool, "skills"]
    ensures kind != TypeSkill && tool != Cline ==> ItemDir(root, tool, kind) == root + ["." + tool, "rules"]
    ensures kind != TypeSkill && tool == Cline ==> ItemDir(root, tool, kind) == root + [".clinerules"]
  {
    DotNames();
  }

  /** Copilot ignores the type; codex keeps a directory per type, and every
      other tool name, "codemint" included, falls back to `.codemint/<type>s`. */
  lemma OtherToolDirs(root: Path, tool: string, kind: string)
    ensures tool == Copilot ==> ItemDir(root, tool, kind) == root + [".github", "instructions"]
    ensures tool == Codex ==> ItemDir(root, tool, kind) == root + [".codex", kind + "s"]
    ensures !ValidTool(tool) ==> ItemDir(root, tool, kind) == root + [".codemint", kind + "s"]
    ensures ItemDir(root, CodeMint, kind) == root + [".codemint", kind + "s"]
  {
    CodeMintNotSupported();
  }

  /** Whether `tool` keeps each skill in a directory of its own. */
  predicate SkillFolder(tool: string, kind: string) {
    kind == TypeSkill && (tool == Cursor || tool == Cline)
  }

  /** The file extension of an item file: `.mdc` for cursor, `.instructions.md`
      for copilot, `.md` for everything else. */
  function Ext(tool: string): string {
    if tool == Cursor then ".mdc" else if tool == Copilot then ".instructions.md" else ".md"
  }

  /** The file-name prefix: `skill-` for skills of copilot, windsurf, continue
      and claude, which share one directory with rules or with each other. */
  function NamePrefix(tool: string, kind: string): string {
    if kind == TypeSkill && (tool == Copilot || tool == Windsurf || tool == Continue || tool == Claude) then "skill-" else ""
  }

  /** `ItemPath(tool, type, slug)`: the file an item is written to. */
  function ItemPath(root: Path, tool: string, kind: string, slug: string): (r: Path)
    ensures ItemDir(root, tool, kind) <= r
    ensures SkillFolder(tool, kind) ==> r == ItemDir(root, tool, kind) + [slug, "SKILL.md"]
    ensures !SkillFolder(tool, kind) ==> r == ItemDir(root, tool, kind) + [NamePrefix(tool, kind) + slug + Ext(tool)]
  {
    var dir := ItemDir(root, tool, kind);
    assert "" + slug == slug;
    if tool == Cursor then
      if kind == TypeSkill then dir + [slug, "SKILL.md"] else dir + [slug + ".mdc"]
    else if tool == Copilot then
      var name := if kind == TypeSkill then "skill-" + slug else slug;
      dir + [name + ".instructions.md"]
    else if tool == Cline then
      if kind == TypeSkill then dir + [slug, "SKILL.md"] else dir + [slug + ".md"]
    else if tool == Windsurf || tool == Continue || tool == Claude then
      var name := if kind == TypeSkill then "skill-" + slug else slug;
      dir + [name + ".md"]
    else dir + [slug + ".md"]
  }

  /** `a + b` is the literal `c`. */
  lemma Concat(a: string, b: string, c: string)
    requires |a| + |b| == |c|
    requires forall i :: 0 <= i < |a| ==> a[i] == c[i]
    requires forall i :: 0 <= i < |b| ==> b[i] == c[|a| + i]
    ensures a + b == c
  {
  }

  /** internal/install/installer_test.go: the four tabled cursor and cline
      paths. */
  lemma ItemPathTableCursorCline(root: Path)
    ensures ItemPath(root, Cursor, "rule", "react-best") == root + [".cursor", "rules", "react-best.mdc"]
    ensures ItemPath(root, Cursor, "skill", "node-js") == root + [".cursor", "skills", "node-js", "SKILL.md"]
    ensures ItemPath(root, Cline, "rule", "safe-api") == root + [".clinerules", "safe-api.md"]
    ensures ItemPath(root, Cline, "skill", "node-js") == root + [".cline", "skills", "node-js", "SKILL.md"]
  {
    Concat("react-best", ".mdc", "react-best.mdc");
    Concat("safe-api", ".md", "safe-api.md");
    assert root + [".cursor", "rules"] + ["react-best.mdc"] == root + [".cursor", "rules", "react-best.mdc"];
    assert root + [".cursor", "skills"] + ["node-js", "SKILL.md"] == root + [".cursor", "skills", "node-js", "SKILL.md"];
    assert root + [".clinerules"] + ["safe-api.md"] == root + [".clinerules", "safe-api.md"];
    assert root + [".cline", "skills"] + ["node-js", "SKILL.md"] == root + [".cline", "skills", "node-js", "SKILL.md"];
  }

  /** internal/install/installer_test.go: the three tabled copilot and codex
      paths. */
  lemma ItemPathTableCopilotCodex(root: Path)
    ensures ItemPath(root, Copilot, "rule", "secure") == root + [".github", "instructions", "secure.instructions.md"]
    ensures ItemPath(root, Codex, "rule", "secure") == root + [".codex", "rules", "secure.md"]
    ensures ItemPath(root, Codex, "skill", "node-js") == root + [".codex", "skills", "node-js.md"]
  {
    Concat("secure", ".instructions.md", "secure.instructions.md");
    Concat("secure", ".md", "secure.md");
    Concat("node-js", ".md", "node-js.md");
    Concat("rule", "s", "rules");
    Concat("skill", "s", "skills");
    assert root + [".github", "instructions"] + ["secure.instructions.md"] == root + [".github", "instructions", "secure.instructions.md"];
    assert root + [".codex", "rules"] + ["secure.md"] == root + [".codex", "rules", "secure.md"];
    assert root + [".codex", "skills"] + ["node-js.md"] == root + [".codex", "skills", "node-js.md"];
  }

  /** `BackupPath(tool, type, slug)`: where a replaced file is kept. */
  function BackupPath(root: Path, tool: string, kind: string, slug: string): (r: Path)
    ensures |r| == |root| + 4 && root <= r && r[|root|] == ".codemint" && r[|root| + 1] == "backup"
    ensures r[|root| + 2] == kind + "s" && r[|root| + 3] == slug + ".bak"
  {
    root + [".codemint", "backup", kind + "s", slug + ".bak"]
  }

  /** The backup of an item depends on its type and slug, never on the tool;
      and for a rule or a skill it is never the item's own file. */
  lemma BackupPathProperties(root: Path, tool: string, other: string, kind: string, slug: string)
    ensures BackupPath(root, tool, kind, slug) == BackupPath(root, other, kind, slug)
    ensures KnownType(kind) ==> BackupPath(root, tool, kind, slug) != ItemPath(root, tool, kind, slug)
  {
    if KnownType(kind) {
      var p := ItemPath(root, tool, kind, slug);
      if |p| == |root| + 4 {
        assert SkillFolder(tool, kind);
        assert p[|root|] != ".codemint";
      }
    }
  }

  /** `safeTitle(item)`: the title, else the name, else the slug. */
  function SafeTitle(item: CatalogItem): (r: string)
    ensures r == FirstNonEmpty([item.title, item.name, item.slug])
  {
    FirstOfThree(item.title, item.name, item.slug);
    if item.title != "" then item.title else if item.name != "" then item.name else item.slug
  }

  /** The lines of the Markdown written for an item the catalog sent
      without content: a heading, a blank line, four facts, and the empty
      piece after the final line break. */
  function DefaultLines(item: CatalogItem): seq<string> {
    ["# " + item.name, "", "- Type: " + item.kind, "- Ref: " + NormalizeRef(item.kind, item.slug),
     "- Catalog ID: " + item.catalogId, "- Version: " + item.version, ""]
  }

  /** No line break in the fields `defaultContent` prints. */
  predicate OneLineFields(item: CatalogItem) {
    '\n' !in item.name && '\n' !in item.kind && '\n' !in item.slug && '\n' !in item.catalogId
    && '\n' !in item.version
  }

  /** The Markdown written for an item the catalog sent without content:
      the lines of `DefaultLines` joined by line breaks. */
  function DefaultContent(item: CatalogItem): (r: string)
    ensures "# " + item.name + "\n" <= r
    ensures r != ""
    ensures OneLineFields(item) ==> Split(r, '\n') == DefaultLines(item)
  {
    var lines := DefaultLines(item);
    if OneLineFields(item) then
      assert '\n' !in NormalizeRef(item.kind, item.slug);
      assert forall i :: 0 <= i < |lines| ==> '\n' !in lines[i];
      SplitJoin(lines, '\n');
      Join(lines, "\n")
    else Join(lines, "\n")
  }

  /** The lines of the Cursor front matter with description `title`. */
  function FrontMatterLines(title: string): seq<string> {
    ["---", "description: " + title, "alwaysApply: false", "---", ""]
  }

  /** The Cursor front matter wrapped around `content`: the front matter
      lines, then the lines of `content`, then the empty piece after the
      final line break. */
  function FrontMatter(title: string, content: string): (r: string)
    ensures "---\n" <= r
    ensures |r| > |content| && r[|r| - |content| - 1..] == content + "\n"
    ensures '\n' !in title ==> Split(r, '\n') == FrontMatterLines(title) + Split(content, '\n') + [""]
  {
    var lines := FrontMatterLines(title);
    var head := Join(lines, "\n");
    JoinHead(lines, '\n');
    assert "---" + "\n" <= head + "\n" + content + "\n";
    if '\n' !in title then
      assert forall i :: 0 <= i < |lines| ==> '\n' !in lines[i];
      SplitLinesThen(lines, content, '\n');
      head + "\n" + content + "\n"
    else head + "\n" + content + "\n"
  }

  /** Whether content already opens with front matter. */
  predicate HasFrontMatter(content: string) {
    "---" <= TrimSpace(content)
  }

  /** `renderForTool(tool, item, content)`: only Cursor files get front matter,
      and only when the content has none. */
  function RenderForTool(tool: string, item: CatalogItem, content: string): (r: string)
    ensures tool != Cursor || HasFrontMatter(content) ==> r == content
    ensures tool == Cursor && !HasFrontMatter(content) ==> r == FrontMatter(SafeTitle(item), content)
  {
    if tool != Cursor then content
    else if HasFrontMatter(content) then content
    else FrontMatter(SafeTitle(item), content)
  }

  /** What `RenderForTool` adds counts as front matter itself. */
  lemma FrontMatterDetected(title: string, content: string)
    ensures HasFrontMatter(FrontMatter(title, content))
  {
    var s := FrontMatter(title, content);
    assert s[0] == '-' && s[1] == '-' && s[2] == '-';
    var l := TrimLeftSpace(s);
    assert l == s;
    var t := TrimRightSpace(l);
    assert !IsSpace(l[2]);
    assert |t| >= 3;
    assert t[..3] == s[..3];
  }

  /** Rendering is idempotent: a rendered file is left as it is. */
  lemma RenderIdempotent(tool: string, item: CatalogItem, content: string)
    ensures RenderForTool(tool, item, RenderForTool(tool, item, content)) == RenderForTool(tool, item, content)
  {
    if tool == Cursor && !HasFrontMatter(content) {
      FrontMatterDetected(SafeTitle(item), content);
    }
  }

  /** What `Install` decides before touching a file: the tool, the target
      file and the text written. */
  datatype Placement = Placement(tool: string, path: Path, content: string)

  /** The checks and choices at the top of `Install(item, tool)`: only rules
      and skills, "codemint" for no tool, generated text for an item without
      content, then rendering for the tool. */
  function InstallPlan(root: Path, item: CatalogItem, tool: string): (r: Result<Placement, string>)
    ensures r.Failure? <==> !KnownType(item.kind)
    ensures r.Failure? ==> r.error == "unsupported item type: " + item.kind
    ensures r.Success? ==> r.value.tool != "" && (tool != "" ==> r.value.tool == tool)
                           && (tool == "" ==> r.value.tool == CodeMint)
    ensures r.Success? ==> r.value.path == ItemPath(root, r.value.tool, item.kind, item.slug)
    ensures r.Success? ==> r.value.content != ""
    ensures r.Success? && r.value.tool != Cursor ==> r.value.content == FirstNonEmpty([item.content, DefaultContent(item)])
    ensures r.Success? && r.value.tool == Cursor ==> HasFrontMatter(r.value.content)
    ensures r.Success? ==> r.value.content == RenderForTool(r.value.tool, item, FirstNonEmpty([item.content, DefaultContent(item)]))
  {
    if item.kind != TypeRule && item.kind != TypeSkill then Failure("unsupported item type: " + item.kind)
    else
      var t := if tool == "" then CodeMint else tool;
      var content := OrElse(item.content, DefaultContent(item));
      assert content != "" && (content != item.content ==> content == DefaultContent(item));
      var rendered := RenderForTool(t, item, content);
      assert rendered != "" && (t == Cursor ==> HasFrontMatter(rendered)) by {
        if t == Cursor && !HasFrontMatter(content) {
          FrontMatterDetected(SafeTitle(item), content);
        }
      }
      Success(Placement(t, ItemPath(root, t, item.kind, item.slug), rendered))
  }

  /** `InstallResult`: the file written and the checksum of its content. */
  datatype InstallResult = InstallResult(path: Path, checksum: string)

  /** What `Install(item, tool)` does to a file tree `files`, with `SHA256Hex` as
      `hash`: the plan's text goes to the plan's path, and a non-empty file
      already there is first copied to the backup path. Directory creation and
      write failures are not modelled. */
  function InstallOutcome(files: map<Path, string>, root: Path, item: CatalogItem, tool: string, hash: string -> string)
    : (r: Result<(InstallResult, map<Path, string>), string>)
    ensures r.Failure? <==> !KnownType(item.kind)
    ensures r.Failure? ==> r.error == "unsupported item type: " + item.kind
    ensures r.Success? ==>
      var p := InstallPlan(root, item, tool).value;
      var (res, after) := r.value;
      var backup := BackupPath(root, p.tool, item.kind, item.slug);
      res == InstallResult(p.path, hash(p.content))
      && p.path in after && after[p.path] == p.content
      && (p.path in files && files[p.path] != "" ==> backup in after && after[backup] == files[p.path])
      && (forall f :: f in files && f != p.path && (f != backup || p.path !in files || files[p.path] == "") ==>
            f in after && after[f] == files[f])
      && after.Keys == files.Keys + {p.path} + (if p.path in files && files[p.path] != "" then {backup} else {})
  {
    match InstallPlan(root, item, tool)
    case Failure(e) => Failure(e)
    case Success(p) =>
      var backup := BackupPath(root, p.tool, item.kind, item.slug);
      BackupPathProperties(root, p.tool, p.tool, item.kind, item.slug);
      var saved := if p.path in files && files[p.path] != "" then files[backup := files[p.path]] else files;
      Success((InstallResult(p.path, hash(p.content)), saved[p.path := p.content]))
  }

  /** The project's files: each path holds the text of a file. Directories
      are implied by the paths and are not modelled. */
  class Disk {
    var files: map<Path, string>

    constructor(files: map<Path, string>)
      ensures this.files == files
    {
      this.files := files;
    }

    /** `Manager.Install(item, tool)` for a manager rooted at `root`. */
    method Install(root: Path, item: CatalogItem, tool: string, hash: string -> string)
      returns (r: Result<InstallResult, string>)
      modifies this
      ensures r.Failure? <==> InstallOutcome(old(files), root, item, tool, hash).Failure?
      ensures r.Failure? ==> r.error == InstallOutcome(old(files), root, item, tool, hash).error
                             && files == old(files)
      ensures r.Success? ==> (r.value, files) == InstallOutcome(old(files), root, item, tool, hash).value
    {
      match InstallOutcome(files, root, item, tool, hash)
      case Failure(e) =>
        r := Failure(e);
      case Success((res, after)) =>
        files := after;
        r := Success(res);
    }

    /** `Manager.RemovePath(path)`: the file is gone afterwards, whether or
        not it was there; nothing else changes. */
    method RemovePath(path: Path) returns (removed: Path)
      modifies this
      ensures removed == path
      ensures path !in files && files == old(files) - {path}
    {
      files := files - {path};
      removed := path;
    }
  }
}
