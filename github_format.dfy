/**
 * The Markdown report built from the retrieved files (`formatOutput`,
 * `generateErrorReport`, `getLanguageFromExtension`, src/services/github.js),
 * with Node's `path.extname` for the fence language.
 */
module GitHubFormat {
  import opened Wrappers
  import opened JsString
  import opened GitHubFetch
  import opened Sequences

  /** The `submissionType` argument of `formatOutput`. */
  datatype SubmissionKind = Nested | Root | SrcOnly | SingleFileKind

  const Warning: string := "\U{26A0}\U{FE0F}"
  const Check: string := "\U{2705}"
  const Cross: string := "\U{274C}"
  const Pin: string := " \U{1F4CC}"

  const BlockHead: string := "### File: "
  const BlockTail: string := "\n```\n\n"

  // ---------------------------------------------------------------------------
  // path.extname and the language table

  /** The last path component after trailing slashes are dropped (what `extname` scans). */
  function Basename(path: string): (r: string)
    ensures '/' !in r
  {
    if path == [] then []
    else if path[|path| - 1] == '/' then Basename(path[..|path| - 1])
    else BasenameTail(path)
  }

  /** The text after the last slash. */
  function BasenameTail(path: string): (r: string)
    ensures '/' !in r
  {
    if path == [] then []
    else if path[|path| - 1] == '/' then []
    else BasenameTail(path[..|path| - 1]) + [path[|path| - 1]]
  }

  /** The index of the last `.` of `s`, if any. */
  function LastDot(s: string): (r: Option<nat>)
    ensures r.Some? ==> r.value < |s| && s[r.value] == '.'
                        && forall k :: r.value < k < |s| ==> s[k] != '.'
    ensures r.None? ==> '.' !in s
  {
    if s == [] then None
    else if s[|s| - 1] == '.' then Some(|s| - 1)
    else
      var r := LastDot(s[..|s| - 1]);
      assert s == s[..|s| - 1] + [s[|s| - 1]];
      r
  }

  /**
   * `path.extname(p).substring(1)`: the text after the last dot of the last component,
   * or "" when that component has no dot, starts with its only dot, or is `..`.
   */
  function Extension(path: string): (r: string)
    ensures '.' !in r && '/' !in r
  {
    var base := Basename(path);
    match LastDot(base)
    case None => ""
    case Some(d) =>
      if d == 0 || base == ".." then ""
      else
        var ext := base[d + 1..];
        assert forall k :: 0 <= k < |ext| ==> ext[k] == base[d + 1 + k];
        ext
  }

  /** The own properties of the extension table: each extension with its fence language. */
  const LanguageTable: map<string, string> := map[
    "js" := "javascript", "jsx" := "javascript", "ts" := "typescript", "tsx" := "typescript",
    "json" := "json", "md" := "markdown", "css" := "css", "html" := "html"]

  /** `getLanguageFromExtension` as intended: a table entry, or "" when there is none. */
  function LanguageFromExtension(ext: string): (lang: string)
    ensures ext in LanguageTable ==> lang == LanguageTable[ext]
    ensures ext !in LanguageTable ==> lang == ""
    ensures '\n' !in lang
  {
    if ext in LanguageTable then LanguageTable[ext] else ""
  }

  /**
   * `map[ext] || ""` as written: an extension that names an inherited property yields
   * that property, which the fence then renders as text.
   */
  function LanguageLookupAsWritten(ext: string): (lang: string)
    ensures ext in LanguageTable ==> lang == LanguageTable[ext]
    ensures ext !in LanguageTable && ext !in InheritedMethods && ext != "__proto__" ==> lang == ""
  {
    if ext in LanguageTable then LanguageTable[ext]
    else if ext == "__proto__" then "[object Object]"
    else if ext in InheritedMethods then NativeFunctionText(ext)
    else ""
  }

  lemma {:induction false} BasenameTailOf(dir: string, name: string)
    requires '/' !in name
    ensures BasenameTail(dir + "/" + name) == name
    decreases |name|
  {
    if name == [] {
      assert dir + "/" + name == dir + "/";
    } else {
      var init := name[..|name| - 1];
      assert (dir + "/" + name)[..|dir + "/" + name| - 1] == dir + "/" + init;
      BasenameTailOf(dir, init);
      assert init + [name[|name| - 1]] == name;
    }
  }

  lemma {:induction false} LastDotOf(stem: string, ext: string)
    requires '.' !in ext
    ensures LastDot(stem + "." + ext) == Some(|stem|)
    decreases |ext|
  {
    if ext == [] {
      assert stem + "." + ext == stem + ".";
    } else {
      var init := ext[..|ext| - 1];
      assert (stem + "." + ext)[..|stem + "." + ext| - 1] == stem + "." + init;
      LastDotOf(stem, init);
    }
  }

  /** The extension of `dir/stem.ext` is `ext` when the stem is not empty. */
  lemma ExtensionOf(dir: string, stem: string, ext: string)
    requires stem != [] && '/' !in stem && '/' !in ext && '.' !in ext
    ensures Extension(dir + "/" + stem + "." + ext) == ext
  {
    var path := dir + "/" + stem + "." + ext;
    var name := stem + "." + ext;
    assert path == dir + "/" + name;
    assert '/' !in name;
    assert path[|path| - 1] != '/' by {
      assert path[|path| - 1] == name[|name| - 1];
    }
    BasenameTailOf(dir, name);
    LastDotOf(stem, ext);
    Halves(stem + ".", ext);
  }

  /** A file named `<stem>.constructor` gets a fence language made of JavaScript source text. */
  lemma LanguageLookupAsWrittenLeaksPrototype(dir: string, stem: string)
    requires stem != [] && '/' !in stem
    ensures Extension(dir + "/" + stem + "." + "constructor") == "constructor"
    ensures LanguageLookupAsWritten("constructor") == "function Object() { [native code] }"
    ensures LanguageFromExtension("constructor") == ""
  {
    ExtensionOf(dir, stem, "constructor");
    ConstructorText();
  }

  /** The two lookups differ exactly on the names `Object.prototype` supplies. */
  lemma LanguageLookupsAgree(ext: string)
    ensures LanguageLookupAsWritten(ext) == LanguageFromExtension(ext)
            <==> ext in LanguageTable || (ext !in InheritedMethods && ext != "__proto__")
  {
    if ext !in LanguageTable && ext in InheritedMethods {
      assert LanguageLookupAsWritten(ext)[0] == 'f';
    }
  }

  // ---------------------------------------------------------------------------
  // formatOutput

  function Flag(b: bool): string {
    if b then Check else Cross
  }

  /** `files.some((f) => test(f.path))`. */
  predicate AnyPath(files: seq<SourceFile>, test: string -> bool) {
    files != [] && (test(files[0].path) || AnyPath(files[1..], test))
  }

  lemma {:induction false} AnyPathExists(files: seq<SourceFile>, test: string -> bool)
    ensures AnyPath(files, test) <==> exists k :: 0 <= k < |files| && test(files[k].path)
    decreases |files|
  {
    if files != [] {
      AnyPathExists(files[1..], test);
      if exists k :: 0 <= k < |files| && test(files[k].path) {
        var k :| 0 <= k < |files| && test(files[k].path);
        if k > 0 {
          assert files[1..][k - 1] == files[k];
        }
      }
    }
  }

  predicate NamesPackageJson(path: string) {
    Contains(path, "package.json")
  }

  predicate NamesAppFile(path: string) {
    Contains(path, "App.")
  }

  predicate NamesComponent(path: string) {
    Contains(ToLowerAscii(path), "component")
  }

  predicate HasPackageJson(files: seq<SourceFile>) {
    AnyPath(files, NamesPackageJson)
  }

  predicate HasAppFile(files: seq<SourceFile>) {
    AnyPath(files, NamesAppFile)
  }

  predicate HasComponents(files: seq<SourceFile>) {
    AnyPath(files, NamesComponent)
  }

  /** The value a template literal shows for the optional `nestedPath`. */
  function ShowPath(nestedPath: Option<string>): string {
    match nestedPath
    case None => "null"
    case Some(p) => p
  }

  function Title(owner: string, repo: string): string {
    "# GitHub Repository: " + owner + "/" + repo + "\n\n"
  }

  function KindLine(kind: SubmissionKind): string {
    "- **Submission Type:** "
    + (if kind == Nested then Warning + " Nested Project Structure" else Check + " Correct Root Structure")
    + "\n"
  }

  /** The location line, written only for a non-empty `nestedPath`. */
  function LocationLine(nestedPath: Option<string>): string {
    if nestedPath.Some? && nestedPath.value != "" then "- **Project Location:** " + nestedPath.value + "/\n" else ""
  }

  function FileLines(files: seq<SourceFile>): string {
    "- **Files Retrieved:** " + NatToString(|files|) + "\n"
    + "- **Repository Accessible:** " + Check + " Yes\n"
    + "- **package.json found:** " + Flag(HasPackageJson(files)) + "\n"
    + "- **App file found:** " + Flag(HasAppFile(files)) + "\n"
    + "- **Components found:** " + Flag(HasComponents(files)) + "\n\n"
  }

  function StudentNote(kind: SubmissionKind, nestedPath: Option<string>): string {
    if kind == Nested then
      "### " + Warning + " Note for Student:\n"
      + "Your project is nested in a subdirectory (" + ShowPath(nestedPath) + "/). "
      + "For future submissions, consider placing your project files directly in the repository root.\n\n"
    else ""
  }

  /** The analysis section and the contents heading, after the title. */
  function HeaderBody(files: seq<SourceFile>, kind: SubmissionKind, nestedPath: Option<string>): string {
    "## Submission Analysis:\n" + KindLine(kind) + LocationLine(nestedPath) + FileLines(files)
    + StudentNote(kind, nestedPath) + "## File Contents:\n\n"
  }

  /** Everything `formatOutput` writes before the first file block. */
  function ReportHeader(owner: string, repo: string, files: seq<SourceFile>,
                        kind: SubmissionKind, nestedPath: Option<string>): string
  {
    Title(owner, repo) + HeaderBody(files, kind, nestedPath)
  }

  const Fence: string := "```"

  /**
   * A fenced section: the heading line `head + title`, the opening fence with its
   * language, the content and the closing `tail`.
   */
  function Section(head: string, title: string, lang: string, content: string, tail: string): string {
    head + (title + ("\n" + (Fence + (lang + ("\n" + (content + tail))))))
  }

  /** The section one file contributes. */
  function Block(f: SourceFile): string {
    Section(BlockHead, BlockTitle(f), BlockLanguage(f), f.content, BlockTail)
  }

  /** The heading text of a file section: its path, pinned when it is a priority file. */
  function BlockTitle(f: SourceFile): string {
    f.path + (if f.priority then Pin else "")
  }

  function BlockLanguage(f: SourceFile): (lang: string)
    ensures '\n' !in lang
  {
    LanguageFromExtension(Extension(f.path))
  }

  function Blocks(files: seq<SourceFile>): string {
    Concat(Block, files)
  }

  /** The whole report of `formatOutput`. */
  function Report(owner: string, repo: string, files: seq<SourceFile>,
                  kind: SubmissionKind, nestedPath: Option<string>): string
  {
    ReportHeader(owner, repo, files, kind, nestedPath) + Blocks(files)
  }

  /** The loop of `formatOutput`: one block per file appended to what is already written. */
  method AppendBlocks(written: string, files: seq<SourceFile>) returns (output: string)
    ensures output == written + Blocks(files)
  {
    output := written;
    var i := 0;
    while i < |files|
      invariant 0 <= i <= |files|
      invariant output == written + Blocks(files[..i])
    {
      assert files[..i + 1][..i] == files[..i];
      Assoc(written, Blocks(files[..i]), Block(files[i]));
      output := output + Block(files[i]);
      i := i + 1;
    }
    assert files[..|files|] == files;
  }

  /** `formatOutput`: the header, then the file blocks. */
  method FormatOutput(owner: string, repo: string, files: seq<SourceFile>,
                      kind: SubmissionKind, nestedPath: Option<string>) returns (output: string)
    ensures output == Report(owner, repo, files, kind, nestedPath)
  {
    output := AppendBlocks(ReportHeader(owner, repo, files, kind, nestedPath), files);
  }

  /** The files appear one block each, in their order: the blocks of `files[..k]`, then file `k`'s. */
  lemma BlockOrder(files: seq<SourceFile>, k: nat)
    requires k < |files|
    ensures StartsWith(Blocks(files), Blocks(files[..k]) + Block(files[k]))
  {
    ConcatOrder(Block, files, k);
  }

  /** The report opens with the repository title and ends with the file blocks. */
  lemma ReportShape(owner: string, repo: string, files: seq<SourceFile>,
                    kind: SubmissionKind, nestedPath: Option<string>)
    ensures StartsWith(Report(owner, repo, files, kind, nestedPath),
                       "# GitHub Repository: " + owner + "/" + repo + "\n\n")
    ensures EndsWith(Report(owner, repo, files, kind, nestedPath), Blocks(files))
  {
    var h := ReportHeader(owner, repo, files, kind, nestedPath);
    StartsWithSelf(h, Blocks(files));
    StartsWithSelf(Title(owner, repo), HeaderBody(files, kind, nestedPath));
    StartsWithTrans(h + Blocks(files), h, Title(owner, repo));
    EndsWithSelf(h, Blocks(files));
  }

  /** The note to the student is written exactly for a nested submission. */
  lemma NoteOnlyWhenNested(kind: SubmissionKind, nestedPath: Option<string>)
    ensures StudentNote(kind, nestedPath) != "" <==> kind == Nested
  {
    if kind == Nested {
      assert |StudentNote(kind, nestedPath)| >= |"### "|;
    }
  }

  /** The report of a nested submission holds the note to the student. */
  lemma {:induction false} NestedNoteShown(owner: string, repo: string, files: seq<SourceFile>, nestedPath: Option<string>)
    ensures Contains(Report(owner, repo, files, Nested, nestedPath), StudentNote(Nested, nestedPath))
  {
    var note := StudentNote(Nested, nestedPath);
    ContainsMiddle("## Submission Analysis:\n" + KindLine(Nested) + LocationLine(nestedPath) + FileLines(files),
                   note, "## File Contents:\n\n");
    ContainsRight(Title(owner, repo), HeaderBody(files, Nested, nestedPath), note);
    ContainsLeft(ReportHeader(owner, repo, files, Nested, nestedPath), note, Blocks(files));
  }

  // ---------------------------------------------------------------------------
  // Reading a block back

  datatype ParsedBlock = ParsedBlock(path: string, priority: bool, lang: string, content: string)

  /** The index of the first `c` in `s`, or `|s|`. */
  function CharIndex(s: string, c: char): (r: nat)
    ensures r <= |s| && (r < |s| ==> s[r] == c)
    ensures forall k :: 0 <= k < r ==> s[k] != c
  {
    if s == [] || s[0] == c then 0 else 1 + CharIndex(s[1..], c)
  }

  lemma {:induction false} CharIndexOf(a: string, b: string)
    requires '\n' !in a
    ensures CharIndex(a + ("\n" + b), '\n') == |a|
    decreases |a|
  {
    if a != [] {
      assert (a + ("\n" + b))[1..] == a[1..] + ("\n" + b);
      CharIndexOf(a[1..], b);
    }
  }

  /** The line of `s` before its first line break and the text after that break. */
  function SplitLine(s: string): Option<(string, string)> {
    var i := CharIndex(s, '\n');
    if i == |s| then None else Some((s[..i], s[i + 1..]))
  }

  lemma SplitLineOf(line: string, rest: string)
    requires '\n' !in line
    ensures SplitLine(line + ("\n" + rest)) == Some((line, rest))
  {
    CharIndexOf(line, rest);
    Halves(line, "\n" + rest);
    assert (line + ("\n" + rest))[|line| + 1..] == rest;
  }

  /** Takes a section apart into its title, fence language and content. */
  function SplitSection(b: string, head: string, tail: string): Option<(string, string, string)> {
    if !StartsWith(b, head) then None
    else
      match SplitLine(b[|head|..])
      case None => None
      case Some((title, rest)) =>
        if !StartsWith(rest, Fence) then None
        else
          match SplitLine(rest[|Fence|..])
          case None => None
          case Some((lang, rest2)) =>
            if !EndsWith(rest2, tail) then None
            else Some((title, lang, rest2[..|rest2| - |tail|]))
  }

  lemma SectionRoundTrip(head: string, title: string, lang: string, content: string, tail: string)
    requires '\n' !in title && '\n' !in lang
    ensures SplitSection(Section(head, title, lang, content, tail), head, tail) == Some((title, lang, content))
  {
    var rest2 := content + tail;
    var rest := Fence + (lang + ("\n" + rest2));
    var body := title + ("\n" + rest);
    StartsWithSelf(head, body);
    Halves(head, body);
    SplitLineOf(title, rest);
    StartsWithSelf(Fence, lang + ("\n" + rest2));
    Halves(Fence, lang + ("\n" + rest2));
    SplitLineOf(lang, rest2);
    EndsWithSelf(content, tail);
    Halves(content, tail);
  }

  /** Reads a file section back: path, priority mark, fence language and content. */
  function ParseBlock(b: string): Option<ParsedBlock> {
    match SplitSection(b, BlockHead, BlockTail)
    case None => None
    case Some((title, lang, content)) =>
      var pinned := EndsWith(title, Pin);
      Some(ParsedBlock(if pinned then title[..|title| - |Pin|] else title, pinned, lang, content))
  }

  /** A file section gives back the file's path, priority mark, language and content. */
  lemma ParseBlockRoundTrip(f: SourceFile)
    requires '\n' !in f.path && !EndsWith(f.path, Pin)
    ensures ParseBlock(Block(f)) == Some(ParsedBlock(f.path, f.priority, BlockLanguage(f), f.content))
  {
    assert '\n' !in BlockTitle(f);
    SectionRoundTrip(BlockHead, BlockTitle(f), BlockLanguage(f), f.content, BlockTail);
    TitleRoundTrip(f);
  }

  lemma TitleRoundTrip(f: SourceFile)
    requires !EndsWith(f.path, Pin)
    ensures var title := BlockTitle(f);
            EndsWith(title, Pin) == f.priority
            && (if EndsWith(title, Pin) then title[..|title| - |Pin|] else title) == f.path
  {
    if f.priority {
      Halves(f.path, Pin);
    }
  }

  // ---------------------------------------------------------------------------
  // generateErrorReport

  const ErrorTitle: string := "# GitHub Repository Access Error\n\n"

  function UrlLine(url: string): string {
    "## Repository URL: " + url + "\n\n"
  }

  function ErrorTypeLine(message: string): string {
    "- **Error Type:** " + message + "\n"
  }

  function ErrorDetails(message: string): string {
    "## Error Details:\n" + ErrorTypeLine(message)
    + ("- **Repository Accessible:** " + Cross + " Unable to verify\n\n")
  }

  const ErrorAdvice: string :=
    "## Troubleshooting:\n"
    + "1. Ensure the repository is public\n"
    + "2. Check the URL is correct\n"
    + "3. Verify all files are committed and pushed\n\n"
    + "## Grading Note:\n"
    + "Unable to fully evaluate the submission due to repository access issues.\n"

  /** The report `processGitHubRepo` returns when processing threw. */
  function ErrorReport(url: string, message: string): string {
    (ErrorTitle + UrlLine(url)) + (ErrorDetails(message) + ErrorAdvice)
  }

  /** An error report quotes the URL and the error message after fixed labels. */
  lemma ErrorReportQuotes(url: string, message: string)
    ensures StartsWith(ErrorReport(url, message), ErrorTitle + ("## Repository URL: " + url + "\n\n"))
    ensures Contains(ErrorReport(url, message), "- **Error Type:** " + message + "\n")
  {
    var d := ErrorDetails(message);
    StartsWithSelf(ErrorTitle + UrlLine(url), d + ErrorAdvice);
    ContainsMiddle("## Error Details:\n", ErrorTypeLine(message),
                   "- **Repository Accessible:** " + Cross + " Unable to verify\n\n");
    ContainsWithin(d, ErrorTypeLine(message), ErrorTitle + UrlLine(url), ErrorAdvice);
  }

  lemma ErrorReportOpens(url: string, message: string)
    ensures StartsWith(ErrorReport(url, message), ErrorTitle)
  {
    StartsWithSelf(ErrorTitle + UrlLine(url), ErrorDetails(message) + ErrorAdvice);
    StartsWithSelf(ErrorTitle, UrlLine(url));
    StartsWithTrans(ErrorReport(url, message), ErrorTitle + UrlLine(url), ErrorTitle);
  }

  lemma OpeningsDiffer(s: string, t: string, owner: string, repo: string)
    requires StartsWith(s, ErrorTitle) && StartsWith(t, Title(owner, repo))
    ensures s != t
  {
    var lead := "# GitHub Repository: ";
    assert Title(owner, repo) == lead + (owner + "/" + repo + "\n\n");
    assert Title(owner, repo)[19] == lead[19] == ':';
    DifferAt(s, t, ErrorTitle, Title(owner, repo), 19);
  }

  /** An error report is never mistaken for a repository report, whatever the inputs. */
  lemma ErrorReportIsNotReport(url: string, message: string, owner: string, repo: string,
                               files: seq<SourceFile>, kind: SubmissionKind, nestedPath: Option<string>)
    ensures ErrorReport(url, message) != Report(owner, repo, files, kind, nestedPath)
  {
    ReportShape(owner, repo, files, kind, nestedPath);
    ErrorReportOpens(url, message);
    OpeningsDiffer(ErrorReport(url, message), Report(owner, repo, files, kind, nestedPath), owner, repo);
  }
}
