/**
 * The submission processors of src/services/github.js: `processGitHubRepo` and the
 * four routes it dispatches to (`processNestedDirectory`, `processRootRepository`,
 * `processSourceDirectory`, `processSingleFile`).
 *
 * Each processor is a method whose result is tied to a specification function;
 * a thrown Error is an `Err` carrying its message, and `processGitHubRepo` turns
 * it into the error report, so the top level always yields a report.
 */
module GitHubRepo {
  import opened Wrappers
  import opened JsString
  import opened GitHubUrl
  import opened GitHubFetch
  import opened GitHubFormat

  /** The priority files of a nested project, relative to its directory, in order. */
  const NestedPriorityNames: seq<string> := [
    "package.json", "README.md", "src/App.js", "src/App.jsx", "src/App.tsx",
    "src/index.js", "src/index.jsx", "src/index.tsx"
  ]

  /** The sub-directories probed for a nested project when the root has no package.json. */
  const ProbeDirectories: seq<string> := ["Final-Project", "final-project", "client", "frontend"]

  /** The application files looked up in a `src` directory, in order. */
  const SourceAppFiles: seq<string> := ["App.js", "App.jsx", "App.tsx", "index.js", "index.jsx", "index.tsx"]

  /** `${dir}/${name}` for each name. */
  function Under(dir: string, names: seq<string>): (r: seq<string>)
    ensures |r| == |names|
    ensures forall k :: 0 <= k < |names| ==> r[k] == dir + "/" + names[k]
  {
    if names == [] then [] else [dir + "/" + names[0]] + Under(dir, names[1..])
  }

  /** The `map` of `processNestedDirectory` over the component files: each path renamed. */
  function Renamed(fs: seq<SourceFile>, strip: Option<string>): (r: seq<SourceFile>)
    ensures |r| == |fs|
    ensures forall k :: 0 <= k < |fs| ==>
              r[k].path == Normalize(fs[k].path, strip) && r[k].content == fs[k].content
              && r[k].priority == fs[k].priority
  {
    if fs == [] then [] else [fs[0].(path := Normalize(fs[0].path, strip))] + Renamed(fs[1..], strip)
  }

  /** The arguments of one `formatOutput` call: what a processor reports on. */
  datatype Output = Output(owner: string, repo: string, files: seq<SourceFile>,
                           kind: SubmissionKind, nestedPath: Option<string>)

  function Render(o: Output): string {
    Report(o.owner, o.repo, o.files, o.kind, o.nestedPath)
  }

  /** A processor's result: its report, or the message of the Error it throws. */
  function Rendered(r: Result<Output>): Result<string> {
    match r
    case Ok(o) => Ok(Render(o))
    case Err(m) => Err(m)
  }

  // ---------------------------------------------------------------------------
  // processNestedDirectory

  /** The files a nested project contributes: budgeted priority files, then five components. */
  function NestedFiles(hub: Hub, at: RepoRef, nested: string): seq<SourceFile> {
    Collect(hub, at, Under(nested, NestedPriorityNames), Some(nested), 0)
    + Renamed(DirectoryFiles(hub, at, nested + "/src/components", 5), Some(nested))
  }

  function NestedOutput(hub: Hub, at: RepoRef, nested: string): Output {
    Output(at.owner, at.repo, NestedFiles(hub, at, nested), Nested, Some(nested))
  }

  /** `processNestedDirectory`. The package.json check only writes a log line. */
  method ProcessNestedDirectory(hub: Hub, at: RepoRef, nestedPath: string) returns (doc: string)
    ensures doc == Render(NestedOutput(hub, at, nestedPath))
  {
    var hasPackageJson := CheckFileExists(hub, at, nestedPath + "/package.json");
    var files := CollectPriorityFiles(hub, at, Under(nestedPath, NestedPriorityNames), Some(nestedPath));
    var components := FetchDirectory(hub, at, nestedPath + "/src/components", 5);
    files := files + Renamed(components, Some(nestedPath));
    doc := FormatOutput(at.owner, at.repo, files, Nested, Some(nestedPath));
  }

  /**
   * The priority files of a nested project appear under their names relative to the
   * project directory, taken from the fixed list; each was fetched under the budget.
   */
  lemma NestedPriorityPaths(hub: Hub, at: RepoRef, nested: string)
    ensures var c := Collect(hub, at, Under(nested, NestedPriorityNames), Some(nested), 0);
            (forall f :: f in c ==> f.priority && f.path in NestedPriorityNames)
            && FetchedUnderBudget(c, 0) && TotalSize(c) < MaxTotalSize + FileCap
  {
    var paths := Under(nested, NestedPriorityNames);
    var c := Collect(hub, at, paths, Some(nested), 0);
    var all := AllPriority(hub, at, paths, Some(nested));
    CollectIsPrefix(hub, at, paths, Some(nested), 0);
    AllPriorityFrom(hub, at, paths, Some(nested));
    forall f | f in c ensures f.priority && f.path in NestedPriorityNames {
      var k :| 0 <= k < |c| && c[k] == f;
      assert f == all[k] && f in all;
      var j :| 0 <= j < |paths| && FetchFile(hub, at, paths[j]).Some?
               && f == MarkPriority(FetchFile(hub, at, paths[j]).value, Some(nested));
      assert FetchFile(hub, at, paths[j]).value.path == paths[j];
      NormalizeNested(nested, NestedPriorityNames[j]);
    }
    CollectChecksBudget(hub, at, paths, Some(nested), 0);
    CollectBounded(hub, at, paths, Some(nested), 0);
  }

  /** The component files of a nested project are never marked and lose the project prefix. */
  lemma NestedComponentPaths(hub: Hub, at: RepoRef, nested: string)
    ensures var d := DirectoryFiles(hub, at, nested + "/src/components", 5);
            var r := Renamed(d, Some(nested));
            |r| <= 5 && forall k :: 0 <= k < |r| ==>
              !r[k].priority && r[k].path == ReplaceFirst(d[k].path, nested + "/", "")
  {
    DirectoryFilesAreRelevant(hub, at, nested + "/src/components", 5);
  }

  // ---------------------------------------------------------------------------
  // processRootRepository

  /** The first probed directory whose package.json exists. */
  function FirstNestedProject(hub: Hub, at: RepoRef, candidates: seq<string>): (r: Option<string>)
    ensures r.Some? ==> exists k :: 0 <= k < |candidates| && r.value == candidates[k]
                          && CheckFileExists(hub, at, candidates[k] + "/package.json")
                          && forall j :: 0 <= j < k ==> !CheckFileExists(hub, at, candidates[j] + "/package.json")
    ensures r.None? <==> forall j :: 0 <= j < |candidates| ==> !CheckFileExists(hub, at, candidates[j] + "/package.json")
  {
    if candidates == [] then None
    else if CheckFileExists(hub, at, candidates[0] + "/package.json") then Some(candidates[0])
    else
      var r := FirstNestedProject(hub, at, candidates[1..]);
      assert forall j :: 1 <= j < |candidates| ==> candidates[1..][j - 1] == candidates[j];
      r
  }

  /** `src/components`, or `src/Components` when the first listing gives nothing. */
  function RootComponents(hub: Hub, at: RepoRef): seq<SourceFile> {
    var c := DirectoryFiles(hub, at, "src/components", 5);
    if c == [] then DirectoryFiles(hub, at, "src/Components", 5) else c
  }

  function RootFiles(hub: Hub, at: RepoRef): seq<SourceFile> {
    Collect(hub, at, PriorityFiles, None, 0) + RootComponents(hub, at)
  }

  /** The ref of a root repository: its default branch, or `main` when that is empty. */
  function RootRef(owner: string, repo: string, defaultBranch: string): RepoRef {
    RepoRef(owner, repo, if defaultBranch == "" then "main" else defaultBranch)
  }

  /** The `formatOutput` call `processRootRepository` makes, or the message of the Error it throws. */
  function RootRoute(hub: Hub, owner: string, repo: string): Result<Output> {
    match hub.defaultBranch(owner, repo)
    case Err(m) => Err(m)
    case Ok(b) =>
      var at := RootRef(owner, repo, b);
      var nested := if CheckFileExists(hub, at, "package.json") then None
                    else FirstNestedProject(hub, at, ProbeDirectories);
      match nested
      case Some(n) => Ok(NestedOutput(hub, at, n))
      case None => Ok(Output(owner, repo, RootFiles(hub, at), Root, None))
  }

  /** The probe loop of `processRootRepository`: the first candidate with a package.json. */
  method FindNestedProject(hub: Hub, at: RepoRef) returns (found: Option<string>)
    ensures found == FirstNestedProject(hub, at, ProbeDirectories)
  {
    var i := 0;
    while i < |ProbeDirectories|
      invariant 0 <= i <= |ProbeDirectories|
      invariant FirstNestedProject(hub, at, ProbeDirectories[i..]) == FirstNestedProject(hub, at, ProbeDirectories)
    {
      assert ProbeDirectories[i..][1..] == ProbeDirectories[i + 1..];
      if CheckFileExists(hub, at, ProbeDirectories[i] + "/package.json") {
        return Some(ProbeDirectories[i]);
      }
      i := i + 1;
    }
    return None;
  }

  /** The files of a root repository: budgeted priority files, then the components. */
  method FetchRootFiles(hub: Hub, at: RepoRef) returns (files: seq<SourceFile>)
    ensures files == RootFiles(hub, at)
  {
    files := CollectPriorityFiles(hub, at, PriorityFiles, None);
    ghost var priority := files;
    var components := FetchDirectory(hub, at, "src/components", 5);
    files := files + components;
    if |components| == 0 {
      assert files == priority;
      var componentsCapital := FetchDirectory(hub, at, "src/Components", 5);
      files := files + componentsCapital;
    }
  }

  /** `processRootRepository`: default branch, the nested-project probe, then the root files. */
  method ProcessRootRepository(hub: Hub, owner: string, repo: string) returns (result: Result<string>)
    ensures result == Rendered(RootRoute(hub, owner, repo))
  {
    var repoInfo := hub.defaultBranch(owner, repo);
    if repoInfo.Err? {
      return Err(repoInfo.message);
    }
    var at := RootRef(owner, repo, repoInfo.value);
    var hasRootPackageJson := CheckFileExists(hub, at, "package.json");
    if !hasRootPackageJson {
      var nested := FindNestedProject(hub, at);
      if nested.Some? {
        var doc := ProcessNestedDirectory(hub, at, nested.value);
        return Ok(doc);
      }
    }
    var files := FetchRootFiles(hub, at);
    var doc := FormatOutput(owner, repo, files, Root, None);
    return Ok(doc);
  }

  /**
   * Without a root package.json the first probed directory that has one, in the fixed
   * order, is processed as the nested project; with one, the repository stays a root.
   */
  lemma RootProbeOrder(hub: Hub, owner: string, repo: string, b: string, k: nat)
    requires hub.defaultBranch(owner, repo) == Ok(b)
    requires k < |ProbeDirectories|
    requires var at := RootRef(owner, repo, b);
             !CheckFileExists(hub, at, "package.json")
             && CheckFileExists(hub, at, ProbeDirectories[k] + "/package.json")
             && forall j :: 0 <= j < k ==> !CheckFileExists(hub, at, ProbeDirectories[j] + "/package.json")
    ensures RootRoute(hub, owner, repo) == Ok(NestedOutput(hub, RootRef(owner, repo, b), ProbeDirectories[k]))
  {
    var at := RootRef(owner, repo, b);
    var r := FirstNestedProject(hub, at, ProbeDirectories);
    assert r.Some?;
    var k' :| 0 <= k' < |ProbeDirectories| && r.value == ProbeDirectories[k']
              && CheckFileExists(hub, at, ProbeDirectories[k'] + "/package.json")
              && forall j :: 0 <= j < k' ==> !CheckFileExists(hub, at, ProbeDirectories[j] + "/package.json");
    assert k' == k;
  }

  /** A repository with a root package.json, or with no probed project, is reported as a root. */
  lemma RootStaysRoot(hub: Hub, owner: string, repo: string, b: string)
    requires hub.defaultBranch(owner, repo) == Ok(b)
    requires var at := RootRef(owner, repo, b);
             CheckFileExists(hub, at, "package.json")
             || forall j :: 0 <= j < |ProbeDirectories| ==> !CheckFileExists(hub, at, ProbeDirectories[j] + "/package.json")
    ensures RootRoute(hub, owner, repo) == Ok(Output(owner, repo, RootFiles(hub, RootRef(owner, repo, b)), Root, None))
  {
  }

  /** The capitalised components directory is read only when the lower-case one gives nothing. */
  lemma RootComponentsFallback(hub: Hub, at: RepoRef)
    ensures var lower := DirectoryFiles(hub, at, "src/components", 5);
            |RootComponents(hub, at)| <= 5
            && (lower != [] ==> RootComponents(hub, at) == lower)
  {
    DirectoryFilesAreRelevant(hub, at, "src/components", 5);
    DirectoryFilesAreRelevant(hub, at, "src/Components", 5);
  }

  // ---------------------------------------------------------------------------
  // processSourceDirectory

  /** The fetchable files among `paths`, in order, each as `fetchFile` returns it. */
  function FetchEach(hub: Hub, at: RepoRef, paths: seq<string>): (r: seq<SourceFile>)
    ensures |r| <= |paths|
    ensures forall k :: 0 <= k < |r| ==>
              !r[k].priority && exists j :: 0 <= j < |paths| && FetchFile(hub, at, paths[j]) == Some(r[k])
  {
    if paths == [] then []
    else
      var init := paths[..|paths| - 1];
      var rest := FetchEach(hub, at, init);
      assert forall j :: 0 <= j < |init| ==> init[j] == paths[j];
      match FetchFile(hub, at, paths[|paths| - 1])
      case None => rest
      case Some(f) => rest + [f]
  }

  /** Every application file that can be fetched is kept: none is dropped for size. */
  lemma {:induction false} FetchEachComplete(hub: Hub, at: RepoRef, paths: seq<string>, j: nat)
    requires j < |paths| && FetchFile(hub, at, paths[j]).Some?
    ensures FetchFile(hub, at, paths[j]).value in FetchEach(hub, at, paths)
    decreases |paths|
  {
    var n := |paths| - 1;
    var init := paths[..n];
    if j < n {
      assert init[j] == paths[j];
      FetchEachComplete(hub, at, init, j);
    }
  }

  /** The root package.json, marked as a priority file, when it can be fetched. */
  function RootPackageJson(hub: Hub, at: RepoRef): seq<SourceFile> {
    match FetchFile(hub, at, "package.json")
    case None => []
    case Some(f) => [f.(priority := true)]
  }

  /** The files of a `src` submission: application files, eight components, the root package.json. */
  function SourceFiles(hub: Hub, at: RepoRef, srcPath: string): seq<SourceFile> {
    FetchEach(hub, at, Under(srcPath, SourceAppFiles))
    + DirectoryFiles(hub, at, srcPath + "/components", 8)
    + RootPackageJson(hub, at)
  }

  function SourceOutput(hub: Hub, at: RepoRef, srcPath: string): Output {
    Output(at.owner, at.repo, SourceFiles(hub, at, srcPath), SrcOnly, Some(srcPath))
  }

  /** The loop over the candidate app files: each one that exists, in order. */
  method FetchAll(hub: Hub, at: RepoRef, paths: seq<string>) returns (files: seq<SourceFile>)
    ensures files == FetchEach(hub, at, paths)
  {
    files := [];
    var i := 0;
    while i < |paths|
      invariant 0 <= i <= |paths|
      invariant files == FetchEach(hub, at, paths[..i])
    {
      assert paths[..i + 1][..i] == paths[..i];
      var file := FetchFile(hub, at, paths[i]);
      if file.Some? {
        files := files + [file.value];
      }
      i := i + 1;
    }
    assert paths[..|paths|] == paths;
  }

  /** `processSourceDirectory`: the app files found, the components directory, then package.json. */
  method ProcessSourceDirectory(hub: Hub, at: RepoRef, srcPath: string) returns (doc: string)
    ensures doc == Render(SourceOutput(hub, at, srcPath))
  {
    var files := FetchAll(hub, at, Under(srcPath, SourceAppFiles));
    var components := FetchDirectory(hub, at, srcPath + "/components", 8);
    files := files + components;
    var packageJson := FetchFile(hub, at, "package.json");
    if packageJson.Some? {
      files := files + [packageJson.value.(priority := true)];
    }
    assert files == SourceFiles(hub, at, srcPath);
    doc := FormatOutput(at.owner, at.repo, files, SrcOnly, Some(srcPath));
  }

  /**
   * In a `src` submission only the root package.json is a priority file, and when it
   * exists it is the last file of the report.
   */
  lemma SourcePriorityIsPackageJson(hub: Hub, at: RepoRef, srcPath: string)
    ensures var fs := SourceFiles(hub, at, srcPath);
            (forall k :: 0 <= k < |fs| && fs[k].priority ==>
               k == |fs| - 1 && fs[k].path == "package.json")
            && (FetchFile(hub, at, "package.json").Some? ==>
                  fs != [] && fs[|fs| - 1].priority && fs[|fs| - 1].path == "package.json")
  {
    var apps := FetchEach(hub, at, Under(srcPath, SourceAppFiles));
    var comps := DirectoryFiles(hub, at, srcPath + "/components", 8);
    DirectoryFilesAreRelevant(hub, at, srcPath + "/components", 8);
    var fs := SourceFiles(hub, at, srcPath);
    forall k | 0 <= k < |apps| + |comps| ensures !fs[k].priority {
      if k < |apps| {
        assert fs[k] == apps[k];
      } else {
        assert fs[k] == comps[k - |apps|];
      }
    }
  }

  // ---------------------------------------------------------------------------
  // processSingleFile and processGitHubRepo

  /** The `formatOutput` call of `processSingleFile`, or the message it throws for a missing file. */
  function SingleFileRoute(hub: Hub, at: RepoRef, path: string): Result<Output> {
    match FetchFile(hub, at, path)
    case None => Err("Could not fetch file: " + path)
    case Some(f) => Ok(Output(at.owner, at.repo, [f], SingleFileKind, None))
  }

  method ProcessSingleFile(hub: Hub, at: RepoRef, path: string) returns (result: Result<string>)
    ensures result == Rendered(SingleFileRoute(hub, at, path))
  {
    var file := FetchFile(hub, at, path);
    if file.None? {
      return Err("Could not fetch file: " + path);
    }
    var doc := FormatOutput(at.owner, at.repo, [file.value], SingleFileKind, None);
    return Ok(doc);
  }

  /** The route `processGitHubRepo` takes for a classification, as report or thrown message. */
  function Route(hub: Hub, info: UrlInfo): Result<Output> {
    match info
    case NestedDirectory(owner, repo, branch, path, _) => Ok(NestedOutput(hub, RepoRef(owner, repo, branch), path))
    case RootRepository(owner, repo, _, _) => RootRoute(hub, owner, repo)
    case SingleFile(owner, repo, branch, path, _) => SingleFileRoute(hub, RepoRef(owner, repo, branch), path)
    case SrcDirectory(owner, repo, branch, path, _) => Ok(SourceOutput(hub, RepoRef(owner, repo, branch), path))
    case Unknown(_) => Err("Unsupported URL type: " + TypeName(info))
  }

  /** What `processGitHubRepo(repoUrl)` resolves to: a report, or the error report of the failure. */
  function GitHubReport(hub: Hub, repoUrl: string): string {
    match Route(hub, AnalyzeGitHubUrl(repoUrl))
    case Ok(o) => Render(o)
    case Err(m) => ErrorReport(repoUrl, m)
  }

  /** The `switch` of `processGitHubRepo`: one processor per classification. */
  method Dispatch(hub: Hub, urlType: UrlInfo) returns (result: Result<string>)
    ensures result == Rendered(Route(hub, urlType))
  {
    match urlType {
      case NestedDirectory(owner, repo, branch, path, _) =>
        var doc := ProcessNestedDirectory(hub, RepoRef(owner, repo, branch), path);
        result := Ok(doc);
      case RootRepository(owner, repo, _, _) =>
        result := ProcessRootRepository(hub, owner, repo);
      case SingleFile(owner, repo, branch, path, _) =>
        result := ProcessSingleFile(hub, RepoRef(owner, repo, branch), path);
      case SrcDirectory(owner, repo, branch, path, _) =>
        var doc := ProcessSourceDirectory(hub, RepoRef(owner, repo, branch), path);
        result := Ok(doc);
      case Unknown(_) =>
        result := Err("Unsupported URL type: " + TypeName(urlType));
    }
  }

  /** `processGitHubRepo`: classify, dispatch, and report any failure instead of throwing. */
  method ProcessGitHubRepo(hub: Hub, repoUrl: string) returns (doc: string)
    ensures doc == GitHubReport(hub, repoUrl)
  {
    var urlType := AnalyzeGitHubUrl(repoUrl);
    var result := Dispatch(hub, urlType);
    if result.Ok? {
      doc := result.value;
    } else {
      doc := ErrorReport(repoUrl, result.message);
    }
  }

  /** A failure of any route becomes a report that quotes the submitted URL and the message. */
  lemma FailureIsReported(hub: Hub, repoUrl: string)
    requires Route(hub, AnalyzeGitHubUrl(repoUrl)).Err?
    ensures var m := Route(hub, AnalyzeGitHubUrl(repoUrl)).message;
            GitHubReport(hub, repoUrl) == ErrorReport(repoUrl, m)
            && StartsWith(GitHubReport(hub, repoUrl), ErrorTitle + ("## Repository URL: " + repoUrl + "\n\n"))
            && Contains(GitHubReport(hub, repoUrl), "- **Error Type:** " + m + "\n")
  {
    ErrorReportQuotes(repoUrl, Route(hub, AnalyzeGitHubUrl(repoUrl)).message);
  }

  /** A URL without `github.com/` reports the unsupported type `UNKNOWN`. */
  lemma NoHostReport(hub: Hub, repoUrl: string)
    requires !Contains(repoUrl, Host)
    ensures GitHubReport(hub, repoUrl) == ErrorReport(repoUrl, "Unsupported URL type: " + "UNKNOWN")
  {
    NoHostIsUnknown(repoUrl);
    assert Route(hub, AnalyzeGitHubUrl(repoUrl)) == Err("Unsupported URL type: " + "UNKNOWN");
  }

  /** A repository report is produced exactly when the route succeeds. */
  lemma ReportIffRouteSucceeds(hub: Hub, repoUrl: string)
    ensures Route(hub, AnalyzeGitHubUrl(repoUrl)).Ok?
            <==> forall m :: GitHubReport(hub, repoUrl) != ErrorReport(repoUrl, m)
  {
    var r := Route(hub, AnalyzeGitHubUrl(repoUrl));
    if r.Ok? {
      var o := r.value;
      forall m ensures GitHubReport(hub, repoUrl) != ErrorReport(repoUrl, m) {
        ErrorReportIsNotReport(repoUrl, m, o.owner, o.repo, o.files, o.kind, o.nestedPath);
      }
    } else {
      assert GitHubReport(hub, repoUrl) == ErrorReport(repoUrl, r.message);
    }
  }
}
