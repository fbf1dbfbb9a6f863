/**
 * Reading a repository through the GitHub contents API (src/services/github.js):
 * `fetchFile`, `checkFileExists`, `fetchDirectory`, `truncateContent` and the
 * budgeted loop over priority paths shared by the nested and root processors.
 *
 * The network is a parameter: a `Hub` answers the repository-metadata request
 * and the contents request for a path at a ref. A failed request (404, network
 * error) is an absent answer, which is how the source's `catch` blocks treat it.
 */
module GitHubFetch {
  import opened Wrappers
  import opened JsString
  import opened Sequences

  const MaxFiles: nat := 20
  const MaxFileSize: nat := 50000
  const MaxTotalSize: nat := 150000

  /** The paths tried first in a root repository, in order. */
  const PriorityFiles: seq<string> := [
    "package.json", "README.md", "script.js", "main.js", "war.js", "game.js",
    "index.js", "app.js", "src/App.js", "src/App.jsx", "src/App.tsx",
    "src/index.js", "src/index.jsx", "src/index.tsx", "src/script.js"
  ]

  /** The text appended to a file cut at `MaxFileSize`. */
  const TruncationMarker: string := "\n// ... [truncated for length]"

  /** The longest content a fetched file can have. */
  const FileCap: nat := MaxFileSize + |TruncationMarker|

  /** One entry of a directory listing (`type`, `name`, `path`). */
  datatype ListItem = ListItem(itemType: string, name: string, path: string)

  /** What the contents API returns for a path: a file (its decoded text) or a directory listing. */
  datatype Entry = File(text: string) | Directory(items: seq<ListItem>)

  /** One contents request: owner, repository, path and ref. */
  datatype ContentKey = ContentKey(owner: string, repo: string, path: string, ref: string)

  /**
   * The hosting service. `defaultBranch` answers `GET /repos/{owner}/{repo}` with the
   * `default_branch` field (an error carries the thrown message); `contents` answers
   * the contents endpoint, `None` standing for any failed request.
   */
  datatype Hub = Hub(
    defaultBranch: (string, string) -> Result<string>,
    contents: ContentKey -> Option<Entry>)

  /** The repository and ref every request of one submission goes to. */
  datatype RepoRef = RepoRef(owner: string, repo: string, branch: string)

  /** A retrieved file as the formatter receives it. */
  datatype SourceFile = SourceFile(path: string, content: string, priority: bool)

  function Lookup(hub: Hub, at: RepoRef, path: string): Option<Entry> {
    hub.contents(ContentKey(at.owner, at.repo, path, at.branch))
  }

  /** `truncateContent`: empty stays empty, long text is cut and marked. */
  function TruncateContent(content: string, maxLength: nat): (r: string)
    ensures |r| <= maxLength + |TruncationMarker|
    ensures |content| <= maxLength ==> r == content
    ensures |content| > maxLength ==> r == content[..maxLength] + TruncationMarker
    ensures (r == []) == (content == [])
  {
    if content == [] then []
    else if |content| <= maxLength then content
    else content[..maxLength] + TruncationMarker
  }

  /** Truncation keeps the first `maxLength` characters of the text. */
  lemma TruncateKeepsPrefix(content: string, maxLength: nat)
    ensures var n := if |content| <= maxLength then |content| else maxLength;
            StartsWith(TruncateContent(content, maxLength), content[..n])
  {
    var r := TruncateContent(content, maxLength);
    if |content| > maxLength {
      StartsWithSelf(content[..maxLength], TruncationMarker);
    } else {
      assert content[..|content|] == content;
    }
  }

  /**
   * `fetchFile`: a file with non-empty content comes back with its path and its
   * content truncated to `MaxFileSize`; anything else (missing, a directory, an
   * empty file) is `null`.
   */
  function FetchFile(hub: Hub, at: RepoRef, path: string): (r: Option<SourceFile>)
    ensures r.Some? <==> Lookup(hub, at, path).Some? && Lookup(hub, at, path).value.File?
                         && Lookup(hub, at, path).value.text != []
    ensures r.Some? ==> r.value.path == path && !r.value.priority
    ensures r.Some? ==> r.value.content == TruncateContent(Lookup(hub, at, path).value.text, MaxFileSize)
    ensures r.Some? ==> 0 < |r.value.content| <= FileCap
  {
    match Lookup(hub, at, path)
    case Some(File(text)) =>
      if text == [] then None else Some(SourceFile(path, TruncateContent(text, MaxFileSize), false))
    case _ => None
  }

  /** `checkFileExists`: the contents request succeeds, for a file or a directory. */
  predicate CheckFileExists(hub: Hub, at: RepoRef, path: string) {
    Lookup(hub, at, path).Some?
  }

  // ---------------------------------------------------------------------------
  // fetchDirectory

  /** The listing filter: files whose name has neither `.test.` nor `.spec.` in it. */
  predicate IsRelevant(item: ListItem) {
    item.itemType == "file" && !Contains(item.name, ".test.") && !Contains(item.name, ".spec.")
  }

  function RelevantItems(items: seq<ListItem>): (r: seq<ListItem>)
    ensures |r| <= |items|
    ensures forall k :: 0 <= k < |r| ==> IsRelevant(r[k]) && r[k] in items
    ensures forall it :: it in items && IsRelevant(it) ==> it in r
  {
    if items == [] then []
    else
      var rest := RelevantItems(items[..|items| - 1]);
      var last := items[|items| - 1];
      assert items == items[..|items| - 1] + [last];
      if IsRelevant(last) then rest + [last] else rest
  }

  /** The items `fetchDirectory` fetches: the first `maxFiles` relevant ones. */
  function Selected(items: seq<ListItem>, maxFiles: nat): seq<ListItem> {
    var rel := RelevantItems(items);
    if |rel| <= maxFiles then rel else rel[..maxFiles]
  }

  /** The fetched files of the `todo` items, in order, dropping those `fetchFile` rejects. */
  function FetchAll(hub: Hub, at: RepoRef, todo: seq<ListItem>): (r: seq<SourceFile>)
    ensures |r| <= |todo|
    ensures forall k :: 0 <= k < |r| ==>
              exists j :: 0 <= j < |todo| && FetchFile(hub, at, todo[j].path) == Some(r[k])
  {
    if todo == [] then []
    else
      var prefix := todo[..|todo| - 1];
      var rest := FetchAll(hub, at, prefix);
      assert forall j :: 0 <= j < |prefix| ==> prefix[j] == todo[j];
      match FetchFile(hub, at, todo[|todo| - 1].path)
      case None => rest
      case Some(f) => rest + [f]
  }

  /** What `fetchDirectory(owner, repo, branch, dir, maxFiles)` returns. */
  function DirectoryFiles(hub: Hub, at: RepoRef, dir: string, maxFiles: nat): seq<SourceFile> {
    match Lookup(hub, at, dir)
    case Some(Directory(items)) => FetchAll(hub, at, Selected(items, maxFiles))
    case _ => []
  }

  /** `fetchDirectory`, including its loop over the selected items. */
  method FetchDirectory(hub: Hub, at: RepoRef, dir: string, maxFiles: nat) returns (files: seq<SourceFile>)
    ensures files == DirectoryFiles(hub, at, dir, maxFiles)
  {
    files := [];
    var entry := Lookup(hub, at, dir);
    if entry.Some? && entry.value.Directory? {
      var relevant := Selected(entry.value.items, maxFiles);
      var i := 0;
      while i < |relevant|
        invariant 0 <= i <= |relevant|
        invariant files == FetchAll(hub, at, relevant[..i])
      {
        assert relevant[..i + 1][..i] == relevant[..i];
        var file := FetchFile(hub, at, relevant[i].path);
        if file.Some? {
          files := files + [file.value];
        }
        i := i + 1;
      }
      assert relevant[..|relevant|] == relevant;
    }
  }

  /**
   * The listing's promises: at most `maxFiles` files, each one the fetch of a listed
   * file whose name is not a test or spec file, none marked as a priority file;
   * and nothing at all when the listing request fails or names a file.
   */
  lemma DirectoryFilesAreRelevant(hub: Hub, at: RepoRef, dir: string, maxFiles: nat)
    ensures !(Lookup(hub, at, dir).Some? && Lookup(hub, at, dir).value.Directory?) ==>
            DirectoryFiles(hub, at, dir, maxFiles) == []
    ensures var fs := DirectoryFiles(hub, at, dir, maxFiles);
            |fs| <= maxFiles &&
            forall k :: 0 <= k < |fs| ==>
              !fs[k].priority &&
              exists it :: it in Lookup(hub, at, dir).value.items && IsRelevant(it)
                           && FetchFile(hub, at, it.path) == Some(fs[k])
  {
    var fs := DirectoryFiles(hub, at, dir, maxFiles);
    match Lookup(hub, at, dir)
    case Some(Directory(items)) =>
      var sel := Selected(items, maxFiles);
      var rel := RelevantItems(items);
      forall k | 0 <= k < |fs|
        ensures !fs[k].priority
        ensures exists it :: it in items && IsRelevant(it) && FetchFile(hub, at, it.path) == Some(fs[k])
      {
        var j :| 0 <= j < |sel| && FetchFile(hub, at, sel[j].path) == Some(fs[k]);
        assert sel[j] == rel[j];
      }
    case _ =>
  }

  /** A directory whose relevant files all exist comes back whole up to `maxFiles`. */
  lemma {:induction false} FetchAllComplete(hub: Hub, at: RepoRef, todo: seq<ListItem>)
    requires forall j :: 0 <= j < |todo| ==> FetchFile(hub, at, todo[j].path).Some?
    ensures |FetchAll(hub, at, todo)| == |todo|
    decreases |todo|
  {
    if todo != [] {
      FetchAllComplete(hub, at, todo[..|todo| - 1]);
    }
  }

  // ---------------------------------------------------------------------------
  // The priority loop: fetch each path in turn while fewer than MaxTotalSize
  // characters have been collected, marking each file as a priority file.

  /** The path the formatter shows: with `${nestedPath}/` removed once when nested. */
  function Normalize(path: string, strip: Option<string>): string {
    match strip
    case None => path
    case Some(nested) => ReplaceFirst(path, nested + "/", "")
  }

  function MarkPriority(f: SourceFile, strip: Option<string>): SourceFile {
    SourceFile(Normalize(f.path, strip), f.content, true)
  }

  function TotalSize(fs: seq<SourceFile>): nat {
    if fs == [] then 0 else |fs[0].content| + TotalSize(fs[1..])
  }

  /** Every path that can be fetched, marked, with no budget. */
  function AllPriority(hub: Hub, at: RepoRef, paths: seq<string>, strip: Option<string>): seq<SourceFile>
    decreases |paths|
  {
    if paths == [] then []
    else
      match FetchFile(hub, at, paths[0])
      case None => AllPriority(hub, at, paths[1..], strip)
      case Some(f) => [MarkPriority(f, strip)] + AllPriority(hub, at, paths[1..], strip)
  }

  /** Each fetchable path's file, marked as a priority file and renamed by `Normalize`. */
  predicate FetchedFrom(hub: Hub, at: RepoRef, paths: seq<string>, strip: Option<string>, f: SourceFile) {
    exists j :: 0 <= j < |paths| && FetchFile(hub, at, paths[j]).Some?
                && f == MarkPriority(FetchFile(hub, at, paths[j]).value, strip)
  }

  lemma {:induction false} AllPriorityFrom(hub: Hub, at: RepoRef, paths: seq<string>, strip: Option<string>)
    ensures forall f :: f in AllPriority(hub, at, paths, strip) ==> f.priority && FetchedFrom(hub, at, paths, strip, f)
    decreases |paths|
  {
    if paths != [] {
      AllPriorityFrom(hub, at, paths[1..], strip);
      forall f | f in AllPriority(hub, at, paths[1..], strip)
        ensures FetchedFrom(hub, at, paths, strip, f)
      {
        var j :| 0 <= j < |paths[1..]| && FetchFile(hub, at, paths[1..][j]).Some?
                 && f == MarkPriority(FetchFile(hub, at, paths[1..][j]).value, strip);
        assert paths[1..][j] == paths[j + 1];
      }
      if FetchFile(hub, at, paths[0]).Some? {
        assert FetchedFrom(hub, at, paths, strip, MarkPriority(FetchFile(hub, at, paths[0]).value, strip));
      }
    }
  }

  /** The priority files collected from `paths` after `total` characters were already taken. */
  function Collect(hub: Hub, at: RepoRef, paths: seq<string>, strip: Option<string>, total: nat)
    : seq<SourceFile>
    decreases |paths|
  {
    if paths == [] || total >= MaxTotalSize then []
    else
      match FetchFile(hub, at, paths[0])
      case None => Collect(hub, at, paths[1..], strip, total)
      case Some(f) => [MarkPriority(f, strip)] + Collect(hub, at, paths[1..], strip, total + |f.content|)
  }

  /** Under budget, the file at `paths[i]`, when it can be fetched, comes first. */
  lemma CollectStep(hub: Hub, at: RepoRef, paths: seq<string>, strip: Option<string>, total: nat, i: nat)
    requires i < |paths| && total < MaxTotalSize
    ensures Collect(hub, at, paths[i..], strip, total) ==
      match FetchFile(hub, at, paths[i])
      case None => Collect(hub, at, paths[i + 1..], strip, total)
      case Some(f) => [MarkPriority(f, strip)] + Collect(hub, at, paths[i + 1..], strip, total + |f.content|)
  {
    assert paths[i..][0] == paths[i];
    assert paths[i..][1..] == paths[i + 1..];
  }

  /** The loop body for `paths[i]`: the marked file when it can be fetched, and the new running total. */
  method CollectOne(hub: Hub, at: RepoRef, paths: seq<string>, strip: Option<string>, totalSize: nat, i: nat)
    returns (piece: seq<SourceFile>, newTotal: nat)
    requires i < |paths| && totalSize < MaxTotalSize
    ensures piece + Collect(hub, at, paths[i + 1..], strip, newTotal) == Collect(hub, at, paths[i..], strip, totalSize)
  {
    CollectStep(hub, at, paths, strip, totalSize, i);
    piece, newTotal := [], totalSize;
    var file := FetchFile(hub, at, paths[i]);
    if file.Some? && file.value.content != [] {
      piece := [MarkPriority(file.value, strip)];
      newTotal := totalSize + |file.value.content|;
    }
  }

  /** The priority loop of `processNestedDirectory` and `processRootRepository`. */
  method CollectPriorityFiles(hub: Hub, at: RepoRef, paths: seq<string>, strip: Option<string>)
    returns (files: seq<SourceFile>)
    ensures files == Collect(hub, at, paths, strip, 0)
  {
    files := [];
    var totalSize: nat := 0;
    assert paths[0..] == paths;
    for i := 0 to |paths|
      invariant files + Collect(hub, at, paths[i..], strip, totalSize) == Collect(hub, at, paths, strip, 0)
    {
      if totalSize >= MaxTotalSize {
        break;
      }
      var piece, newTotal := CollectOne(hub, at, paths, strip, totalSize, i);
      Assoc(files, piece, Collect(hub, at, paths[i + 1..], strip, newTotal));
      files, totalSize := files + piece, newTotal;
    }
    assert paths[|paths|..] == [];
  }

  /** `c` is a prefix of `a`. */
  predicate IsPrefixOf(c: seq<SourceFile>, a: seq<SourceFile>) {
    |c| <= |a| && c == a[..|c|]
  }

  lemma PrefixAfterFirst(m: SourceFile, c: seq<SourceFile>, all: seq<SourceFile>)
    requires IsPrefixOf(c, all)
    ensures IsPrefixOf([m] + c, [m] + all)
  {
  }

  /** The budget only ever cuts the list short: the result is a prefix of every fetchable file. */
  lemma {:induction false} CollectIsPrefix(hub: Hub, at: RepoRef, paths: seq<string>, strip: Option<string>, total: nat)
    ensures IsPrefixOf(Collect(hub, at, paths, strip, total), AllPriority(hub, at, paths, strip))
    decreases |paths|
  {
    if paths != [] && total < MaxTotalSize {
      match FetchFile(hub, at, paths[0])
      case None => CollectIsPrefix(hub, at, paths[1..], strip, total);
      case Some(f) =>
        CollectIsPrefix(hub, at, paths[1..], strip, total + |f.content|);
        PrefixAfterFirst(MarkPriority(f, strip), Collect(hub, at, paths[1..], strip, total + |f.content|),
                         AllPriority(hub, at, paths[1..], strip));
    }
  }

  /** Before each file of `c` was fetched, the running total was below `MaxTotalSize`. */
  predicate FetchedUnderBudget(c: seq<SourceFile>, total: nat) {
    forall k :: 0 <= k < |c| ==> total + TotalSize(c[..k]) < MaxTotalSize
  }

  /** Each file is fetched only while the running total is below `MaxTotalSize`. */
  lemma {:induction false} CollectChecksBudget(hub: Hub, at: RepoRef, paths: seq<string>, strip: Option<string>, total: nat)
    ensures FetchedUnderBudget(Collect(hub, at, paths, strip, total), total)
    decreases |paths|
  {
    var c := Collect(hub, at, paths, strip, total);
    if paths != [] && total < MaxTotalSize {
      match FetchFile(hub, at, paths[0])
      case None =>
        CollectChecksBudget(hub, at, paths[1..], strip, total);
      case Some(f) =>
        var t := total + |f.content|;
        var rest := Collect(hub, at, paths[1..], strip, t);
        assert c == [MarkPriority(f, strip)] + rest;
        CollectChecksBudget(hub, at, paths[1..], strip, t);
        forall k | 0 <= k < |c| ensures total + TotalSize(c[..k]) < MaxTotalSize {
          if k > 0 {
            assert c[..k][0] == MarkPriority(f, strip);
            assert c[..k][1..] == rest[..k - 1];
            assert TotalSize(c[..k]) == |f.content| + TotalSize(rest[..k - 1]);
            assert t + TotalSize(rest[..k - 1]) < MaxTotalSize;
          } else {
            assert c[..k] == [];
          }
        }
    }
  }

  lemma StopsAfterFirst(m: SourceFile, rest: seq<SourceFile>, all: seq<SourceFile>, total: nat)
    requires |rest| < |all| ==> total + |m.content| + TotalSize(rest) >= MaxTotalSize
    ensures |[m] + rest| < |[m] + all| ==> total + TotalSize([m] + rest) >= MaxTotalSize
  {
    assert ([m] + rest)[1..] == rest;
  }

  /** The list is cut short only once the running total has reached `MaxTotalSize`. */
  lemma {:induction false} CollectStopsAtBudget(hub: Hub, at: RepoRef, paths: seq<string>, strip: Option<string>, total: nat)
    ensures |Collect(hub, at, paths, strip, total)| < |AllPriority(hub, at, paths, strip)| ==>
            total + TotalSize(Collect(hub, at, paths, strip, total)) >= MaxTotalSize
    decreases |paths|
  {
    if paths != [] && total < MaxTotalSize {
      match FetchFile(hub, at, paths[0])
      case None => CollectStopsAtBudget(hub, at, paths[1..], strip, total);
      case Some(f) =>
        var m := MarkPriority(f, strip);
        CollectStopsAtBudget(hub, at, paths[1..], strip, total + |f.content|);
        StopsAfterFirst(m, Collect(hub, at, paths[1..], strip, total + |f.content|),
                        AllPriority(hub, at, paths[1..], strip), total);
    }
  }

  /** Starting under budget, the collected text stays below `MaxTotalSize + FileCap`. */
  lemma {:induction false} CollectBounded(hub: Hub, at: RepoRef, paths: seq<string>, strip: Option<string>, total: nat)
    requires total < MaxTotalSize
    ensures total + TotalSize(Collect(hub, at, paths, strip, total)) < MaxTotalSize + FileCap
    decreases |paths|
  {
    if paths != [] {
      match FetchFile(hub, at, paths[0])
      case None => CollectBounded(hub, at, paths[1..], strip, total);
      case Some(f) =>
        var t := total + |f.content|;
        if t < MaxTotalSize {
          CollectBounded(hub, at, paths[1..], strip, t);
        }
    }
  }

  /** A nested priority path loses its directory prefix when normalised. */
  lemma NormalizeNested(nested: string, name: string)
    ensures Normalize(nested + "/" + name, Some(nested)) == name
  {
    StartsWithSelf(nested + "/", name);
    assert (nested + "/" + name)[|nested + "/"|..] == name;
  }
}
