/**
 * Classification of a submitted GitHub URL (`analyzeGitHubUrl`, src/services/github.js).
 *
 * The analyser strips trailing slashes and then tries three regular expressions
 * in turn: a `/tree/` URL, a `/blob/` URL and a bare repository URL. Each regex
 * is unanchored at the front, so it matches at the leftmost index where
 * `github.com/` starts a complete match; the model searches the start indices
 * in the same order and matches each pattern at one index exactly as the regex
 * engine does (segments `[^/]+`, the path `.+` stopping at a line terminator).
 */
module GitHubUrl {
  import opened Wrappers
  import opened JsString

  /** The literal every pattern anchors on (`github\.com\/`). */
  const Host: string := "github.com/"

  /** The directory names that mark a nested project, tested case-insensitively as prefixes. */
  const NestedPrefixes: seq<string> :=
    ["Final-Project", "final-project", "project", "client", "frontend", "my-app"]

  /** The object `analyzeGitHubUrl` returns; `url` is the input with trailing slashes removed. */
  datatype UrlInfo =
    | NestedDirectory(owner: string, repo: string, branch: string, path: string, url: string)
    | SrcDirectory(owner: string, repo: string, branch: string, path: string, url: string)
    | SingleFile(owner: string, repo: string, branch: string, path: string, url: string)
    | RootRepository(owner: string, repo: string, branch: string, url: string)
    | Unknown(url: string)

  /** The `type` string of a `UrlInfo`. */
  function TypeName(info: UrlInfo): string {
    match info
    case NestedDirectory(_, _, _, _, _) => "NESTED_DIRECTORY"
    case SrcDirectory(_, _, _, _, _) => "SRC_DIRECTORY"
    case SingleFile(_, _, _, _, _) => "SINGLE_FILE"
    case RootRepository(_, _, _, _) => "ROOT_REPOSITORY"
    case Unknown(_) => "UNKNOWN"
  }

  /** The three regular expressions: `/tree/` or `/blob/` with a path, or a bare repository. */
  datatype Pattern = PathPattern(keyword: string) | RootPattern

  const TreePattern: Pattern := PathPattern("tree/")
  const BlobPattern: Pattern := PathPattern("blob/")

  /** The capture groups of one match; a repository match leaves `branch` and `path` empty. */
  datatype Captures = Captures(owner: string, repo: string, branch: string, path: string)

  /** What `[^\/]+` can capture. */
  predicate IsSegment(t: string) {
    t != [] && '/' !in t
  }

  /** What `.+` can capture: non-empty and free of line terminators. */
  predicate IsLine(t: string) {
    t != [] && forall k :: 0 <= k < |t| ==> !IsLineTerminator(t[k])
  }

  /** `url.replace(/\/+$/, "")`. */
  function StripTrailingSlashes(s: string): (r: string)
    ensures |r| <= |s| && r == s[..|r|]
    ensures r == [] || r[|r| - 1] != '/'
    ensures forall k :: |r| <= k < |s| ==> s[k] == '/'
  {
    if s != [] && s[|s| - 1] == '/' then StripTrailingSlashes(s[..|s| - 1]) else s
  }

  /** The length of the longest prefix of `s` without a slash. */
  function SlashFreePrefix(s: string): (n: nat)
    ensures n <= |s|
    ensures forall k :: 0 <= k < n ==> s[k] != '/'
    ensures n == |s| || s[n] == '/'
  {
    if s == [] || s[0] == '/' then 0 else 1 + SlashFreePrefix(s[1..])
  }

  /** The length of the longest prefix of `s` without a line terminator. */
  function LinePrefix(s: string): (n: nat)
    ensures n <= |s|
    ensures forall k :: 0 <= k < n ==> !IsLineTerminator(s[k])
    ensures n == |s| || IsLineTerminator(s[n])
  {
    if s == [] || IsLineTerminator(s[0]) then 0 else 1 + LinePrefix(s[1..])
  }

  /** `([^\/]+)\/` at the front of `s`: the segment and the text after its slash. */
  function Segment(s: string): (r: Option<(string, string)>)
    ensures r.Some? ==> IsSegment(r.value.0) && s == r.value.0 + "/" + r.value.1
  {
    var n := SlashFreePrefix(s);
    if 0 < n < |s| then
      assert forall k :: 0 <= k < n ==> s[..n][k] == s[k];
      assert s == s[..n] + "/" + s[n + 1..];
      Some((s[..n], s[n + 1..]))
    else None
  }

  /** `([^\/]+)(?:\/)?$` after the owner's slash: the repository name up to the end. */
  function MatchRepoToEnd(t: string): (r: Option<string>)
    ensures r.Some? ==> IsSegment(r.value) && (t == r.value || t == r.value + "/")
    ensures r.Some? ==> StartsWith(t, r.value)
  {
    var n := SlashFreePrefix(t);
    if 0 < n && (n == |t| || n + 1 == |t|) then
      assert forall k :: 0 <= k < n ==> t[..n][k] == t[k];
      assert n + 1 == |t| ==> t == t[..n] + "/";
      Some(t[..n])
    else None
  }

  /** `([^\/]+)\/<kw>([^\/]+)\/(.+)` after the owner's slash: repository, branch and path. */
  function MatchRepoPath(t: string, kw: string): (r: Option<(string, string, string)>)
    ensures r.Some? ==> IsSegment(r.value.0) && IsSegment(r.value.1) && IsLine(r.value.2)
    ensures r.Some? ==> StartsWith(t, r.value.0)
  {
    match Segment(t)
    case None => None
    case Some((repo, rest2)) =>
      if !StartsWith(rest2, kw) then None
      else
        match Segment(rest2[|kw|..])
        case None => None
        case Some((branch, rest3)) =>
          var n := LinePrefix(rest3);
          if n == 0 then None
          else
            var path := rest3[..n];
            assert forall k :: 0 <= k < n ==> path[k] == rest3[k];
            StartsWithSelf(repo, "/" + rest2);
            assert t == repo + ("/" + rest2);
            Some((repo, branch, path))
  }

  /** One pattern matched after `github.com/`, from the owner on. */
  function MatchAfterHost(t: string, pat: Pattern): (r: Option<Captures>)
    ensures r.Some? ==> IsSegment(r.value.owner) && IsSegment(r.value.repo)
    ensures r.Some? && pat.PathPattern? ==> IsSegment(r.value.branch) && IsLine(r.value.path)
  {
    match Segment(t)
    case None => None
    case Some((owner, rest1)) =>
      match pat
      case RootPattern =>
        (match MatchRepoToEnd(rest1)
         case None => None
         case Some(repo) => Some(Captures(owner, repo, "", "")))
      case PathPattern(kw) =>
        match MatchRepoPath(rest1, kw)
        case None => None
        case Some((repo, branch, path)) => Some(Captures(owner, repo, branch, path))
  }

  /** One pattern matched at the front of `s` (the regex engine at one start index). */
  function MatchHere(s: string, pat: Pattern): (r: Option<Captures>)
    ensures r.Some? ==> IsSegment(r.value.owner) && IsSegment(r.value.repo)
    ensures r.Some? && pat.PathPattern? ==> IsSegment(r.value.branch) && IsLine(r.value.path)
  {
    if StartsWith(s, Host) then MatchAfterHost(s[|Host|..], pat) else None
  }

  lemma MatchHereHost(t: string, pat: Pattern)
    ensures MatchHere(Host + t, pat) == MatchAfterHost(t, pat)
  {
    StartsWithSelf(Host, t);
    assert (Host + t)[|Host|..] == t;
  }

  /** The front of every match spells `github.com/<owner>/<repo>`. */
  lemma MatchHereSpells(s: string, pat: Pattern)
    requires MatchHere(s, pat).Some?
    ensures var c := MatchHere(s, pat).value; StartsWith(s, Host + (c.owner + "/" + c.repo))
  {
    var c := MatchHere(s, pat).value;
    var t := s[|Host|..];
    var rest1 := Segment(t).value.1;
    assert t == c.owner + "/" + rest1;
    assert StartsWith(rest1, c.repo);
    StartsWithCons(c.owner + "/", rest1, c.repo);
    StartsWithCons(Host, t, c.owner + "/" + c.repo);
    assert s == Host + t;
  }

  /** The leftmost start index at or after `from` where `pat` matches. */
  function FirstMatch(s: string, from: nat, pat: Pattern): (r: Option<nat>)
    ensures r.Some? ==> from <= r.value <= |s| && MatchHere(s[r.value..], pat).Some?
    ensures r.Some? ==> forall j :: from <= j < r.value ==> MatchHere(s[j..], pat).None?
    ensures r.None? ==> forall j :: from <= j <= |s| ==> MatchHere(s[j..], pat).None?
    decreases |s| - from
  {
    if from > |s| then None
    else if MatchHere(s[from..], pat).Some? then Some(from)
    else FirstMatch(s, from + 1, pat)
  }

  /** The captures of the leftmost match of `pat` in `s`, as `s.match(regex)` returns them. */
  function Search(s: string, pat: Pattern): (r: Option<Captures>)
    ensures r.Some? ==> exists i :: 0 <= i <= |s| && MatchHere(s[i..], pat) == r
    ensures r.None? <==> forall i :: 0 <= i <= |s| ==> MatchHere(s[i..], pat).None?
  {
    match FirstMatch(s, 0, pat)
    case None => None
    case Some(i) => MatchHere(s[i..], pat)
  }

  /** `/^(Final-Project|final-project|project|client|frontend|my-app)/i`. */
  predicate IsNestedName(path: string) {
    exists k | 0 <= k < |NestedPrefixes| :: StartsWithIgnoreCase(path, NestedPrefixes[k])
  }

  /** The URL classification of `analyzeGitHubUrl` (src/services/github.js). */
  function AnalyzeGitHubUrl(url: string): (info: UrlInfo)
    ensures info.url == StripTrailingSlashes(url)
    ensures !info.Unknown? ==> IsSegment(info.owner) && IsSegment(info.repo)
    ensures info.RootRepository? ==> info.branch == "main"
    ensures info.NestedDirectory? || info.SrcDirectory? || info.SingleFile? ==>
              IsSegment(info.branch) && IsLine(info.path)
    ensures info.NestedDirectory? || info.SrcDirectory? ==>
              (info.SrcDirectory? <==> EqualsIgnoreCase(info.path, "src"))
  {
    var u := StripTrailingSlashes(url);
    match Search(u, TreePattern)
    case Some(c) =>
      SrcIsNotNested(c.path);
      if !IsNestedName(c.path) && EqualsIgnoreCase(c.path, "src") then
        SrcDirectory(c.owner, c.repo, c.branch, c.path, u)
      else NestedDirectory(c.owner, c.repo, c.branch, c.path, u)
    case None =>
      match Search(u, BlobPattern)
      case Some(c) => SingleFile(c.owner, c.repo, c.branch, c.path, u)
      case None =>
        match Search(u, RootPattern)
        case Some(c) => RootRepository(c.owner, c.repo, "main", u)
        case None => Unknown(u)
  }

  lemma StartsWithAt(s: string, t: string, i: nat)
    requires i <= |s| && StartsWith(s[i..], t)
    ensures Contains(s, t)
  {
    assert s[i..][..|t|] == s[i..i + |t|];
    assert OccursAt(s, t, i);
  }

  /** No path beginning with "src" in any case starts with one of the nested names. */
  lemma SrcIsNotNested(path: string)
    ensures EqualsIgnoreCase(path, "src") ==> !IsNestedName(path)
  {
  }

  lemma SearchSpells(u: string, pat: Pattern)
    requires Search(u, pat).Some?
    ensures var c := Search(u, pat).value; Contains(u, RootTail(c.owner, c.repo))
  {
    var c := Search(u, pat).value;
    var i :| 0 <= i <= |u| && MatchHere(u[i..], pat) == Some(c);
    MatchHereSpells(u[i..], pat);
    StartsWithAt(u, RootTail(c.owner, c.repo), i);
  }

  /** The result names, after `github.com/`, the owner and repository it reports. */
  lemma AnalyzeNamesRepository(url: string)
    ensures var info := AnalyzeGitHubUrl(url);
            !info.Unknown? ==> Contains(info.url, RootTail(info.owner, info.repo))
  {
    var u := StripTrailingSlashes(url);
    if Search(u, TreePattern).Some? {
      SearchSpells(u, TreePattern);
    } else if Search(u, BlobPattern).Some? {
      SearchSpells(u, BlobPattern);
    } else if Search(u, RootPattern).Some? {
      SearchSpells(u, RootPattern);
    }
  }

  /** Where the input lacks `github.com/`, no suffix of its stripped form starts with it. */
  lemma NoHostAt(url: string, i: nat)
    requires !Contains(url, Host) && i <= |StripTrailingSlashes(url)|
    ensures !StartsWith(StripTrailingSlashes(url)[i..], Host)
  {
    var u := StripTrailingSlashes(url);
    if StartsWith(u[i..], Host) {
      assert u[i..][..|Host|] == url[i..i + |Host|];
      assert OccursAt(url, Host, i);
      assert false;
    }
  }

  /** A URL without `github.com/` in it is never recognised. */
  lemma NoHostIsUnknown(url: string)
    requires !Contains(url, Host)
    ensures AnalyzeGitHubUrl(url) == Unknown(StripTrailingSlashes(url))
  {
    var u := StripTrailingSlashes(url);
    forall i, pat | 0 <= i <= |u| ensures MatchHere(u[i..], pat).None? {
      NoHostAt(url, i);
    }
  }

  /** Extra trailing slashes never change the classification. */
  lemma TrailingSlashIgnored(url: string)
    ensures AnalyzeGitHubUrl(url + "/") == AnalyzeGitHubUrl(url)
  {
    assert (url + "/")[..|url|] == url;
  }

  // ---------------------------------------------------------------------------
  // Constructed URLs are recognised with the parts they were built from.

  lemma {:induction false} SlashFreePrefixOf(t: string, rest: string)
    requires '/' !in t
    ensures SlashFreePrefix(t + "/" + rest) == |t|
    decreases |t|
  {
    if t != [] {
      assert (t + "/" + rest)[1..] == t[1..] + "/" + rest;
      SlashFreePrefixOf(t[1..], rest);
    }
  }

  lemma {:induction false} SlashFreePrefixAll(t: string)
    requires '/' !in t
    ensures SlashFreePrefix(t) == |t|
    decreases |t|
  {
    if t != [] {
      SlashFreePrefixAll(t[1..]);
    }
  }

  lemma {:induction false} LinePrefixAll(t: string)
    requires forall k :: 0 <= k < |t| ==> !IsLineTerminator(t[k])
    ensures LinePrefix(t) == |t|
    decreases |t|
  {
    if t != [] {
      LinePrefixAll(t[1..]);
    }
  }

  lemma SegmentOf(t: string, rest: string)
    requires IsSegment(t)
    ensures Segment(t + "/" + rest) == Some((t, rest))
  {
    SlashFreePrefixOf(t, rest);
    var s := t + "/" + rest;
    assert s[..|t|] == t;
    assert s[|t| + 1..] == rest;
  }

  /** `github.com/o/r/<kw>b/p`, the part of a URL the path patterns read. */
  function PathTail(o: string, r: string, kw: string, b: string, p: string): string {
    Host + (o + "/" + (r + "/" + (kw + (b + "/" + p))))
  }

  /** `github.com/o/r`, the part of a URL the repository pattern reads. */
  function RootTail(o: string, r: string): string {
    Host + (o + "/" + r)
  }

  lemma MatchRepoPathOf(r: string, kw: string, b: string, p: string)
    requires IsSegment(r) && IsSegment(b) && IsLine(p)
    ensures MatchRepoPath(r + "/" + (kw + (b + "/" + p)), kw) == Some((r, b, p))
  {
    var rest2 := kw + (b + "/" + p);
    SegmentOf(r, rest2);
    StartsWithSelf(kw, b + "/" + p);
    assert rest2[|kw|..] == b + "/" + p;
    SegmentOf(b, p);
    LinePrefixAll(p);
    assert p[..|p|] == p;
  }

  lemma MatchPathTail(o: string, r: string, kw: string, b: string, p: string)
    requires IsSegment(o) && IsSegment(r) && IsSegment(b) && IsLine(p)
    ensures MatchHere(PathTail(o, r, kw, b, p), PathPattern(kw)) == Some(Captures(o, r, b, p))
  {
    var rest1 := r + "/" + (kw + (b + "/" + p));
    MatchHereHost(o + "/" + rest1, PathPattern(kw));
    SegmentOf(o, rest1);
    MatchRepoPathOf(r, kw, b, p);
  }

  lemma MatchRootTail(o: string, r: string)
    requires IsSegment(o) && IsSegment(r)
    ensures MatchHere(RootTail(o, r), RootPattern) == Some(Captures(o, r, "", ""))
  {
    MatchHereHost(o + "/" + r, RootPattern);
    SegmentOf(o, r);
    SlashFreePrefixAll(r);
    assert r[..|r|] == r;
  }

  /** A bare repository URL has no slash left for a `/tree/` or `/blob/` path. */
  lemma RootTailIsNoPath(o: string, r: string, kw: string)
    requires IsSegment(o) && IsSegment(r)
    ensures MatchHere(RootTail(o, r), PathPattern(kw)).None?
  {
    MatchHereHost(o + "/" + r, PathPattern(kw));
    SegmentOf(o, r);
    SlashFreePrefixAll(r);
  }

  /** A `/blob/` URL does not match the `/tree/` pattern at its host. */
  lemma BlobTailIsNoTree(o: string, r: string, b: string, p: string)
    requires IsSegment(o) && IsSegment(r)
    ensures MatchHere(PathTail(o, r, "blob/", b, p), TreePattern).None?
  {
    var rest2 := "blob/" + (b + "/" + p);
    var rest1 := r + "/" + rest2;
    MatchHereHost(o + "/" + rest1, TreePattern);
    SegmentOf(o, rest1);
    SegmentOf(r, rest2);
    assert rest2[0] == 'b';
  }

  const Scheme: string := "https://"

  lemma HostNotInScheme(tail: string, j: nat)
    requires j < |Scheme|
    ensures !StartsWith((Scheme + tail)[j..], Host)
  {
    var s := Scheme + tail;
    assert s[j] == Scheme[j];
    assert s[j..][0] == s[j];
  }

  /** Nothing matches before the host in a URL that starts with the scheme. */
  lemma NoMatchInScheme(tail: string, pat: Pattern, j: nat)
    requires j < |Scheme|
    ensures MatchHere((Scheme + tail)[j..], pat).None?
  {
    HostNotInScheme(tail, j);
  }

  /** The text `t` contains `github.com/` only at its front. */
  predicate HostOnlyAtFront(t: string) {
    forall i :: 0 < i <= |t| ==> !StartsWith(t[i..], Host)
  }

  lemma NoMatchBeyond(tail: string, pat: Pattern, j: nat)
    requires HostOnlyAtFront(tail)
    requires |Scheme| < j <= |Scheme + tail|
    ensures MatchHere((Scheme + tail)[j..], pat).None?
  {
    assert (Scheme + tail)[j..] == tail[j - |Scheme|..];
  }

  /** The search finds `pat` at index `i` of `s` when it matches there and nowhere before. */
  lemma FirstMatchAt(s: string, pat: Pattern, i: nat)
    requires i <= |s| && MatchHere(s[i..], pat).Some?
    requires forall j :: 0 <= j < i ==> MatchHere(s[j..], pat).None?
    ensures Search(s, pat) == MatchHere(s[i..], pat)
  {
  }

  /** Under the scheme, the search finds `pat` at the host when it matches there. */
  lemma SearchAtHost(tail: string, pat: Pattern)
    requires MatchHere(tail, pat).Some?
    ensures Search(Scheme + tail, pat) == MatchHere(tail, pat)
  {
    var url := Scheme + tail;
    assert url[|Scheme|..] == tail;
    forall j | 0 <= j < |Scheme| ensures MatchHere(url[j..], pat).None? {
      NoMatchInScheme(tail, pat, j);
    }
    FirstMatchAt(url, pat, |Scheme|);
  }

  /** Under the scheme, `pat` is never found when it fails at the host and nothing follows it. */
  lemma SearchFailsAtHost(tail: string, pat: Pattern)
    requires MatchHere(tail, pat).None? && HostOnlyAtFront(tail)
    ensures Search(Scheme + tail, pat).None?
  {
    var url := Scheme + tail;
    assert url[|Scheme|..] == tail;
    forall j | 0 <= j <= |url| ensures MatchHere(url[j..], pat).None? {
      if j < |Scheme| {
        NoMatchInScheme(tail, pat, j);
      } else if j > |Scheme| {
        NoMatchBeyond(tail, pat, j);
      }
    }
  }

  lemma NoSlashAtEnd(a: string, b: string)
    requires b != [] && b[|b| - 1] != '/'
    ensures StripTrailingSlashes(a + b) == a + b
  {
    assert (a + b)[|a + b| - 1] == b[|b| - 1];
  }

  lemma PathTailNoSlashAtEnd(o: string, r: string, kw: string, b: string, p: string)
    requires p != [] && p[|p| - 1] != '/'
    ensures StripTrailingSlashes(Scheme + PathTail(o, r, kw, b, p)) == Scheme + PathTail(o, r, kw, b, p)
  {
    var x := b + "/" + p;
    assert x[|x| - 1] == p[|p| - 1];
    var y := kw + x;
    assert y[|y| - 1] == p[|p| - 1];
    var z := r + "/" + y;
    assert z[|z| - 1] == p[|p| - 1];
    var w := o + "/" + z;
    assert w[|w| - 1] == p[|p| - 1];
    var tail := Host + w;
    assert tail[|tail| - 1] == p[|p| - 1];
    NoSlashAtEnd(Scheme, tail);
  }

  /** `https://github.com/o/r/tree/b/p` is a src or nested directory with exactly those parts. */
  lemma AnalyzeTreeUrl(o: string, r: string, b: string, p: string)
    requires IsSegment(o) && IsSegment(r) && IsSegment(b) && IsLine(p) && p[|p| - 1] != '/'
    ensures var url := Scheme + PathTail(o, r, "tree/", b, p);
            AnalyzeGitHubUrl(url) ==
              if EqualsIgnoreCase(p, "src") then SrcDirectory(o, r, b, p, url)
              else NestedDirectory(o, r, b, p, url)
  {
    PathTailNoSlashAtEnd(o, r, "tree/", b, p);
    MatchPathTail(o, r, "tree/", b, p);
    SearchAtHost(PathTail(o, r, "tree/", b, p), TreePattern);
    SrcIsNotNested(p);
  }

  /**
   * `https://github.com/o/r/blob/b/p` is a single file with exactly those parts, provided
   * `github.com/` occurs only once (a later `/tree/` URL inside the path would win).
   */
  lemma AnalyzeBlobUrl(o: string, r: string, b: string, p: string)
    requires IsSegment(o) && IsSegment(r) && IsSegment(b) && IsLine(p) && p[|p| - 1] != '/'
    requires HostOnlyAtFront(PathTail(o, r, "blob/", b, p))
    ensures var url := Scheme + PathTail(o, r, "blob/", b, p);
            AnalyzeGitHubUrl(url) == SingleFile(o, r, b, p, url)
  {
    var tail := PathTail(o, r, "blob/", b, p);
    PathTailNoSlashAtEnd(o, r, "blob/", b, p);
    BlobTailIsNoTree(o, r, b, p);
    SearchFailsAtHost(tail, TreePattern);
    MatchPathTail(o, r, "blob/", b, p);
    SearchAtHost(tail, BlobPattern);
  }

  /**
   * `https://github.com/o/r` is the root repository `o/r` on the branch still to be
   * resolved, provided `github.com/` occurs only once.
   */
  lemma AnalyzeRootUrl(o: string, r: string)
    requires IsSegment(o) && IsSegment(r) && HostOnlyAtFront(RootTail(o, r))
    ensures var url := Scheme + RootTail(o, r);
            AnalyzeGitHubUrl(url) == RootRepository(o, r, "main", url)
  {
    var tail := RootTail(o, r);
    var w := o + "/" + r;
    assert w[|w| - 1] == r[|r| - 1];
    assert tail[|tail| - 1] == r[|r| - 1];
    NoSlashAtEnd(Scheme, tail);
    RootTailIsNoPath(o, r, "tree/");
    SearchFailsAtHost(tail, TreePattern);
    RootTailIsNoPath(o, r, "blob/");
    SearchFailsAtHost(tail, BlobPattern);
    MatchRootTail(o, r);
    SearchAtHost(tail, RootPattern);
  }
}
