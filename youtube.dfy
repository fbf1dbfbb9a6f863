/**
 * The YouTube helpers (src/services/youtube.js): the video id that a watch,
 * embed or short link carries, and the transcript text assembled from the
 * caption items.  The caption service is a parameter: the items it gives for
 * an id, or the error it fails with.
 */
module YouTube {
  import opened Wrappers
  import opened JsString

  // ---------------------------------------------------------------------
  // extractVideoId: the pattern
  //   (?:youtube\.com\/(?:[^\/]+\/.+\/|(?:v|e(?:mbed)?)\/|.*[?&]v=)|youtu\.be\/)([^"&?\/\s]{11})
  // searched leftmost-first, with backtracking, and its capture group.
  // ---------------------------------------------------------------------

  /** A character of the class `[^"&?\/\s]`. */
  predicate IdChar(c: char) {
    c != '"' && c != '&' && c != '?' && c != '/' && !IsWhitespace(c)
  }

  /** Eleven characters of that class: what the capture group accepts. */
  predicate IsVideoId(id: string) {
    |id| == 11 && forall k :: 0 <= k < 11 ==> IdChar(id[k])
  }

  /** The capture group can be read at index `j`. */
  predicate IdAt(s: string, j: int) {
    0 <= j && j + 11 <= |s| && IsVideoId(s[j..j + 11])
  }

  /** How far `.` reaches from `from`: the first line terminator, or the end. */
  function LineEnd(s: string, from: nat): (e: nat)
    requires from <= |s|
    ensures from <= e <= |s|
    ensures forall k :: from <= k < e ==> !IsLineTerminator(s[k])
    ensures e < |s| ==> IsLineTerminator(s[e])
    decreases |s| - from
  {
    if from == |s| || IsLineTerminator(s[from]) then from else LineEnd(s, from + 1)
  }

  /** A `/` at `k` with an id right after it: where the greedy `.+\/` can stop. */
  predicate SlashIdAt(s: string, k: int) {
    0 <= k < |s| && s[k] == '/' && IdAt(s, k + 1)
  }

  /** A `?` or `&` at `k` followed by `v=` and an id: where the greedy `.*[?&]v=` can stop. */
  predicate QueryIdAt(s: string, k: int) {
    0 <= k < |s| && (s[k] == '?' || s[k] == '&') && OccursAt(s, "v=", k + 1) && IdAt(s, k + 3)
  }

  /** Greedy backtracking keeps the last `/` in `[lo, hi)` that has an id after it. */
  function LastSlashBeforeId(s: string, lo: nat, hi: nat): (r: Option<nat>)
    ensures r.Some? ==> lo <= r.value < hi && SlashIdAt(s, r.value)
    ensures r.Some? ==> forall k :: r.value < k < hi ==> !SlashIdAt(s, k)
    ensures r.None? ==> forall k :: lo <= k < hi ==> !SlashIdAt(s, k)
    decreases hi
  {
    if hi <= lo then None
    else if SlashIdAt(s, hi - 1) then Some(hi - 1)
    else LastSlashBeforeId(s, lo, hi - 1)
  }

  /** Greedy backtracking keeps the last `?v=` or `&v=` in `[lo, hi)` that has an id after it. */
  function LastQueryBeforeId(s: string, lo: nat, hi: nat): (r: Option<nat>)
    ensures r.Some? ==> lo <= r.value < hi && QueryIdAt(s, r.value)
    ensures r.Some? ==> forall k :: r.value < k < hi ==> !QueryIdAt(s, k)
    ensures r.None? ==> forall k :: lo <= k < hi ==> !QueryIdAt(s, k)
    decreases hi
  {
    if hi <= lo then None
    else if QueryIdAt(s, hi - 1) then Some(hi - 1)
    else LastQueryBeforeId(s, lo, hi - 1)
  }

  /**
   * `[^\/]+\/.+\/` after `youtube.com/` at `p`: one path segment up to the
   * first `/` (at `q`), then at least one character of the same line, then
   * the last `/` that is followed by an id.
   */
  function SegmentForm(s: string, p: nat): (r: Option<nat>)
    requires p <= |s|
    ensures r.Some? ==> IdAt(s, r.value)
  {
    match IndexOfFrom(s, "/", p)
    case None => None
    case Some(q) =>
      if q == p then None
      else
        var k := LastSlashBeforeId(s, q + 2, LineEnd(s, q + 1));
        if k.Some? then Some(k.value + 1) else None
  }

  /** `(?:v|e(?:mbed)?)\/` after `youtube.com/` at `p`: `v/`, `embed/` or `e/`. */
  function PathForm(s: string, p: nat): (r: Option<nat>)
    ensures r.Some? ==> IdAt(s, r.value)
  {
    if OccursAt(s, "v/", p) && IdAt(s, p + 2) then Some(p + 2)
    else if OccursAt(s, "embed/", p) && IdAt(s, p + 6) then Some(p + 6)
    else if OccursAt(s, "e/", p) && IdAt(s, p + 2) then Some(p + 2)
    else None
  }

  /** `.*[?&]v=` after `youtube.com/` at `p`, within the line. */
  function QueryForm(s: string, p: nat): (r: Option<nat>)
    requires p <= |s|
    ensures r.Some? ==> IdAt(s, r.value)
  {
    var k := LastQueryBeforeId(s, p, LineEnd(s, p));
    if k.Some? then Some(k.value + 3) else None
  }

  /** The three alternatives after `youtube.com/`, tried in order. */
  function LongForm(s: string, p: nat): (r: Option<nat>)
    requires p <= |s|
    ensures r.Some? ==> IdAt(s, r.value)
  {
    var segment := SegmentForm(s, p);
    if segment.Some? then segment
    else
      var path := PathForm(s, p);
      if path.Some? then path else QueryForm(s, p)
  }

  /** A match starting at index `i`, as the index of its capture group. */
  function MatchAt(s: string, i: nat): (r: Option<nat>)
    requires i <= |s|
    ensures r.Some? ==> IdAt(s, r.value)
    ensures r.Some? ==> OccursAt(s, "youtube.com/", i) || OccursAt(s, "youtu.be/", i)
  {
    if OccursAt(s, "youtube.com/", i) && LongForm(s, i + 12).Some? then LongForm(s, i + 12)
    else if OccursAt(s, "youtu.be/", i) && IdAt(s, i + 9) then Some(i + 9)
    else None
  }

  /** The leftmost index at or after `from` where a match starts. */
  function FirstMatch(s: string, from: nat): (r: Option<nat>)
    requires from <= |s|
    ensures r.Some? ==> from <= r.value <= |s|
    decreases |s| - from
  {
    if MatchAt(s, from).Some? then Some(from)
    else if from == |s| then None
    else FirstMatch(s, from + 1)
  }

  /** The index found is a match with none before it; when none is found there is none at all. */
  lemma {:induction false} FirstMatchFacts(s: string, from: nat)
    requires from <= |s|
    ensures var r := FirstMatch(s, from);
      (r.Some? ==> MatchAt(s, r.value).Some? && forall j :: from <= j < r.value ==> MatchAt(s, j).None?) &&
      (r.None? ==> forall j :: from <= j <= |s| ==> MatchAt(s, j).None?)
    decreases |s| - from
  {
    if MatchAt(s, from).None? && from < |s| {
      FirstMatchFacts(s, from + 1);
      var r := FirstMatch(s, from + 1);
      assert FirstMatch(s, from) == r;
      var hi := if r.Some? then r.value else |s| + 1;
      forall j | from <= j < hi ensures MatchAt(s, j).None? {
        if j > from {
          assert from + 1 <= j < hi;
        }
      }
    }
  }

  const InvalidUrl := "Invalid YouTube URL format"

  /**
   * `extractVideoId`: the capture group of the leftmost match, which is eleven
   * id characters taken from the URL; a URL with no match is an error.
   */
  function ExtractVideoId(url: string): (r: Result<string>)
    ensures r.Ok? ==> IsVideoId(r.value) && Contains(url, r.value)
    ensures r.Err? ==> r.message == InvalidUrl
  {
    match FirstMatch(url, 0)
    case None => Err(InvalidUrl)
    case Some(i) =>
      FirstMatchFacts(url, 0);
      var j := MatchAt(url, i).value;
      assert OccursAt(url, url[j..j + 11], j);
      Ok(url[j..j + 11])
  }

  /** The id is the capture group of the leftmost match, and there is an error exactly when nothing matches. */
  lemma ExtractVideoIdLeftmost(url: string)
    ensures var r := ExtractVideoId(url);
      r.Ok? ==> exists i | 0 <= i <= |url| :: MatchAt(url, i).Some?
                  && r.value == url[MatchAt(url, i).value..MatchAt(url, i).value + 11]
                  && forall j :: 0 <= j < i ==> MatchAt(url, j).None?
    ensures ExtractVideoId(url).Err? <==> forall i :: 0 <= i <= |url| ==> MatchAt(url, i).None?
  {
    FirstMatchFacts(url, 0);
    match FirstMatch(url, 0)
    case None =>
    case Some(i) =>
      assert MatchAt(url, i).Some?;
  }

  /** The id comes from the leftmost index where a match starts. */
  lemma LeftmostMatchDecides(s: string, i: nat)
    requires i <= |s| && MatchAt(s, i).Some?
    requires forall j :: 0 <= j < i ==> MatchAt(s, j).None?
    ensures ExtractVideoId(s) == Ok(s[MatchAt(s, i).value..MatchAt(s, i).value + 11])
  {
    FirstMatchFacts(s, 0);
    var f := FirstMatch(s, 0);
    assert f.Some?;
    assert f.value <= i;
    assert f.value >= i;
  }

  /** No match can start at a character other than `y`. */
  lemma NoMatchOffY(s: string, j: nat)
    requires j < |s| && s[j] != 'y'
    ensures MatchAt(s, j).None?
  {
    MatchStartsAtY(s, j);
  }

  /** Both host spellings start with `y`. */
  lemma MatchStartsAtY(s: string, j: nat)
    requires j <= |s|
    ensures MatchAt(s, j).Some? ==> j < |s| && s[j] == 'y'
  {
    if OccursAt(s, "youtube.com/", j) {
      OccursAtHead(s, "youtube.com/", j);
    } else if OccursAt(s, "youtu.be/", j) {
      OccursAtHead(s, "youtu.be/", j);
    }
  }

  /** No match starts inside a prefix without `y`. */
  lemma NoMatchInPrefix(pre: string, s: string)
    requires 'y' !in pre
    ensures forall j :: 0 <= j < |pre| ==> MatchAt(pre + s, j).None?
  {
    forall j | 0 <= j < |pre| ensures MatchAt(pre + s, j).None? {
      assert (pre + s)[j] == pre[j];
      NoMatchOffY(pre + s, j);
    }
  }

  /** Both host spellings begin with `youtu`. */
  lemma MatchNeedsHost(s: string, i: nat)
    requires i <= |s| && MatchAt(s, i).Some?
    ensures OccursAt(s, "youtu", i)
  {
    if OccursAt(s, "youtube.com/", i) {
      assert s[i..i + 5] == s[i..i + 12][..5];
    } else {
      assert s[i..i + 5] == s[i..i + 9][..5];
    }
  }

  /** A URL that never mentions `youtu` has no video id. */
  lemma NoHostNoId(url: string)
    requires !Contains(url, "youtu")
    ensures ExtractVideoId(url) == Err("Invalid YouTube URL format")
  {
    forall i | 0 <= i <= |url| ensures MatchAt(url, i).None? {
      if MatchAt(url, i).Some? {
        MatchNeedsHost(url, i);
        assert false;
      }
    }
    ExtractVideoIdLeftmost(url);
  }

  /** A short link `…youtu.be/<id>…` yields `<id>`. */
  lemma ShortLinkId(pre: string, id: string, rest: string)
    requires 'y' !in pre && IsVideoId(id)
    ensures ExtractVideoId(pre + "youtu.be/" + id + rest) == Ok(id)
  {
    var url := pre + "youtu.be/" + id + rest;
    var i := |pre|;
    assert url == pre + ("youtu.be/" + id + rest);
    NoMatchInPrefix(pre, "youtu.be/" + id + rest);
    assert url[i..i + 9] == "youtu.be/";
    assert url[i + 9..i + 20] == id;
    assert url[i + 5] == '.';
    assert !OccursAt(url, "youtube.com/", i) by {
      assert i + 12 > |url| || url[i..i + 12][5] == '.';
    }
    assert MatchAt(url, i) == Some(i + 9);
    LeftmostMatchDecides(url, i);
  }

  /** With no `/` from `p` on, the segment form cannot match. */
  lemma NoSegmentWithoutSlash(s: string, p: nat)
    requires p <= |s|
    requires forall j :: p <= j < |s| ==> s[j] != '/'
    ensures SegmentForm(s, p).None?
  {
  }

  /** The query form takes the last `?v=`/`&v=` of the line. */
  lemma QueryFormTakesLast(s: string, p: nat, k0: nat)
    requires p <= |s| && p <= k0 < LineEnd(s, p) && QueryIdAt(s, k0)
    requires forall k :: k0 < k < |s| ==> !QueryIdAt(s, k)
    ensures QueryForm(s, p) == Some(k0 + 3)
  {
  }

  /** What follows `youtube.com/` in a watch link: no `/`, and the `?v=` of `watch?v=` is the last one. */
  lemma WatchTail(id: string, rest: string)
    requires IsVideoId(id)
    requires '/' !in rest && !Contains(rest, "v=")
    ensures var tail := "watch?v=" + id + rest;
      (forall j :: 0 <= j < |tail| ==> tail[j] != '/') &&
      LineEnd(tail, 0) >= 19 && QueryIdAt(tail, 5) &&
      (forall k :: 5 < k < |tail| ==> !QueryIdAt(tail, k))
  {
    var tail := "watch?v=" + id + rest;
    forall j | 0 <= j < |tail| ensures tail[j] != '/' && (j < 19 ==> !IsLineTerminator(tail[j])) {
      if j >= 19 {
        assert tail[j] == rest[j - 19];
      } else if j >= 8 {
        assert tail[j] == id[j - 8];
      }
    }
    assert tail[8..19] == id;
    assert tail[6..8] == "v=";
    forall k | 5 < k < |tail| ensures !QueryIdAt(tail, k) {
      if 8 <= k < 19 {
        assert tail[k] == id[k - 8];
      } else if k >= 19 && OccursAt(tail, "v=", k + 1) {
        assert tail[19..] == rest;
        assert rest[k - 18..k - 16] == tail[k + 1..k + 3];
        assert OccursAt(rest, "v=", k - 18);
        assert false;
      }
    }
  }

  lemma SliceOfSuffix(head: string, tail: string, a: nat, b: nat)
    requires |head| <= a <= b <= |head| + |tail|
    ensures (head + tail)[a..b] == tail[a - |head|..b - |head|]
  {
    assert (head + tail)[|head|..] == tail;
    assert (head + tail)[a..b] == (head + tail)[|head|..][a - |head|..b - |head|];
  }

  /** The facts of a suffix carry over to the whole string, shifted by the prefix length. */
  lemma ShiftedTail(head: string, tail: string)
    requires LineEnd(tail, 0) >= 19 && QueryIdAt(tail, 5)
    requires forall j :: 0 <= j < |tail| ==> tail[j] != '/'
    requires forall k :: 5 < k < |tail| ==> !QueryIdAt(tail, k)
    ensures var s := head + tail; var p := |head|;
      (forall j :: p <= j < |s| ==> s[j] != '/') &&
      p + 5 < LineEnd(s, p) && QueryIdAt(s, p + 5) &&
      (forall k :: p + 5 < k < |s| ==> !QueryIdAt(s, k))
  {
    var s := head + tail;
    var p := |head|;
    assert s[p..] == tail;
    forall k | p <= k < p + 19 ensures !IsLineTerminator(s[k]) {
      assert s[k] == tail[k - p];
    }
    forall k | p <= k < |s| ensures QueryIdAt(s, k) <==> QueryIdAt(tail, k - p) {
      assert s[k] == tail[k - p];
      if k + 3 <= |s| {
        SliceOfSuffix(head, tail, k + 1, k + 3);
      }
      if k + 14 <= |s| {
        SliceOfSuffix(head, tail, k + 3, k + 14);
      }
    }
  }

  /** The path form needs a `v` or an `e` right after `youtube.com/`. */
  lemma PathFormNeedsVOrE(s: string, p: nat)
    requires p < |s| && s[p] != 'v' && s[p] != 'e'
    ensures PathForm(s, p).None?
  {
    PathFormStart(s, p);
  }

  /** Each path form starts with `v` or `e`. */
  lemma PathFormStart(s: string, p: nat)
    ensures PathForm(s, p).Some? ==> p < |s| && (s[p] == 'v' || s[p] == 'e')
  {
    if OccursAt(s, "v/", p) {
      OccursAtHead(s, "v/", p);
    } else if OccursAt(s, "embed/", p) {
      OccursAtHead(s, "embed/", p);
    } else if OccursAt(s, "e/", p) {
      OccursAtHead(s, "e/", p);
    }
  }

  lemma WatchLiteral(pre: string, id: string, rest: string)
    ensures pre + "youtube.com/watch?v=" + id + rest == (pre + "youtube.com/") + ("watch?v=" + id + rest)
  {
    assert "youtube.com/watch?v=" == "youtube.com/" + "watch?v=";
  }

  /** A watch link `…youtube.com/watch?v=<id>…` yields `<id>` when nothing after it reads as a later match. */
  lemma WatchLinkId(pre: string, id: string, rest: string)
    requires 'y' !in pre && IsVideoId(id)
    requires '/' !in rest && !Contains(rest, "v=")
    ensures ExtractVideoId(pre + "youtube.com/watch?v=" + id + rest) == Ok(id)
  {
    var tail := "watch?v=" + id + rest;
    var head := pre + "youtube.com/";
    var url := head + tail;
    WatchLiteral(pre, id, rest);
    var i := |pre|;
    var p := i + 12;
    assert url == pre + ("youtube.com/" + tail);
    NoMatchInPrefix(pre, "youtube.com/" + tail);
    WatchTail(id, rest);
    ShiftedTail(head, tail);
    NoSegmentWithoutSlash(url, p);
    assert url[p] == 'w' by {
      assert url[p..] == tail;
    }
    PathFormNeedsVOrE(url, p);
    QueryFormTakesLast(url, p, p + 5);
    assert url[i..p] == "youtube.com/";
    assert url[p + 8..p + 19] == id;
    assert MatchAt(url, i) == Some(p + 8);
    LeftmostMatchDecides(url, i);
  }

  // ---------------------------------------------------------------------
  // getYouTubeTranscript: the caption items joined into one text.
  // ---------------------------------------------------------------------

  /** One caption item: its start in milliseconds, absent when the service gives none, and its text. */
  datatype TranscriptItem = TranscriptItem(offset: Option<int>, text: string)

  const NoTranscript := "No transcript available for this video."
  const TranscriptFailure := "Failed to retrieve transcript. Please check the YouTube URL and ensure the video has closed captions available."

  /** JavaScript's `%`: the remainder takes the sign of the dividend. */
  function JsRem(a: int, d: int): (r: int)
    requires d > 0
    ensures a >= 0 ==> r == a % d
    ensures a < 0 ==> -d < r <= 0
  {
    if a >= 0 then a % d else -((-a) % d)
  }

  /** `padStart(2, "0")`. */
  function PadStart2(s: string): (r: string)
    ensures |r| == if |s| >= 2 then |s| else 2
  {
    if |s| >= 2 then s else seq(2 - |s|, _ => '0') + s
  }

  /**
   * The `m:ss` label for an offset in milliseconds: whole seconds are the
   * floor of `offset / 1000` (Dafny's `/` floors for a positive divisor),
   * minutes the floor of those over 60, and the remaining seconds are padded.
   */
  function Timestamp(offset: int): string {
    var seconds := offset / 1000;
    IntToString(seconds / 60) + ":" + PadStart2(IntToString(JsRem(seconds, 60)))
  }

  /** `item.offset` is truthy: present and not zero. */
  predicate HasTimestamp(item: TranscriptItem) {
    item.offset.Some? && item.offset.value != 0
  }

  /** What one item adds: its label line when it has one, then its text and a blank line. */
  function ItemBlock(item: TranscriptItem): string {
    (if HasTimestamp(item) then Timestamp(item.offset.value) + "\n" else "") + item.text + "\n\n"
  }

  /** The blocks of all items, in order. */
  function TranscriptText(items: seq<TranscriptItem>): string {
    Concat(ItemBlock, items)
  }

  /** Two ASCII digits of a number below 100, as `padStart(2, "0")` leaves them. */
  lemma PadTwoDigits(n: nat)
    requires n < 60
    ensures var t := PadStart2(IntToString(n));
      |t| == 2 && IsAsciiDigit(t[0]) && IsAsciiDigit(t[1]) && ParseDigits(t) == n
  {
    var t := PadStart2(IntToString(n));
    if n < 10 {
      assert IntToString(n) == [DigitChar(n)];
      assert t == ['0', DigitChar(n)];
      assert t[..1] == ['0'];
    } else {
      assert NatToString(n / 10) == [DigitChar(n / 10)];
      assert t == [DigitChar(n / 10), DigitChar(n % 10)];
      assert t[..1] == [DigitChar(n / 10)];
    }
  }

  /**
   * A label reads back as the offset's whole seconds: the minutes, a colon,
   * and a two-digit seconds field from `00` to `59`.
   */
  lemma TimestampReadsBack(offset: int)
    requires offset >= 0
    ensures var t := Timestamp(offset); var m := |t| - 3;
      1 <= m && t[m] == ':' && IsDigits(t[..m]) && IsDigits(t[m + 1..])
      && ParseDigits(t[m + 1..]) < 60
      && ParseDigits(t[..m]) * 60 + ParseDigits(t[m + 1..]) == offset / 1000
  {
    var seconds := offset / 1000;
    var mm := NatToString(seconds / 60);
    var ss := PadStart2(IntToString(JsRem(seconds, 60)));
    PadTwoDigits(seconds % 60);
    assert IsDigits(ss);
    var t := Timestamp(offset);
    assert t == mm + ":" + ss;
    var m := |t| - 3;
    assert t[..m] == mm;
    assert t[m + 1..] == ss;
    var minutes, secs := ParseDigits(mm), ParseDigits(ss);
    assert minutes == seconds / 60 && secs == seconds % 60;
    MinutesAndSeconds(seconds);
  }

  lemma MinutesAndSeconds(seconds: nat)
    ensures seconds / 60 * 60 + seconds % 60 == seconds
  {
  }

  /** An item's block ends with its text and a blank line, after its label line when it has a timestamp. */
  lemma ItemBlockShape(item: TranscriptItem)
    ensures EndsWith(ItemBlock(item), item.text + "\n\n")
    ensures HasTimestamp(item) ==> StartsWith(ItemBlock(item), Timestamp(item.offset.value) + "\n")
    ensures !HasTimestamp(item) ==> ItemBlock(item) == item.text + "\n\n"
  {
    var line := if HasTimestamp(item) then Timestamp(item.offset.value) + "\n" else "";
    assert ItemBlock(item) == line + (item.text + "\n\n");
    EndsWithSelf(line, item.text + "\n\n");
    StartsWithSelf(line, item.text + "\n\n");
  }

  /** The transcript is empty exactly when there are no items. */
  lemma {:induction false} TranscriptEmptyIff(items: seq<TranscriptItem>)
    ensures TranscriptText(items) == "" <==> items == []
  {
    if items != [] {
      var last := items[|items| - 1];
      assert TranscriptText(items) == TranscriptText(items[..|items| - 1]) + ItemBlock(last);
      assert |ItemBlock(last)| >= 2;
    }
  }

  /** Item `k`'s block comes right after the blocks of the items before it. */
  lemma TranscriptInOrder(items: seq<TranscriptItem>, k: nat)
    requires k < |items|
    ensures StartsWith(TranscriptText(items), TranscriptText(items[..k]) + ItemBlock(items[k]))
  {
    ConcatOrder(ItemBlock, items, k);
  }

  /** The loop body: the label computed from the offset when it is truthy, then the text. */
  method FormatItem(item: TranscriptItem) returns (block: string)
    ensures block == ItemBlock(item)
  {
    var timestamp := "";
    if item.offset.Some? && item.offset.value != 0 {
      var seconds := item.offset.value / 1000;
      var minutes := seconds / 60;
      var remainingSeconds := JsRem(seconds, 60);
      timestamp := IntToString(minutes) + ":" + PadStart2(IntToString(remainingSeconds));
    }
    assert timestamp != "" <==> HasTimestamp(item);
    block := (if timestamp != "" then timestamp + "\n" else "") + item.text + "\n\n";
  }

  /** The `for (const item of transcriptItems)` loop. */
  method AssembleTranscript(items: seq<TranscriptItem>) returns (fullTranscript: string)
    ensures fullTranscript == TranscriptText(items)
  {
    fullTranscript := "";
    for i := 0 to |items|
      invariant fullTranscript == TranscriptText(items[..i])
    {
      var block := FormatItem(items[i]);
      fullTranscript := fullTranscript + block;
      assert items[..i + 1][..i] == items[..i];
    }
    assert items[..|items|] == items;
  }

  /**
   * `getYouTubeTranscript`: a URL without an id or a failed caption request
   * gives the fixed failure text; no items give the fixed placeholder;
   * otherwise the items' blocks in order.
   */
  method GetYouTubeTranscript(url: string, fetchTranscript: string -> Result<seq<TranscriptItem>>)
    returns (r: string)
    ensures ExtractVideoId(url).Err? ==> r == TranscriptFailure
    ensures ExtractVideoId(url).Ok? && fetchTranscript(ExtractVideoId(url).value).Err? ==> r == TranscriptFailure
    ensures ExtractVideoId(url).Ok? && fetchTranscript(ExtractVideoId(url).value).Ok? ==>
      var items := fetchTranscript(ExtractVideoId(url).value).value;
      r == if items == [] then NoTranscript else TranscriptText(items)
  {
    var videoId := ExtractVideoId(url);
    if videoId.Err? {
      return TranscriptFailure;
    }
    var items := fetchTranscript(videoId.value);
    if items.Err? {
      return TranscriptFailure;
    }
    var fullTranscript := AssembleTranscript(items.value);
    TranscriptEmptyIff(items.value);
    r := if fullTranscript != "" then fullTranscript else NoTranscript;
  }
}
