/**
 * `formatResponseToHtml` of src/services/ai.js: the AI model's markdown answer is HTML-escaped,
 * run through the markdown stages, has its newlines turned into `<br>` and finally loses the
 * `<br>` that sit right after a closing block tag or right before an opening one.
 */
module AiHtml {
  import opened Wrappers
  import opened JsString

  /** `s.replace(/c/g, rep)`: every occurrence of the character `c` becomes `rep`. */
  function ReplaceAll(s: string, c: char, rep: string): (r: string)
    ensures c !in s ==> r == s
    ensures c !in rep ==> c !in r
  {
    if s == [] then []
    else (if s[0] == c then rep else [s[0]]) + ReplaceAll(s[1..], c, rep)
  }

  lemma {:induction false} ReplaceAllAppend(a: string, b: string, c: char, rep: string)
    ensures ReplaceAll(a + b, c, rep) == ReplaceAll(a, c, rep) + ReplaceAll(b, c, rep)
    decreases |a|
  {
    if a == [] {
      assert a + b == b;
    } else {
      assert (a + b)[1..] == a[1..] + b;
      ReplaceAllAppend(a[1..], b, c, rep);
    }
  }

  /** The escape stage: `&` first, then `<`, then `>`. */
  function EscapeHtml(s: string): string {
    ReplaceAll(ReplaceAll(ReplaceAll(s, '&', "&amp;"), '<', "&lt;"), '>', "&gt;")
  }

  /** What one character turns into under escaping. */
  function EscapeChar(c: char): (r: string)
    ensures '<' !in r && '>' !in r
  {
    if c == '&' then "&amp;" else if c == '<' then "&lt;" else if c == '>' then "&gt;" else [c]
  }

  /** The reference escaping: each character replaced on its own. */
  function Escaped(s: string): (r: string)
    ensures '<' !in r && '>' !in r
  {
    if s == [] then [] else EscapeChar(s[0]) + Escaped(s[1..])
  }

  lemma EscapeOne(c: char)
    ensures EscapeHtml([c]) == EscapeChar(c)
  {
    if c == '&' {
      assert ReplaceAll([c], '&', "&amp;") == "&amp;" by {
        assert [c][1..] == [];
      }
    } else if c == '<' {
      assert ReplaceAll([c], '<', "&lt;") == "&lt;" by {
        assert [c][1..] == [];
      }
    } else if c == '>' {
      assert ReplaceAll([c], '>', "&gt;") == "&gt;" by {
        assert [c][1..] == [];
      }
    }
  }

  lemma EscapeAppend(a: string, b: string)
    ensures EscapeHtml(a + b) == EscapeHtml(a) + EscapeHtml(b)
  {
    ReplaceAllAppend(a, b, '&', "&amp;");
    var a1, b1 := ReplaceAll(a, '&', "&amp;"), ReplaceAll(b, '&', "&amp;");
    ReplaceAllAppend(a1, b1, '<', "&lt;");
    var a2, b2 := ReplaceAll(a1, '<', "&lt;"), ReplaceAll(b1, '<', "&lt;");
    ReplaceAllAppend(a2, b2, '>', "&gt;");
  }

  /**
   * Because `&` is replaced before the entities that contain it are introduced, the
   * escape stage replaces each character on its own and escapes nothing twice.
   */
  lemma {:induction false} EscapeIsPerCharacter(s: string)
    ensures EscapeHtml(s) == Escaped(s)
    decreases |s|
  {
    if s == [] {
    } else {
      assert s == [s[0]] + s[1..];
      EscapeAppend([s[0]], s[1..]);
      EscapeOne(s[0]);
      EscapeIsPerCharacter(s[1..]);
    }
  }

  /** After the escape stage no `<` and no `>` is left. */
  lemma EscapedHasNoAngles(s: string)
    ensures '<' !in EscapeHtml(s) && '>' !in EscapeHtml(s)
  {
    EscapeIsPerCharacter(s);
  }

  /** Decodes `&lt;`, `&gt;` and `&amp;` left to right and keeps every other character. */
  function Unescape(t: string): string {
    if t == [] then []
    else if StartsWith(t, "&lt;") then "<" + Unescape(t[4..])
    else if StartsWith(t, "&gt;") then ">" + Unescape(t[4..])
    else if StartsWith(t, "&amp;") then "&" + Unescape(t[5..])
    else [t[0]] + Unescape(t[1..])
  }

  lemma UnescapeStep(c: char, rest: string)
    ensures Unescape(EscapeChar(c) + rest) == [c] + Unescape(rest)
  {
    if c == '&' {
      UnescapeAmp(rest);
    } else if c == '<' {
      UnescapeLt(rest);
    } else if c == '>' {
      UnescapeGt(rest);
    } else {
      UnescapePlain(c, rest);
    }
  }

  lemma UnescapeAmp(rest: string)
    ensures Unescape("&amp;" + rest) == "&" + Unescape(rest)
  {
    var t := "&amp;" + rest;
    assert t[..4] != "&lt;" && t[..4] != "&gt;" by { assert t[1] == 'a'; }
    assert t[..5] == "&amp;";
    assert t[5..] == rest;
  }

  lemma UnescapeLt(rest: string)
    ensures Unescape("&lt;" + rest) == "<" + Unescape(rest)
  {
    var t := "&lt;" + rest;
    assert t[..4] == "&lt;";
    assert t[4..] == rest;
  }

  lemma UnescapeGt(rest: string)
    ensures Unescape("&gt;" + rest) == ">" + Unescape(rest)
  {
    var t := "&gt;" + rest;
    assert t[..4] != "&lt;" by { assert t[1] == 'g'; }
    assert t[..4] == "&gt;";
    assert t[4..] == rest;
  }

  lemma UnescapePlain(c: char, rest: string)
    requires c != '&'
    ensures Unescape([c] + rest) == [c] + Unescape(rest)
  {
    var t := [c] + rest;
    assert t[0] == c;
    assert t[1..] == rest;
  }

  /** Unescaping the escaped text gives the original text back. */
  lemma {:induction false} UnescapeEscape(s: string)
    ensures Unescape(EscapeHtml(s)) == s
    decreases |s|
  {
    EscapeIsPerCharacter(s);
    if s != [] {
      UnescapeStep(s[0], Escaped(s[1..]));
      UnescapeEscape(s[1..]);
      EscapeIsPerCharacter(s[1..]);
    }
  }

  /** The tag names `h[1-6]|ul|pre|div` of the cleanup patterns. */
  const BlockTags: seq<string> := ["h1", "h2", "h3", "h4", "h5", "h6", "ul", "pre", "div"]

  /** The block tag (if any) that `s` starts with; no tag name is a prefix of another. */
  function LeadingTag(s: string): (r: Option<string>)
    ensures r.Some? ==> r.value in BlockTags && StartsWith(s, r.value)
    ensures r.None? ==> forall k :: 0 <= k < |BlockTags| ==> !StartsWith(s, BlockTags[k])
  {
    LeadingTagFrom(s, 0)
  }

  function LeadingTagFrom(s: string, i: nat): (r: Option<string>)
    requires i <= |BlockTags|
    ensures r.Some? ==> r.value in BlockTags && StartsWith(s, r.value)
    ensures r.None? ==> forall k :: i <= k < |BlockTags| ==> !StartsWith(s, BlockTags[k])
    decreases |BlockTags| - i
  {
    if i == |BlockTags| then None
    else if StartsWith(s, BlockTags[i]) then Some(BlockTags[i])
    else LeadingTagFrom(s, i + 1)
  }

  /** What `s` keeps of itself: every character of `r` is a character of `s`. */
  predicate CharsFrom(r: string, s: string) {
    forall i :: 0 <= i < |r| ==> r[i] in s
  }

  /** A piece `p` found at offset `o` of `s`, followed by what is kept of a suffix of `s`. */
  lemma CharsFromJoin(p: string, o: nat, s: string, rest: string, r: string)
    requires OccursAt(s, p, o) && CharsFrom(r, rest) && |rest| <= |s| && rest == s[|s| - |rest|..]
    ensures CharsFrom(p + r, s)
  {
    forall i | 0 <= i < |p + r| ensures (p + r)[i] in s {
      if i < |p| {
        assert (p + r)[i] == s[o..o + |p|][i] == s[o + i];
      } else {
        var j :| 0 <= j < |rest| && rest[j] == r[i - |p|];
        assert rest[j] == s[|s| - |rest| + j];
      }
    }
  }

  /** `s.replace(/<\/(h[1-6]|ul|pre|div)><br>/g, "</$1>")`, scanning left to right. */
  function DropBreakAfterClose(s: string): (r: string)
    ensures CharsFrom(r, s)
    decreases |s|
  {
    if s == [] then []
    else if StartsWith(s, "</") && LeadingTag(s[2..]).Some?
         && StartsWith(s, "</" + LeadingTag(s[2..]).value + "><br>") then
      var p := "</" + LeadingTag(s[2..]).value + ">";
      var rest := s[|p| + 4..];
      assert s[..|p|] == p by {
        assert s[..|p|] == s[..|p| + 4][..|p|];
      }
      CharsFromJoin(p, 0, s, rest, DropBreakAfterClose(rest));
      p + DropBreakAfterClose(rest)
    else
      CharsFromJoin([s[0]], 0, s, s[1..], DropBreakAfterClose(s[1..]));
      [s[0]] + DropBreakAfterClose(s[1..])
  }

  /** `s.replace(/<br><(h[1-6]|ul|pre|div)/g, "<$1")`, scanning left to right. */
  function DropBreakBeforeOpen(s: string): (r: string)
    ensures CharsFrom(r, s)
    decreases |s|
  {
    if s == [] then []
    else if StartsWith(s, "<br><") && LeadingTag(s[5..]).Some? then
      var tag := LeadingTag(s[5..]).value;
      var rest := s[5 + |tag|..];
      var p := "<" + tag;
      assert s[4..5 + |tag|] == p by {
        assert s[4] == "<br><"[4];
        assert s[5..5 + |tag|] == tag;
      }
      CharsFromJoin(p, 4, s, rest, DropBreakBeforeOpen(rest));
      p + DropBreakBeforeOpen(rest)
    else
      CharsFromJoin([s[0]], 0, s, s[1..], DropBreakBeforeOpen(s[1..]));
      [s[0]] + DropBreakBeforeOpen(s[1..])
  }

  /** A `<br>` right after a closing block tag is removed and the scan goes on after it. */
  lemma BreakAfterCloseDropped(k: nat, rest: string)
    requires k < |BlockTags|
    ensures DropBreakAfterClose("</" + BlockTags[k] + "><br>" + rest)
         == "</" + BlockTags[k] + ">" + DropBreakAfterClose(rest)
  {
    var tag := BlockTags[k];
    var s := "</" + tag + "><br>" + rest;
    assert s[..2] == "</";
    assert s[2..] == tag + "><br>" + rest;
    assert s[2..][..|tag|] == tag;
    assert LeadingTag(s[2..]).Some?;
    assert LeadingTag(s[2..]).value == tag by {
      var t := LeadingTag(s[2..]).value;
      assert StartsWith(s[2..], t);
      assert t in BlockTags;
      assert t[0] == s[2] == tag[0];
      assert |t| == |tag|;
      assert t[..|t|] == s[2..][..|t|];
    }
    assert s[..|"</" + tag + "><br>"|] == "</" + tag + "><br>";
    assert s[|"</" + tag + ">"| + 4..] == rest;
  }

  /** A `<br>` right before an opening block tag is removed and the scan goes on after the tag. */
  lemma BreakBeforeOpenDropped(k: nat, rest: string)
    requires k < |BlockTags|
    ensures DropBreakBeforeOpen("<br><" + BlockTags[k] + rest) == "<" + BlockTags[k] + DropBreakBeforeOpen(rest)
  {
    var tag := BlockTags[k];
    var s := "<br><" + tag + rest;
    assert s[..5] == "<br><";
    assert s[5..] == tag + rest;
    assert s[5..][..|tag|] == tag;
    assert LeadingTag(s[5..]).Some?;
    assert LeadingTag(s[5..]).value == tag by {
      var t := LeadingTag(s[5..]).value;
      assert StartsWith(s[5..], t);
      assert t in BlockTags;
      assert t[0] == s[5] == tag[0];
      assert |t| == |tag|;
    }
    assert s[5 + |tag|..] == rest;
  }

  /**
   * The whole formatter. The markdown stages (headers, bold, code, lists, score spans)
   * are the parameter `markdown`; the stages before and after it are modelled exactly.
   */
  function FormatResponseToHtml(response: string, markdown: string -> string): string {
    DropBreakBeforeOpen(DropBreakAfterClose(ReplaceAll(markdown(EscapeHtml(response)), '\n', "<br>")))
  }

  /** Whatever the markdown stages produce, the final HTML holds no newline. */
  lemma NoNewlineInHtml(response: string, markdown: string -> string)
    ensures '\n' !in FormatResponseToHtml(response, markdown)
  {
    var lines := ReplaceAll(markdown(EscapeHtml(response)), '\n', "<br>");
    var once := DropBreakAfterClose(lines);
    var r := DropBreakBeforeOpen(once);
    assert '\n' !in once by {
      forall i | 0 <= i < |once| ensures once[i] != '\n' {
        assert once[i] in lines;
      }
    }
    forall i | 0 <= i < |r| ensures r[i] != '\n' {
      assert r[i] in once;
    }
  }
}
