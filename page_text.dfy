/**
 * The text of a fetched page, app/api/fetch-page/route.js:52-105: non-content blocks removed, tags
 * replaced, a handful of entities decoded, white space collapsed and trimmed. Each regular
 * expression of the route is written out as the function that scans the text the way that
 * expression's global `replace` does.
 */
module PageText {
  import opened Wrappers
  import opened Text

  // ------------------------------------------------------------ non-content blocks

  /**
   * `s.replace(/<open[\s\S]*?close/gi, '')`: each `open`, matched without regard to ASCII case,
   * together with the nearest `close` after it, is removed; an `open` with no `close` after it
   * ends the scan. `open` and `close` are lower case.
   */
  function StripBlocks(s: string, open: string, close: string): (r: string)
    requires |open| > 0
    ensures |r| <= |s|
    ensures IndexOf(Lower(s), open).None? ==> r == s
    decreases |s|
  {
    var l := Lower(s);
    match IndexOf(l, open)
    case None => s
    case Some(i) =>
      match IndexOfFrom(l, close, i + |open|)
      case None => s
      case Some(j) => s[..i] + StripBlocks(s[j + |close|..], open, close)
  }

  /** The script, style, noscript and svg elements and the comments go first; links and banners are read from the page before this. */
  function WithoutBlocks(html: string): (r: string)
    ensures |r| <= |html|
  {
    var a := StripBlocks(html, "<script", "</script>");
    var b := StripBlocks(a, "<style", "</style>");
    var c := StripBlocks(b, "<noscript", "</noscript>");
    var d := StripBlocks(c, "<svg", "</svg>");
    StripBlocks(d, "<!--", "-->")
  }

  // ------------------------------------------------------------ tags

  /** The index of the first `c` in `s`. */
  function IndexOfChar(s: string, c: char): (r: Option<nat>)
    ensures r.Some? ==> r.value < |s| && s[r.value] == c && forall k :: 0 <= k < r.value ==> s[k] != c
    ensures r.None? ==> forall k :: 0 <= k < |s| ==> s[k] != c
  {
    if s == [] then None
    else if s[0] == c then Some(0)
    else match IndexOfChar(s[1..], c)
      case None => None
      case Some(k) => Some(k + 1)
  }

  /**
   * No tag is left: after every `<` either nothing is `>` or the very next character is. This is
   * exactly the text in which `/<[^>]+>/` matches nowhere.
   */
  predicate Tagless(s: string) {
    forall i, j :: 0 <= i < j < |s| && s[i] == '<' && s[j] == '>' ==> s[i + 1] == '>'
  }

  /**
   * `s.replace(/<[^>]+>/g, rep)`: a `<`, at least one character other than `>`, and the first `>`
   * after them become `rep`.
   */
  function StripTags(s: string, rep: string): (r: string)
    decreases |s|
  {
    if s == [] then []
    else if s[0] == '<' then
      match IndexOfChar(s[1..], '>')
      case Some(k) =>
        if k >= 1 then rep + StripTags(s[k + 2..], rep) else "<" + StripTags(s[1..], rep)
      case None => "<" + StripTags(s[1..], rep)
    else [s[0]] + StripTags(s[1..], rep)
  }

  lemma TaglessCons(c: char, x: string)
    requires c != '<' && Tagless(x)
    ensures Tagless([c] + x)
  {
    var s := [c] + x;
    forall i, j | 0 <= i < j < |s| && s[i] == '<' && s[j] == '>' ensures s[i + 1] == '>' {
      assert s[i] == x[i - 1] && s[j] == x[j - 1];
    }
  }

  lemma TaglessOpen(x: string)
    requires Tagless(x)
    requires (x != [] && x[0] == '>') || forall k :: 0 <= k < |x| ==> x[k] != '>'
    ensures Tagless("<" + x)
  {
    var s := "<" + x;
    forall i, j | 0 <= i < j < |s| && s[i] == '<' && s[j] == '>' ensures s[i + 1] == '>' {
      if i > 0 {
        assert s[i] == x[i - 1] && s[j] == x[j - 1];
      } else {
        assert s[j] == x[j - 1];
      }
    }
  }

  lemma {:induction false} TaglessJoin(rep: string, x: string)
    requires forall k :: 0 <= k < |rep| ==> rep[k] != '<'
    requires Tagless(x)
    ensures Tagless(rep + x)
    decreases |rep|
  {
    if rep != [] {
      TaglessJoin(rep[1..], x);
      assert rep + x == [rep[0]] + (rep[1..] + x);
      TaglessCons(rep[0], rep[1..] + x);
    }
  }

  /** Replacing tags by a text without angle brackets keeps the first character when it is `>` and creates no `>`. */
  lemma {:induction false} StripTagsShape(s: string, rep: string)
    requires forall k :: 0 <= k < |rep| ==> rep[k] != '<' && rep[k] != '>'
    ensures (forall k :: 0 <= k < |s| ==> s[k] != '>') ==> forall k :: 0 <= k < |StripTags(s, rep)| ==> StripTags(s, rep)[k] != '>'
    ensures s != [] && s[0] == '>' ==> StripTags(s, rep) != [] && StripTags(s, rep)[0] == '>'
    decreases |s|
  {
    if s != [] {
      StripTagsShape(s[1..], rep);
      if s[0] == '<' {
        match IndexOfChar(s[1..], '>')
        case Some(k) =>
          if k >= 1 {
            StripTagsShape(s[k + 2..], rep);
          }
        case None =>
      }
    }
  }

  /** No tag survives the replacement, whatever it is replaced by, as long as that has no angle brackets. */
  lemma {:induction false} StripTagsTagless(s: string, rep: string)
    requires forall k :: 0 <= k < |rep| ==> rep[k] != '<' && rep[k] != '>'
    ensures Tagless(StripTags(s, rep))
    decreases |s|
  {
    if s != [] {
      StripTagsTagless(s[1..], rep);
      if s[0] == '<' {
        var rest := s[1..];
        match IndexOfChar(rest, '>')
        case Some(k) =>
          if k >= 1 {
            StripTagsTagless(s[k + 2..], rep);
            TaglessJoin(rep, StripTags(s[k + 2..], rep));
          } else {
            StripTagsShape(rest, rep);
            TaglessOpen(StripTags(rest, rep));
          }
        case None =>
          StripTagsShape(rest, rep);
          TaglessOpen(StripTags(rest, rep));
      } else {
        TaglessCons(s[0], StripTags(s[1..], rep));
      }
    }
  }

  // ------------------------------------------------------------ entities

  /** `s.replace(/pat/g, rep)` for a pattern without special characters: left to right, without overlaps. */
  function ReplaceAll(s: string, pat: string, rep: string): string
    requires |pat| > 0
    decreases |s|
  {
    if s == [] then []
    else if StartsWith(s, pat) then rep + ReplaceAll(s[|pat|..], pat, rep)
    else [s[0]] + ReplaceAll(s[1..], pat, rep)
  }

  /** The entities the route decodes, in its order: `&amp;` goes before `&lt;` and `&gt;`. */
  function Decode(s: string): string {
    var a := ReplaceAll(s, "&nbsp;", " ");
    var b := ReplaceAll(a, "&amp;", "&");
    var c := ReplaceAll(b, "&lt;", "<");
    var d := ReplaceAll(c, "&gt;", ">");
    var e := ReplaceAll(d, "&quot;", "\"");
    ReplaceAll(e, "&#39;", "'")
  }

  /** A text lacking one of the pattern's characters is left as it is. */
  lemma ReplaceAllWithout(s: string, pat: string, rep: string, m: nat)
    requires m < |pat| && forall k :: 0 <= k < |s| ==> s[k] != pat[m]
    ensures ReplaceAll(s, pat, rep) == s
  {
    if s != [] {
      if |pat| <= |s| { assert s[..|pat|][m] == s[m]; }
      ReplaceAllWithout(s[1..], pat, rep, m);
    }
  }

  /** An escaped entity is decoded twice: `&amp;lt;` becomes `<`. */
  lemma DoubleDecoding()
    ensures Decode("&amp;lt;") == "<"
  {
    DoubleAmp();
    LtAlone();
    LtTrailing();
  }

  lemma DoubleAmp()
    ensures ReplaceAll(ReplaceAll("&amp;lt;", "&nbsp;", " "), "&amp;", "&") == "&lt;"
  {
    ReplaceAllWithout("&amp;lt;", "&nbsp;", " ", 1);
    AmpFirst();
  }

  lemma AmpFirst()
    ensures ReplaceAll("&amp;lt;", "&amp;", "&") == "&lt;"
  {
    var amp, rest := "&amp;", "lt;";
    assert "&amp;lt;" == amp + rest;
    ReplaceAllFront(amp, rest, "&");
    ReplaceAllWithout(rest, amp, "&", 0);
    assert "&" + rest == "&lt;";
  }

  lemma LtAlone()
    ensures ReplaceAll("&lt;", "&lt;", "<") == "<"
  {
    assert "&lt;" == "&lt;" + "";
    ReplaceAllFront("&lt;", "", "<");
  }

  lemma LtTrailing()
    ensures ReplaceAll(ReplaceAll(ReplaceAll("<", "&gt;", ">"), "&quot;", "\""), "&#39;", "'") == "<"
  {
    ReplaceAllWithout("<", "&gt;", ">", 0);
    ReplaceAllWithout("<", "&quot;", "\"", 0);
    ReplaceAllWithout("<", "&#39;", "'", 0);
  }

  lemma ReplaceAllFront(pat: string, rest: string, rep: string)
    requires |pat| > 0
    ensures ReplaceAll(pat + rest, pat, rep) == rep + ReplaceAll(rest, pat, rep)
  {
    var s := pat + rest;
    assert s[..|pat|] == pat && s[|pat|..] == rest;
  }

  lemma ReplaceAllSkip(c: char, rest: string, pat: string, rep: string)
    requires |pat| > 0 && c != pat[0]
    ensures ReplaceAll([c] + rest, pat, rep) == [c] + ReplaceAll(rest, pat, rep)
  {
    var s := [c] + rest;
    if |pat| <= |s| { assert s[..|pat|][0] == c; }
    assert s[1..] == rest;
  }

  lemma DecodeLt()
    ensures ReplaceAll("&lt;b&gt;", "&lt;", "<") == "<b&gt;"
  {
    assert "&lt;b&gt;" == "&lt;" + ("b" + "&gt;");
    ReplaceAllFront("&lt;", "b" + "&gt;", "<");
    assert "b" + "&gt;" == ['b'] + "&gt;";
    ReplaceAllSkip('b', "&gt;", "&lt;", "<");
    ReplaceAllWithout("&gt;", "&lt;", "<", 1);
  }

  lemma DecodeGt()
    ensures ReplaceAll("<b&gt;", "&gt;", ">") == "<b>"
  {
    assert "<b&gt;" == ['<'] + (['b'] + ("&gt;" + ""));
    ReplaceAllSkip('<', ['b'] + ("&gt;" + ""), "&gt;", ">");
    ReplaceAllSkip('b', "&gt;" + "", "&gt;", ">");
    ReplaceAllFront("&gt;", "", ">");
  }

  lemma DecodeLeading()
    ensures ReplaceAll(ReplaceAll("&lt;b&gt;", "&nbsp;", " "), "&amp;", "&") == "&lt;b&gt;"
  {
    NoNbspInTag();
    NoAmpInTag();
  }

  lemma NoNbspInTag()
    ensures ReplaceAll("&lt;b&gt;", "&nbsp;", " ") == "&lt;b&gt;"
  {
    ReplaceAllWithout("&lt;b&gt;", "&nbsp;", " ", 1);
  }

  lemma NoAmpInTag()
    ensures ReplaceAll("&lt;b&gt;", "&amp;", "&") == "&lt;b&gt;"
  {
    ReplaceAllWithout("&lt;b&gt;", "&amp;", "&", 1);
  }

  lemma DecodeTrailing()
    ensures ReplaceAll(ReplaceAll("<b>", "&quot;", "\""), "&#39;", "'") == "<b>"
  {
    ReplaceAllWithout("<b>", "&quot;", "\"", 0);
    ReplaceAllWithout("<b>", "&#39;", "'", 0);
  }

  /** Decoding comes after the tags are gone, so an escaped tag comes back as a tag. */
  lemma EscapedTagSurvives()
    ensures Decode("&lt;b&gt;") == "<b>" && !Tagless("<b>")
  {
    DecodeLeading();
    DecodeLt();
    DecodeGt();
    DecodeTrailing();
    var w := "<b>";
    assert w[0] == '<' && w[2] == '>' && w[1] != '>';
  }

  // ------------------------------------------------------------ white space

  /** `s.replace(/\s+/g, ' ')`. */
  function Collapse(s: string): (r: string)
    decreases |s|
  {
    if s == [] then []
    else if IsSpace(s[0]) then
      var rest := TrimStart(s);
      " " + Collapse(rest)
    else [s[0]] + Collapse(s[1..])
  }

  /** Every white-space character is a plain space, and no two of them are adjacent. */
  predicate Collapsed(s: string) {
    forall i :: 0 <= i < |s| && IsSpace(s[i]) ==> s[i] == ' ' && (i + 1 < |s| ==> !IsSpace(s[i + 1]))
  }

  lemma {:induction false} CollapseCollapsed(s: string)
    ensures Collapsed(Collapse(s))
    ensures Collapse(s) != [] && IsSpace(Collapse(s)[0]) ==> s != [] && IsSpace(s[0])
    decreases |s|
  {
    if s != [] {
      if IsSpace(s[0]) {
        var rest := TrimStart(s);
        CollapseCollapsed(rest);
        var c := Collapse(rest);
        var r := " " + c;
        forall i | 0 <= i < |r| && IsSpace(r[i]) ensures r[i] == ' ' && (i + 1 < |r| ==> !IsSpace(r[i + 1])) {
          if i > 0 { assert r[i] == c[i - 1]; }
          if i + 1 < |r| { assert r[i + 1] == c[i]; }
        }
      } else {
        CollapseCollapsed(s[1..]);
        var c := Collapse(s[1..]);
        var r := [s[0]] + c;
        forall i | 0 <= i < |r| && IsSpace(r[i]) ensures r[i] == ' ' && (i + 1 < |r| ==> !IsSpace(r[i + 1])) {
          assert i > 0;
          assert r[i] == c[i - 1];
          if i + 1 < |r| { assert r[i + 1] == c[i]; }
        }
      }
    }
  }

  lemma CollapsedSlice(s: string, i: nat, j: nat)
    requires Collapsed(s) && i <= j <= |s|
    ensures Collapsed(s[i..j])
  {
    var t := s[i..j];
    forall k | 0 <= k < |t| && IsSpace(t[k]) ensures t[k] == ' ' && (k + 1 < |t| ==> !IsSpace(t[k + 1])) {
      assert t[k] == s[i + k];
      if k + 1 < |t| { assert t[k + 1] == s[i + k + 1]; }
    }
  }

  /** Trimming a collapsed text leaves it collapsed. */
  lemma TrimCollapsed(s: string)
    requires Collapsed(s)
    ensures Collapsed(Trim(s))
  {
    var t := TrimStart(s);
    CollapsedSlice(s, |s| - |t|, |s|);
    var r := TrimEnd(t);
    CollapsedSlice(t, 0, |r|);
  }

  // ------------------------------------------------------------ the page text

  /** The route's `text`, before truncation. */
  function Cleaned(html: string): string {
    Trim(Collapse(Decode(StripTags(WithoutBlocks(html), " "))))
  }

  /** The text has no white space at its ends, and inside only single plain spaces. */
  lemma CleanedShape(html: string)
    ensures var t := Cleaned(html);
      Collapsed(t) && (t == [] || (!IsSpace(t[0]) && !IsSpace(t[|t| - 1])))
  {
    var x := Decode(StripTags(WithoutBlocks(html), " "));
    CollapseCollapsed(x);
    TrimCollapsed(Collapse(x));
  }

  /** The replace chain of the route, one assignment per step. */
  method ExtractText(html: string) returns (text: string)
    ensures text == Cleaned(html)
  {
    text := StripBlocks(html, "<script", "</script>");
    text := StripBlocks(text, "<style", "</style>");
    text := StripBlocks(text, "<noscript", "</noscript>");
    text := StripBlocks(text, "<svg", "</svg>");
    text := StripBlocks(text, "<!--", "-->");
    text := StripTags(text, " ");
    text := Decode(text);
    text := Collapse(text);
    text := Trim(text);
  }

  /** `text.slice(0, 8000)`. */
  function Truncated(text: string): (r: string)
    ensures |r| <= 8000 && r <= text
    ensures |text| <= 8000 ==> r == text
  {
    if |text| <= 8000 then text else text[..8000]
  }
}
