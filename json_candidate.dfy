/**
 * The text handed to `JSON.parse` when a scoring reply arrives
 * (components/ICPScreener.jsx:1511-1521):
 *
 *   1. `/^[\s\S]*?```(?:json)?\s*​/i` is removed: everything up to the first fence, the
 *      fence, an optional `json` tag (any case) and the white space after it;
 *   2. `/\s*```[\s\S]*$/i` is removed: from the leftmost index where white space and then
 *      a fence begin, to the end;
 *   3. when the trimmed rest does not start with `{`, it is cut to the slice from its
 *      first `{` to its last `}` (both present; empty when the last comes first);
 *   4. the result is trimmed.
 */
module JsonCandidate {
  import opened Wrappers
  import opened Text

  const Fence: string := "```"

  /** The tag `json` after the opening fence, compared up to case. */
  predicate JsonTagAt(s: string, a: nat) {
    a + 4 <= |s| && EqualIgnoringCase(s[a..a + 4], "json")
  }

  /** Step 1: the opening fence, its tag and the white space after it, with all that comes before. */
  function StripOpenFence(s: string): (r: string)
    ensures IndexOf(s, Fence).None? ==> r == s
  {
    match IndexOf(s, Fence)
    case None => s
    case Some(p) => AfterFence(s, p + 3)
  }

  /** What follows an opening fence that ends at `a`: its `json` tag and the white space after it dropped. */
  function AfterFence(s: string, a: nat): string
    requires a <= |s|
  {
    var b := if JsonTagAt(s, a) then a + 4 else a;
    s[b + SpaceRun(s, b)..]
  }

  /** `\s*```` matches at index `i`: the white space from `i` on is followed by a fence. */
  predicate CloseFenceAt(s: string, i: nat)
    requires i <= |s|
  {
    OccursAt(s, Fence, i + SpaceRun(s, i))
  }

  /** The leftmost index from `i` on where the closing pattern matches. */
  function CloseFenceFrom(s: string, i: nat): (r: Option<nat>)
    requires i <= |s|
    ensures r.Some? ==> i <= r.value <= |s| && CloseFenceAt(s, r.value)
    decreases |s| - i
  {
    if CloseFenceAt(s, i) then Some(i)
    else if i == |s| then None
    else CloseFenceFrom(s, i + 1)
  }

  /** Step 2: the closing fence, the white space before it and everything after it. */
  function StripCloseFence(s: string): (r: string)
    ensures CloseFenceFrom(s, 0).None? ==> r == s
  {
    match CloseFenceFrom(s, 0)
    case None => s
    case Some(i) => s[..i]
  }

  /** Step 3: from the first `{` to the last `}`, when both are present. */
  function BraceSlice(x: string): string {
    match (IndexOf(x, "{"), LastIndexOfChar(x, '}'))
    case (Some(f), Some(l)) => if f <= l then x[f..l + 1] else ""
    case _ => x
  }

  /** Step 3 as a whole: the brace slice is taken only when the trimmed text does not start with `{`. */
  function BraceCut(x: string): string {
    if OpensObject(Trim(x)) then x else BraceSlice(x)
  }

  /** `t.startsWith('{')`. */
  predicate OpensObject(t: string) {
    t != [] && t[0] == '{'
  }

  /** The whole extraction. */
  function Candidate(s: string): string {
    Trim(BraceCut(StripCloseFence(StripOpenFence(s))))
  }

  // ------------------------------------------------------------------ lemmas

  /** The closing pattern needs a fence. */
  lemma {:induction false} NoFenceNoClose(s: string, i: nat)
    requires i <= |s| && !Contains(s, Fence)
    ensures CloseFenceFrom(s, i).None?
    decreases |s| - i
  {
    assert !CloseFenceAt(s, i);
    if i < |s| {
      NoFenceNoClose(s, i + 1);
    }
  }

  /** Without a fence the first two steps change nothing. */
  lemma NoFenceUnstripped(s: string)
    requires !Contains(s, Fence)
    ensures StripCloseFence(StripOpenFence(s)) == s
  {
    NoFenceNoClose(s, 0);
  }

  /** A reply without fences whose trimmed text starts with `{` is handed over trimmed and otherwise whole. */
  lemma PlainObject(s: string)
    requires !Contains(s, Fence) && OpensObject(Trim(s))
    ensures Candidate(s) == Trim(s)
  {
    NoFenceUnstripped(s);
  }

  /** A slice that starts with `{` and ends with `}` is its own trim. */
  lemma BracedIsTrimmed(x: string)
    requires |x| >= 2 && x[0] == '{' && x[|x| - 1] == '}'
    ensures Trim(x) == x
  {
    TrimOfTrimmed(x);
  }

  /** The slice between a `{` and a later `}` is its own trim. */
  lemma BracedSliceTrimmed(s: string, f: nat, l: nat)
    requires f < l < |s| && s[f] == '{' && s[l] == '}'
    ensures Trim(s[f..l + 1]) == s[f..l + 1]
  {
    var y := s[f..l + 1];
    assert y[0] == s[f] && y[|y| - 1] == s[l];
    BracedIsTrimmed(y);
  }

  /**
   * A reply without fences that does not start with `{`: the candidate is the slice from
   * the first `{` to the last `}`, or empty when the last `}` comes before the first `{`.
   */
  lemma BracedSlice(s: string, f: nat, l: nat)
    requires !Contains(s, Fence) && !OpensObject(Trim(s))
    requires IndexOf(s, "{") == Some(f) && LastIndexOfChar(s, '}') == Some(l)
    ensures f < l ==> Candidate(s) == s[f..l + 1]
    ensures l < f ==> Candidate(s) == ""
  {
    UnfencedBraced(s);
    BraceSliceOf(s, f, l);
    if f < l {
      BracedSliceTrimmed(s, f, l);
    } else if l < f {
      TrimOfTrimmed("");
    }
  }

  /** Without fences and without a leading `{`, the candidate is the trimmed brace slice. */
  lemma UnfencedBraced(s: string)
    requires !Contains(s, Fence) && !OpensObject(Trim(s))
    ensures Candidate(s) == Trim(BraceSlice(s))
  {
    UnfencedCandidate(s);
  }

  /** Without fences the candidate is the trimmed text or its brace slice. */
  lemma UnfencedCandidate(s: string)
    requires !Contains(s, Fence)
    ensures Candidate(s) == Trim(BraceCut(s))
  {
    NoFenceUnstripped(s);
  }

  /** The brace slice once the first `{` and the last `}` are known. */
  lemma BraceSliceOf(s: string, f: nat, l: nat)
    requires IndexOf(s, "{") == Some(f) && LastIndexOfChar(s, '}') == Some(l)
    ensures s[f] == '{' && s[l] == '}'
    ensures BraceSlice(s) == if f <= l then s[f..l + 1] else ""
  {
    assert s[f..f + 1] == "{";
  }

  /** A reply without fences and without a `{` or a `}` is handed over trimmed. */
  lemma NoBraces(s: string)
    requires !Contains(s, Fence) && (IndexOf(s, "{").None? || LastIndexOfChar(s, '}').None?)
    ensures Candidate(s) == Trim(s)
  {
    NoFenceUnstripped(s);
  }

  // ------------------------------------------------------------ fenced block

  /** The first index where the closing pattern matches, found from `i` on. */
  lemma {:induction false} CloseFenceFirst(s: string, i: nat, k: nat)
    requires i <= k <= |s| && CloseFenceAt(s, k)
    requires forall m :: i <= m < k ==> !CloseFenceAt(s, m)
    ensures CloseFenceFrom(s, i) == Some(k)
    decreases k - i
  {
    if i < k {
      CloseFenceFirst(s, i + 1, k);
    }
  }

  /** A text split in two: its parts are its slices. */
  lemma Halves(s: string, a: string, b: string)
    requires s == a + b
    ensures s[..|a|] == a && s[|a|..] == b
  {
  }

  /**
   * Where the pieces of `prose + Fence + tag + w1 + rest` lie: the prose has no backtick,
   * so the first fence is the one after it.
   */
  lemma OpeningFacts(s: string, prose: string, tag: string, w1: string, rest: string)
    requires s == prose + (Fence + (tag + (w1 + rest)))
    requires '`' !in prose
    ensures OccursAt(s, Fence, |prose|)
    ensures forall j :: 0 <= j < |prose| ==> !OccursAt(s, Fence, j)
    ensures s[|prose| + 3..] == tag + (w1 + rest)
    ensures s[|prose| + 3 + |tag|..] == w1 + rest
    ensures s[|prose| + 3 + |tag| + |w1|..] == rest
  {
    var t1 := Fence + (tag + (w1 + rest));
    Halves(s, prose, t1);
    Halves(t1, Fence, tag + (w1 + rest));
    Halves(tag + (w1 + rest), tag, w1 + rest);
    Halves(w1 + rest, w1, rest);
    forall j | 0 <= j < |prose| ensures !OccursAt(s, Fence, j) {
      assert s[j] == prose[j];
      if j + 3 <= |s| { assert s[j..j + 3][0] == s[j]; }
    }
  }

  /** The `json` tag is taken exactly when it is there. */
  lemma TagFacts(s: string, a: nat, tag: string, w1: string, rest: string)
    requires a <= |s| && s[a..] == tag + (w1 + rest)
    requires tag == "" || EqualIgnoringCase(tag, "json")
    requires AllSpace(w1) && rest != [] && rest[0] == '{'
    ensures (if JsonTagAt(s, a) then a + 4 else a) == a + |tag|
  {
    if tag == "" {
      assert s[a..] == w1 + rest;
      assert s[a] == (w1 + rest)[0];
      NotJsonTag(s, a);
    } else {
      assert s[a..a + 4] == s[a..][..4] == tag;
    }
  }

  /** Neither white space nor `{` begins the tag. */
  lemma NotJsonTag(s: string, a: nat)
    requires a < |s| && (IsSpace(s[a]) || s[a] == '{')
    ensures !JsonTagAt(s, a)
  {
    if a + 4 <= |s| {
      assert s[a..a + 4][0] == s[a];
      assert AsciiLower(s[a]) == s[a] != 'j';
    }
  }

  /** The white space after the tag is exactly `w1` when the object follows it. */
  lemma SpaceFacts(s: string, b: nat, w1: string, rest: string)
    requires b <= |s| && s[b..] == w1 + rest
    requires AllSpace(w1) && rest != [] && rest[0] == '{'
    ensures SpaceRun(s, b) == |w1|
  {
    assert s[b + |w1|] == (w1 + rest)[|w1|] == '{';
    forall m | b <= m < b + |w1| ensures IsSpace(s[m]) {
      assert s[m] == (w1 + rest)[m - b] == w1[m - b];
    }
    SpaceRunExact(s, b, b + |w1|);
  }

  /** Step 1 on a fenced reply leaves the object and what follows it. */
  lemma OpenFenced(s: string, prose: string, tag: string, w1: string, rest: string)
    requires s == prose + (Fence + (tag + (w1 + rest)))
    requires '`' !in prose && (tag == "" || EqualIgnoringCase(tag, "json"))
    requires AllSpace(w1) && rest != [] && rest[0] == '{'
    ensures StripOpenFence(s) == rest
  {
    OpenedAt(s, prose, tag, w1, rest);
    AfterFenceOf(s, |prose| + 3, tag, w1, rest);
  }

  /** After the fence, an optional tag and white space lead to the object. */
  lemma AfterFenceOf(s: string, a: nat, tag: string, w1: string, rest: string)
    requires a <= |s| && s[a..] == tag + (w1 + rest)
    requires tag == "" || EqualIgnoringCase(tag, "json")
    requires AllSpace(w1) && rest != [] && rest[0] == '{'
    ensures AfterFence(s, a) == rest
  {
    TagFacts(s, a, tag, w1, rest);
    assert s[a + |tag|..] == w1 + rest;
    SpaceFacts(s, a + |tag|, w1, rest);
    assert s[a + |tag| + |w1|..] == rest;
  }

  /** The first fence ends the prose, and the tag, the white space and the rest follow it. */
  lemma OpenedAt(s: string, prose: string, tag: string, w1: string, rest: string)
    requires s == prose + (Fence + (tag + (w1 + rest)))
    requires '`' !in prose
    ensures IndexOf(s, Fence) == Some(|prose|)
    ensures s[|prose| + 3..] == tag + (w1 + rest)
    ensures s[|prose| + 3 + |tag|..] == w1 + rest
    ensures s[|prose| + 3 + |tag| + |w1|..] == rest
  {
    OpeningFacts(s, prose, tag, w1, rest);
    IndexOfIsFirst(s, Fence, |prose|);
  }

  /** Where the pieces of `inner + w2 + Fence + after` lie. */
  lemma ClosingFacts(x: string, inner: string, w2: string, after: string)
    requires x == inner + (w2 + (Fence + after))
    ensures x[..|inner|] == inner && x[|inner|..] == w2 + (Fence + after)
    ensures forall m :: |inner| <= m < |inner| + |w2| ==> x[m] == w2[m - |inner|]
    ensures OccursAt(x, Fence, |inner| + |w2|)
  {
    Halves(x, inner, w2 + (Fence + after));
    var t := w2 + (Fence + after);
    Halves(t, w2, Fence + after);
    assert x[|inner| + |w2|..][..3] == Fence;
  }

  /** No index inside an object that ends with `}` and holds no fence starts the closing pattern. */
  lemma NoCloseInside(x: string, inner: string, i: nat)
    requires |inner| >= 1 && inner[|inner| - 1] == '}' && !Contains(inner, Fence)
    requires |inner| <= |x| && x[..|inner|] == inner && i < |inner|
    ensures !CloseFenceAt(x, i)
  {
    var n := |inner|;
    assert x[n - 1] == '}';
    SpaceRunStopsBefore(x, i, n - 1);
    var j := i + SpaceRun(x, i);
    if j + 3 <= n {
      assert !OccursAt(inner, Fence, j);
      assert x[j..j + 3] == inner[j..j + 3];
    } else if j + 3 <= |x| {
      assert x[j..j + 3][n - 1 - j] == x[n - 1];
    }
  }

  /** Step 2 on the rest of a fenced reply leaves exactly the object. */
  lemma CloseFenced(x: string, inner: string, w2: string, after: string)
    requires x == inner + (w2 + (Fence + after))
    requires |inner| >= 1 && inner[|inner| - 1] == '}' && !Contains(inner, Fence)
    requires AllSpace(w2)
    ensures StripCloseFence(x) == inner
  {
    var n := |inner|;
    ClosingFacts(x, inner, w2, after);
    assert x[n + |w2|] == '`';
    SpaceRunExact(x, n, n + |w2|);
    forall i | 0 <= i < n ensures !CloseFenceAt(x, i) {
      NoCloseInside(x, inner, i);
    }
    CloseFenceFirst(x, 0, n);
  }

  /**
   * Prose without backticks, then a fence with an optional `json` tag, the object, and a
   * closing fence: the candidate is exactly the object.
   */
  lemma FencedObject(s: string, prose: string, tag: string, w1: string, inner: string, w2: string, after: string)
    requires s == prose + (Fence + (tag + (w1 + (inner + (w2 + (Fence + after))))))
    requires '`' !in prose && (tag == "" || EqualIgnoringCase(tag, "json"))
    requires AllSpace(w1) && AllSpace(w2)
    requires |inner| >= 2 && inner[0] == '{' && inner[|inner| - 1] == '}' && !Contains(inner, Fence)
    ensures Candidate(s) == inner
  {
    var x := inner + (w2 + (Fence + after));
    OpenFenced(s, prose, tag, w1, x);
    CloseFenced(x, inner, w2, after);
    StrippedObject(s, inner);
  }

  /** When the first two steps leave an object, it is the candidate. */
  lemma StrippedObject(s: string, inner: string)
    requires StripCloseFence(StripOpenFence(s)) == inner
    requires |inner| >= 2 && inner[0] == '{' && inner[|inner| - 1] == '}'
    ensures Candidate(s) == inner
  {
    CandidateOf(s, inner);
    BracedIsTrimmed(inner);
    BraceCutKeeps(inner);
  }

  /** The candidate in terms of what the first two steps leave. */
  lemma CandidateOf(s: string, x: string)
    requires StripCloseFence(StripOpenFence(s)) == x
    ensures Candidate(s) == Trim(BraceCut(x))
  {
  }

  /** Text whose trim starts with `{` is not cut. */
  lemma BraceCutKeeps(x: string)
    requires |x| >= 1 && x[0] == '{' && Trim(x) == x
    ensures BraceCut(x) == x
  {
  }
}
