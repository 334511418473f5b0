/**
 * Labelled fields in the scoring model's plain-text reply, and the integers read from
 * them (components/ICPScreener.jsx:1376-1380, 1628-1651).
 *
 * `parseField(text, FIELD)` matches `FIELD:\s*([\s\S]*?)(?=\n[A-Z_]+:|$)` with the `i`
 * flag and returns the trimmed group, or '' when the label does not occur. The match is
 * the leftmost one; the label is compared up to ASCII case (under `i`, `[A-Z_]` also
 * takes lower-case letters); the greedy `\s*` takes the whole white-space run, after
 * which the lazy group always succeeds because `$` closes it at the latest.
 */
module FieldParser {
  import opened Wrappers
  import opened Text

  /** `[A-Z_]` under the `i` flag: an ASCII letter or an underscore. */
  predicate IsLabelChar(c: char) {
    IsAsciiLetter(c) || c == '_'
  }

  /** How far `[A-Z_]+` reaches from index `i`. */
  function LabelRun(s: string, i: nat): (n: nat)
    requires i <= |s|
    ensures i + n <= |s| && (i + n == |s| || !IsLabelChar(s[i + n]))
    ensures forall m :: i <= m < i + n ==> IsLabelChar(s[m])
    decreases |s| - i
  {
    if i < |s| && IsLabelChar(s[i]) then 1 + LabelRun(s, i + 1) else 0
  }

  /** The lookahead `(?=\n[A-Z_]+:|$)` holds at index `q`: the end, or a new line that starts with a label. */
  predicate FieldEndAt(s: string, q: nat)
    requires q <= |s|
  {
    q == |s|
    || (s[q] == '\n' && LabelRun(s, q + 1) >= 1 && q + 1 + LabelRun(s, q + 1) < |s|
        && s[q + 1 + LabelRun(s, q + 1)] == ':')
  }

  /** No index of `c` starts a line with a label: the capture never holds its own terminator. */
  predicate NoLabelLine(c: string) {
    forall q :: 0 <= q < |c| ==> !FieldEndAt(c, q)
  }

  /** The lazy group stops at the first index from `q` on where the lookahead holds. */
  function FieldEndFrom(s: string, q: nat): (e: nat)
    requires q <= |s|
    ensures q <= e <= |s| && FieldEndAt(s, e)
    decreases |s| - q
  {
    if FieldEndAt(s, q) then q else FieldEndFrom(s, q + 1)
  }

  /** No index before the end found from `q` is a terminator. */
  lemma {:induction false} FieldEndFromIsFirst(s: string, q: nat)
    requires q <= |s|
    ensures forall m :: q <= m < FieldEndFrom(s, q) ==> !FieldEndAt(s, m)
    decreases |s| - q
  {
    if !FieldEndAt(s, q) {
      FieldEndFromIsFirst(s, q + 1);
    }
  }

  /** `FIELD:` at index `p`, the field name compared up to ASCII case. */
  predicate LabelAt(s: string, field: string, p: nat) {
    p + |field| + 1 <= |s| && EqualIgnoringCase(s[p..p + |field|], field) && s[p + |field|] == ':'
  }

  /** The leftmost label at or after `from`. */
  function FindLabel(s: string, field: string, from: nat): (r: Option<nat>)
    requires from <= |s|
    ensures r.Some? ==> from <= r.value && LabelAt(s, field, r.value)
    decreases |s| - from
  {
    if LabelAt(s, field, from) then Some(from)
    else if from == |s| then None
    else FindLabel(s, field, from + 1)
  }

  /** The label found is the leftmost one, and none is found only when there is none. */
  lemma {:induction false} FindLabelLeftmost(s: string, field: string, from: nat)
    requires from <= |s|
    ensures FindLabel(s, field, from).Some? ==>
      forall m :: from <= m < FindLabel(s, field, from).value ==> !LabelAt(s, field, m)
    ensures FindLabel(s, field, from).None? ==> forall m :: from <= m <= |s| ==> !LabelAt(s, field, m)
    decreases |s| - from
  {
    if !LabelAt(s, field, from) && from < |s| {
      FindLabelLeftmost(s, field, from + 1);
    }
  }

  /** The lazy group from index `b` on: up to the first terminator. */
  function GroupFrom(s: string, b: nat): (c: string)
    requires b <= |s|
    ensures NoLabelLine(c)
  {
    FieldEndFromIsFirst(s, b);
    CaptureClean(s, b, FieldEndFrom(s, b));
    s[b..FieldEndFrom(s, b)]
  }

  /** Where the greedy `\s*` from index `a` stops. */
  function SkipSpace(s: string, a: nat): (b: nat)
    requires a <= |s|
    ensures a <= b <= |s|
    decreases |s| - a
  {
    if a < |s| && IsSpace(s[a]) then SkipSpace(s, a + 1) else a
  }

  /** The `\s*` takes only white space, and all of it. */
  lemma {:induction false} SkipSpaceRun(s: string, a: nat)
    requires a <= |s|
    ensures forall m :: a <= m < SkipSpace(s, a) ==> IsSpace(s[m])
    ensures SkipSpace(s, a) == |s| || !IsSpace(s[SkipSpace(s, a)])
    decreases |s| - a
  {
    if a < |s| && IsSpace(s[a]) {
      SkipSpaceRun(s, a + 1);
    }
  }

  /** The `\s*` stops at the first character that is not white space. */
  lemma {:induction false} SkipSpaceExact(s: string, a: nat, m: nat)
    requires a <= m < |s| && !IsSpace(s[m])
    requires forall t :: a <= t < m ==> IsSpace(s[t])
    ensures SkipSpace(s, a) == m
    decreases m - a
  {
    if a < m {
      SkipSpaceExact(s, a + 1, m);
    }
  }

  /** The group of the pattern as written: the white space after the label is skipped first. */
  function CaptureAsWritten(s: string, field: string): (r: Option<string>)
    ensures r.None? <==> FindLabel(s, field, 0).None?
  {
    match FindLabel(s, field, 0)
    case None => None
    case Some(p) => Some(GroupFrom(s, SkipSpace(s, p + |field| + 1)))
  }

  /** `parseField` as written. */
  function ParseFieldAsWritten(s: string, field: string): string {
    match CaptureAsWritten(s, field)
    case None => ""
    case Some(c) => Trim(c)
  }

  /**
   * The group when the capture starts right after the colon. `trim()` removes the white
   * space the `\s*` would have taken, so the two agree except when that white space holds
   * the new line of the next label (see `EmptyFieldAsWritten`).
   */
  function Capture(s: string, field: string): (r: Option<string>)
    ensures r.None? <==> FindLabel(s, field, 0).None?
  {
    match FindLabel(s, field, 0)
    case None => None
    case Some(p) => Some(GroupFrom(s, p + |field| + 1))
  }

  /**
   * `parseField` with the capture begun right after the colon: the trimmed capture, or
   * '' when the label does not occur. This is the corrected reading (see
   * `EmptyFieldCorrected`) that the rest of the model uses.
   */
  function ParseField(s: string, field: string): (r: string)
    ensures (forall m :: 0 <= m <= |s| ==> !LabelAt(s, field, m)) ==> r == ""
    ensures r == [] || (!IsSpace(r[0]) && !IsSpace(r[|r| - 1]))
  {
    match Capture(s, field)
    case None => ""
    case Some(c) => Trim(c)
  }

  /** A label run inside a slice that stops before the slice's end is the run in the whole text. */
  lemma {:induction false} LabelRunSlice(s: string, b: nat, e: nat, i: nat)
    requires b + i <= e <= |s|
    requires i + LabelRun(s[b..e], i) < e - b
    ensures LabelRun(s[b..e], i) == LabelRun(s, b + i)
    decreases e - b - i
  {
    var c := s[b..e];
    assert c[i] == s[b + i];
    if IsLabelChar(c[i]) {
      LabelRunSlice(s, b, e, i + 1);
    }
  }

  /** A slice that ends at the first terminator holds no terminator of its own. */
  lemma CaptureClean(s: string, b: nat, e: nat)
    requires b <= e <= |s|
    requires forall m :: b <= m < e ==> !FieldEndAt(s, m)
    ensures NoLabelLine(s[b..e])
  {
    var c := s[b..e];
    forall q | 0 <= q < |c| ensures !FieldEndAt(c, q) {
      assert c[q] == s[b + q];
      if c[q] == '\n' && q + 1 + LabelRun(c, q + 1) < |c| {
        LabelRunSlice(s, b, e, q + 1);
        assert c[q + 1 + LabelRun(c, q + 1)] == s[b + q + 1 + LabelRun(s, b + q + 1)];
        assert !FieldEndAt(s, b + q);
      }
    }
  }

  /** A label run in the part after a prefix is the run in the whole text. */
  lemma {:induction false} LabelRunSuffix(pre: string, t: string, j: nat)
    requires j <= |t|
    ensures LabelRun(pre + t, |pre| + j) == LabelRun(t, j)
    decreases |t| - j
  {
    if j < |t| {
      assert (pre + t)[|pre| + j] == t[j];
      LabelRunSuffix(pre, t, j + 1);
    }
  }

  /** No index inside a span without new lines is a terminator. */
  lemma NoEndInLine(s: string, a: nat, e: nat)
    requires a <= e <= |s|
    requires forall m :: a <= m < e ==> s[m] != '\n'
    ensures forall m :: a <= m < e ==> !FieldEndAt(s, m)
  {
  }

  /** The leftmost label is the one no earlier index has. */
  lemma {:induction false} FindLabelFirst(s: string, field: string, from: nat, p: nat)
    requires from <= p <= |s| && LabelAt(s, field, p)
    requires forall m :: from <= m < p ==> !LabelAt(s, field, m)
    ensures FindLabel(s, field, from) == Some(p)
    decreases p - from
  {
    if from < p {
      FindLabelFirst(s, field, from + 1, p);
    }
  }

  /** A terminator at the start of `t` is a terminator after any prefix. */
  lemma FieldEndShift(x: string, t: string)
    requires FieldEndAt(t, 0)
    ensures FieldEndAt(x + t, |x|)
  {
    if t != [] {
      LabelRunSuffix(x, t, 1);
      var n := LabelRun(t, 1);
      assert (x + t)[|x|] == t[0] && (x + t)[|x| + 1 + n] == t[1 + n];
    }
  }

  /** The first terminator from `q` is `e` when `e` is one and no new line comes earlier. */
  lemma {:induction false} FieldEndFromLine(s: string, q: nat, e: nat)
    requires q <= e <= |s| && FieldEndAt(s, e)
    requires forall m :: q <= m < e ==> s[m] != '\n'
    ensures FieldEndFrom(s, q) == e
    decreases e - q
  {
    if q < e {
      assert s[q] != '\n';
      FieldEndFromLine(s, q + 1, e);
    }
  }

  /** The group from `b` runs to `e` when `e` is a terminator and no new line comes earlier. */
  lemma GroupFromLine(s: string, b: nat, e: nat)
    requires b <= e <= |s| && FieldEndAt(s, e)
    requires forall m :: b <= m < e ==> s[m] != '\n'
    ensures GroupFrom(s, b) == s[b..e]
  {
    FieldEndFromLine(s, b, e);
  }

  /** The capture as written from the label at `p`. */
  lemma CaptureAsWrittenAt(s: string, field: string, p: nat)
    requires FindLabel(s, field, 0) == Some(p)
    ensures CaptureAsWritten(s, field) == Some(GroupFrom(s, SkipSpace(s, p + |field| + 1)))
  {
  }

  /** The capture after the label at `p` runs to `e` when `e` is a terminator and no new line comes earlier. */
  lemma CaptureOf(s: string, field: string, p: nat, e: nat)
    requires FindLabel(s, field, 0) == Some(p)
    requires p + |field| + 1 <= e <= |s| && FieldEndAt(s, e)
    requires forall m :: p + |field| + 1 <= m < e ==> s[m] != '\n'
    ensures Capture(s, field) == Some(s[p + |field| + 1..e])
  {
    var b := p + |field| + 1;
    GroupFromLine(s, b, e);
    var c := GroupFrom(s, b);
    CaptureAt(s, field, p);
    assert Capture(s, field) == Some(c);
  }

  /** The same for the capture as written, which starts at the end `b` of the white space. */
  lemma CaptureAsWrittenOf(s: string, field: string, p: nat, b: nat, e: nat)
    requires FindLabel(s, field, 0) == Some(p)
    requires p + |field| + 1 <= |s| && b == SkipSpace(s, p + |field| + 1)
    requires b <= e <= |s| && FieldEndAt(s, e) && forall m :: b <= m < e ==> s[m] != '\n'
    ensures CaptureAsWritten(s, field) == Some(s[b..e])
  {
    GroupFromLine(s, b, e);
    CaptureAsWrittenAt(s, field, p);
  }

  /** The positions of a labelled line. */
  lemma FieldLineFacts(s: string, pre: string, l: string, field: string, v: string, tail: string)
    requires s == pre + l + ":" + v + tail && |l| == |field|
    ensures s[|pre|..|pre| + |field|] == l && s[|pre| + |field|] == ':'
    ensures s[|pre| + |l| + 1..|pre| + |l| + 1 + |v|] == v
    ensures s == (pre + l + ":" + v) + tail
  {
  }

  /**
   * A labelled line: `l:` with `l` the field name up to case, the value `v` on the same
   * line, then the end of the text or the next label line. The corrected `ParseField`
   * gives `v` trimmed.
   */
  lemma FieldLine(s: string, pre: string, l: string, field: string, v: string, tail: string)
    requires s == pre + l + ":" + v + tail
    requires EqualIgnoringCase(l, field) && '\n' !in v && FieldEndAt(tail, 0)
    requires forall m :: 0 <= m < |pre| ==> !LabelAt(s, field, m)
    ensures ParseField(s, field) == Trim(v)
    ensures FindLabel(s, field, 0) == Some(|pre|) && s[|pre| + |field| + 1..|pre| + |field| + 1 + |v|] == v
  {
    var p, a := |pre|, |pre| + |l| + 1;
    var e := a + |v|;
    FieldLineFacts(s, pre, l, field, v, tail);
    FindLabelFirst(s, field, 0, p);
    forall m | a <= m < e ensures s[m] != '\n' {
      assert s[a..e][m - a] == s[m];
    }
    FieldEndShift(pre + l + ":" + v, tail);
    CaptureOf(s, field, p, e);
  }

  /**
   * The same labelled line read by `parseField` as written: whenever the value is not
   * blank, the greedy `\s*` stays on the value's line and the result is again `v` trimmed.
   */
  lemma FieldLineAsWritten(s: string, pre: string, l: string, field: string, v: string, tail: string)
    requires s == pre + l + ":" + v + tail
    requires EqualIgnoringCase(l, field) && '\n' !in v && FieldEndAt(tail, 0) && Trim(v) != ""
    requires forall m :: 0 <= m < |pre| ==> !LabelAt(s, field, m)
    ensures ParseFieldAsWritten(s, field) == Trim(v)
  {
    FieldLine(s, pre, l, field, v, tail);
    AsWrittenOnValue(s, |pre|, field, v);
  }

  /** Both readings agree on a label followed on its line by a value that is not blank. */
  lemma AsWrittenOnValue(s: string, p: nat, field: string, v: string)
    requires FindLabel(s, field, 0) == Some(p)
    requires p + |field| + 1 + |v| <= |s| && s[p + |field| + 1..p + |field| + 1 + |v|] == v
    requires '\n' !in v && !AllSpace(v)
    ensures ParseFieldAsWritten(s, field) == ParseField(s, field)
  {
    SkipStaysOnValue(s, p, field, v);
    AsWrittenAgrees(s, field, p);
  }

  /** The greedy `\s*` in front of a value that is not blank stops inside the value. */
  lemma SkipStaysOnValue(s: string, p: nat, field: string, v: string)
    requires p + |field| + 1 + |v| <= |s| && s[p + |field| + 1..p + |field| + 1 + |v|] == v
    requires '\n' !in v && !AllSpace(v)
    ensures var a := p + |field| + 1; forall m :: a <= m < SkipSpace(s, a) ==> s[m] != '\n'
  {
    var a := p + |field| + 1;
    var b := SkipSpace(s, a);
    SkipSpaceRun(s, a);
    assert b < a + |v|;
    forall m | a <= m < b ensures s[m] != '\n' {
      assert s[m] == v[m - a];
    }
  }

  /** The positions of an empty field followed by the next label line. */
  lemma EmptyFieldFacts(s: string, l: string, field: string, next: string, v: string)
    requires s == l + ":\n" + next + ":" + v && |l| == |field| && next != []
    ensures s[..|field|] == l && s[|field|] == ':' && s[|l| + 1] == '\n' && s[|l| + 2] == next[0]
    ensures s[|l| + 2..] == next + ":" + v
    ensures s == (l + ":\n") + (next + ":" + v)
  {
  }

  /**
   * An empty field followed by the next label line: as written, the greedy `\s*` takes the
   * new line, so the capture runs on through the next label's line.
   */
  lemma EmptyFieldAsWritten(s: string, l: string, field: string, next: string, v: string)
    requires s == l + ":\n" + next + ":" + v
    requires EqualIgnoringCase(l, field) && next != [] && (forall k :: 0 <= k < |next| ==> IsLabelChar(next[k]))
    requires '\n' !in v
    ensures ParseFieldAsWritten(s, field) == Trim(next + ":" + v) != ""
  {
    var a := |l| + 1;
    EmptyFieldFacts(s, l, field, next, v);
    FindLabelFirst(s, field, 0, 0);
    assert IsLabelChar(next[0]);
    SkipSpaceExact(s, a, a + 1);
    var t := next + ":" + v;
    forall m | a + 1 <= m < |s| ensures s[m] != '\n' {
      assert s[m] == t[m - a - 1];
    }
    CaptureAsWrittenOf(s, field, 0, a + 1, |s|);
    assert s[a + 1..|s|] == s[a + 1..] == t;
    ParseFieldAsWrittenOf(s, field, t);
    assert !AllSpace(t) by { assert t[0] == next[0]; }
  }

  /** Starting the capture after the colon, the same empty field gives ''. */
  lemma EmptyFieldCorrected(s: string, l: string, field: string, next: string, v: string)
    requires s == l + ":\n" + next + ":" + v
    requires EqualIgnoringCase(l, field) && next != [] && (forall k :: 0 <= k < |next| ==> IsLabelChar(next[k]))
    ensures ParseField(s, field) == ""
  {
    var a := |l| + 1;
    EmptyFieldFacts(s, l, field, next, v);
    FindLabelFirst(s, field, 0, 0);
    var t := next + ":" + v;
    assert LabelRun(t, 0) == |next| by {
      assert t[|next|] == ':';
      forall m | 0 <= m < |next| ensures IsLabelChar(t[m]) { assert t[m] == next[m]; }
      LabelRunExact(t, 0, |next|);
    }
    LabelRunSuffix(l + ":\n", t, 0);
    assert s[a + 1 + |next|] == t[|next|];
    assert FieldEndAt(s, a);
    CaptureOf(s, field, 0, a);
  }

  /** A run of label characters stops at the first other character. */
  lemma {:induction false} LabelRunExact(s: string, i: nat, m: nat)
    requires i <= m < |s| && !IsLabelChar(s[m])
    requires forall t :: i <= t < m ==> IsLabelChar(s[t])
    ensures LabelRun(s, i) == m - i
    decreases m - i
  {
    if i < m {
      LabelRunExact(s, i + 1, m);
    }
  }

  /** The corrected capture from the label at `p`. */
  lemma CaptureAt(s: string, field: string, p: nat)
    requires FindLabel(s, field, 0) == Some(p)
    ensures Capture(s, field) == Some(GroupFrom(s, p + |field| + 1))
  {
  }

  /** The corrected `ParseField` trims the capture. */
  lemma ParseFieldOf(s: string, field: string, c: string)
    requires Capture(s, field) == Some(c)
    ensures ParseField(s, field) == Trim(c)
  {
  }

  /** `parseField` as written trims its capture. */
  lemma ParseFieldAsWrittenOf(s: string, field: string, c: string)
    requires CaptureAsWritten(s, field) == Some(c)
    ensures ParseFieldAsWritten(s, field) == Trim(c)
  {
  }

  /** Whenever the white space after the label holds no new line, the two captures trim alike. */
  lemma AsWrittenAgrees(s: string, field: string, p: nat)
    requires FindLabel(s, field, 0) == Some(p)
    requires var a := p + |field| + 1; forall m :: a <= m < SkipSpace(s, a) ==> s[m] != '\n'
    ensures ParseFieldAsWritten(s, field) == ParseField(s, field)
  {
    var a := p + |field| + 1;
    var b := SkipSpace(s, a);
    SkipSpaceRun(s, a);
    NoEndInLine(s, a, b);
    FieldEndSkips(s, a, b);
    var e := FieldEndFrom(s, b);
    TrimSkipsSpace(s, a, b, e);
    CaptureAt(s, field, p);
    CaptureAsWrittenAt(s, field, p);
    ParseFieldOf(s, field, s[a..e]);
    ParseFieldAsWrittenOf(s, field, s[b..e]);
  }

  /** White space cut from the front of a slice does not change its trim. */
  lemma TrimSkipsSpace(s: string, a: nat, b: nat, e: nat)
    requires a <= b <= e <= |s|
    requires forall m :: a <= m < b ==> IsSpace(s[m])
    ensures Trim(s[a..e]) == Trim(s[b..e])
  {
    var w := s[a..b];
    assert AllSpace(w) by {
      forall k | 0 <= k < |w| ensures IsSpace(w[k]) { assert w[k] == s[a + k]; }
    }
    assert s[a..e] == w + s[b..e] + [];
    TrimPadded(w, s[b..e], []);
  }

  /** The first terminator from `a` is the first from `b` when none lies in between. */
  lemma {:induction false} FieldEndSkips(s: string, a: nat, b: nat)
    requires a <= b <= |s|
    requires forall m :: a <= m < b ==> !FieldEndAt(s, m)
    ensures FieldEndFrom(s, a) == FieldEndFrom(s, b)
    decreases b - a
  {
    if a < b {
      FieldEndSkips(s, a + 1, b);
    }
  }
}
