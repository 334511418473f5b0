/**
 * The stored forms of a factor-D change and a factor-F product, and the two regular
 * expressions that read them back (components/ICPScreener.jsx:1552-1559, 904, 921):
 *
 *   change   "name (date): before → after"   read by  /^(.+?)\s*\((.+?)\):\s*(.+?)\s*→\s*(.+)$/
 *   product  "name (tag)"                    read by  /^(.+?)\s*\((.+?)\)$/
 *
 * Each pattern is written as the search a backtracking matcher performs on it: a lazy
 * group is tried shortest first, a greedy `\s*` longest first, `.` never matches a line
 * terminator, and `$` (no `m` flag) matches only at the end of the text. A greedy `\s*`
 * followed by a literal that is not white space can only succeed with its longest run,
 * so the model tries that run alone.
 */
module RowPatterns {
  import opened Wrappers
  import opened Text

  datatype Product = Product(name: string, tag: string)

  datatype Change = Change(name: string, date: string, before: string, after: string)

  // ---------------------------------------------------------------- products

  /** `name (tag)`, as flattening writes a product. */
  function FormatProduct(p: Product): string {
    p.name + " (" + p.tag + ")"
  }

  /** `^(.+?)` has taken `s[..i]`; the rest must be `\s*\((.+?)\)$`. */
  function ProductAt(s: string, i: nat): Option<Product>
    requires i <= |s|
  {
    var j := i + SpaceRun(s, i);
    if j + 2 < |s| && s[j] == '(' && s[|s| - 1] == ')' && NoLineTerminator(s[j + 1..|s| - 1])
    then Some(Product(s[..i], s[j + 1..|s| - 1]))
    else None
  }

  /** The lazy name group tried with `i`, `i + 1`, ... characters. */
  function ProductFrom(s: string, i: nat): Option<Product>
    requires 1 <= i
    decreases |s| + 1 - i
  {
    if i > |s| || IsLineTerminator(s[i - 1]) then None
    else match ProductAt(s, i)
      case Some(p) => Some(p)
      case None => ProductFrom(s, i + 1)
  }

  /**
   * A decomposition the product pattern accepts: a non-empty name and tag without line
   * terminators, white space between them, and the tag in parentheses at the very end.
   */
  predicate IsProductMatch(s: string, p: Product) {
    var n, t := |p.name|, |p.tag|;
    p.name != [] && p.tag != [] && NoLineTerminator(p.name) && NoLineTerminator(p.tag)
    && n + t + 2 <= |s| && s[..n] == p.name
    && (forall m :: n <= m < |s| - t - 2 ==> IsSpace(s[m]))
    && s[|s| - t - 2] == '(' && s[|s| - t - 1..|s| - 1] == p.tag && s[|s| - 1] == ')'
  }

  /** `s.match(/^(.+?)\s*\((.+?)\)$/)`, as its two groups. */
  function MatchProduct(s: string): (r: Option<Product>)
    ensures r.Some? ==> IsProductMatch(s, r.value)
  {
    ProductFromSound(s, 1);
    ProductFrom(s, 1)
  }

  lemma {:induction false} ProductFromSound(s: string, i: nat)
    requires 1 <= i <= |s| + 1 && NoLineTerminator(s[..i - 1])
    ensures ProductFrom(s, i).Some? ==> IsProductMatch(s, ProductFrom(s, i).value)
    decreases |s| + 1 - i
  {
    if i <= |s| && !IsLineTerminator(s[i - 1]) {
      assert NoLineTerminator(s[..i]) by {
        forall m | 0 <= m < i ensures !IsLineTerminator(s[..i][m]) {
          if m < i - 1 { assert s[..i][m] == s[..i - 1][m]; }
        }
      }
      if ProductAt(s, i).None? {
        ProductFromSound(s, i + 1);
      } else {
        var p := ProductAt(s, i).value;
        var j := i + SpaceRun(s, i);
        assert s[j + 1..|s| - 1] == p.tag;
        assert |s| - |p.tag| - 2 == j;
      }
    }
  }

  /** A text without `(` never matches, so its product keeps the text as name and tag "module". */
  lemma {:induction false} NoParenNoProduct(s: string, i: nat)
    requires 1 <= i
    requires '(' !in s
    ensures ProductFrom(s, i) == None
    decreases |s| + 1 - i
  {
    if i <= |s| && !IsLineTerminator(s[i - 1]) {
      var j := i + SpaceRun(s, i);
      if j < |s| { assert s[j] in s; }
      NoParenNoProduct(s, i + 1);
    }
  }

  /** The match has the shortest name of all the decompositions the pattern accepts. */
  lemma {:induction false} ProductFromComplete(s: string, i: nat, q: Product)
    requires 1 <= i <= |q.name| && IsProductMatch(s, q)
    ensures ProductFrom(s, i).Some? && |ProductFrom(s, i).value.name| <= |q.name|
    decreases |q.name| - i
  {
    assert s[i - 1] == q.name[i - 1];
    if i == |q.name| {
      SpaceRunExact(s, i, |s| - |q.tag| - 2);
      assert s[i + SpaceRun(s, i) + 1..|s| - 1] == q.tag;
    } else if ProductAt(s, i).None? {
      ProductFromComplete(s, i + 1, q);
    }
  }

  lemma ProductMatchIsShortest(s: string, q: Product)
    requires IsProductMatch(s, q)
    ensures MatchProduct(s).Some? && |MatchProduct(s).value.name| <= |q.name|
  {
    ProductFromComplete(s, 1, q);
  }

  /**
   * A product the pattern reads back unchanged: a non-empty name and tag without line
   * terminators, and a name that has no `(` and does not end in white space.
   */
  predicate ReadableProduct(p: Product) {
    p.name != [] && p.tag != [] && NoLineTerminator(p.name) && NoLineTerminator(p.tag)
    && '(' !in p.name && !IsSpace(p.name[|p.name| - 1])
  }

  /** Name lengths shorter than `n` fail when `s[..n]` has no `(` and ends in a non-space. */
  lemma {:induction false} ProductSkipsName(s: string, n: nat, i: nat)
    requires 1 <= i <= n <= |s|
    requires NoLineTerminator(s[..n]) && '(' !in s[..n] && !IsSpace(s[n - 1])
    ensures ProductFrom(s, i) == ProductFrom(s, n)
    decreases n - i
  {
    if i < n {
      assert s[..n][i - 1] == s[i - 1];
      var j := i + SpaceRun(s, i);
      SpaceRunStopsBefore(s, i, n - 1);
      assert s[..n][j] == s[j];
      ProductSkipsName(s, n, i + 1);
    }
  }

  /** Flattening a readable product and matching it again gives the product back. */
  lemma MatchFormattedProduct(p: Product)
    requires ReadableProduct(p)
    ensures MatchProduct(FormatProduct(p)) == Some(p)
  {
    var s, n := FormatProduct(p), |p.name|;
    assert s[..n] == p.name;
    assert s[n] == ' ' && s[n + 1] == '(' && s[|s| - 1] == ')';
    assert s[n + 2..|s| - 1] == p.tag;
    ProductSkipsName(s, n, 1);
    SpaceRunExact(s, n, n + 1);
  }

  // ----------------------------------------------------------------- changes

  /** `name (date): before → after`, as flattening writes a change. */
  function FormatChange(c: Change): string {
    c.name + " (" + c.date + "): " + c.before + " → " + c.after
  }

  /** The lazy name group tried with `i`, `i + 1`, ... characters. */
  function ChangeFrom(s: string, i: nat): Option<Change>
    requires 1 <= i
    decreases |s| + 1 - i
  {
    if i > |s| || IsLineTerminator(s[i - 1]) then None
    else match ChangeAt(s, i)
      case Some(c) => Some(c)
      case None => ChangeFrom(s, i + 1)
  }

  /** The name is `s[..i]`; `\s*\(` must follow. */
  function ChangeAt(s: string, i: nat): Option<Change>
    requires 1 <= i <= |s|
  {
    var j := i + SpaceRun(s, i);
    if j < |s| && s[j] == '(' then DateFrom(s, i, j, j + 2) else None
  }

  /** The lazy date group `s[j + 1..k]`, tried with growing `k`; `):` and the rest must follow. */
  function DateFrom(s: string, i: nat, j: nat, k: nat): Option<Change>
    requires 1 <= i <= j < |s| && j + 2 <= k
    decreases |s| + 1 - k
  {
    if k > |s| || IsLineTerminator(s[k - 1]) then None
    else if k + 2 <= |s| && s[k] == ')' && s[k + 1] == ':' then
      match Tail(s, k + 2)
      case Some(ba) => Some(Change(s[..i], s[j + 1..k], ba.0, ba.1))
      case None => DateFrom(s, i, j, k + 1)
    else DateFrom(s, i, j, k + 1)
  }

  /** `\s*(.+?)\s*→\s*(.+)$` from index `p`, giving the before and after groups. */
  function Tail(s: string, p: nat): Option<(string, string)>
    requires p <= |s|
  {
    TailWith(s, p, SpaceRun(s, p))
  }

  /** The leading `\s*` of the tail takes `c` characters; on failure it gives one back. */
  function TailWith(s: string, p: nat, c: nat): Option<(string, string)>
    requires p + c <= |s|
    decreases c
  {
    match BeforeFrom(s, p + c, p + c + 1)
    case Some(ba) => Some(ba)
    case None => if c == 0 then None else TailWith(s, p, c - 1)
  }

  /** The lazy before group `s[a..e]`, tried with growing `e`; `\s*→` and the after part must follow. */
  function BeforeFrom(s: string, a: nat, e: nat): Option<(string, string)>
    requires a < e
    decreases |s| + 1 - e
  {
    if e > |s| || IsLineTerminator(s[e - 1]) then None
    else
      var f := e + SpaceRun(s, e);
      if f < |s| && s[f] == '→' then
        match AfterFrom(s, f + 1, SpaceRun(s, f + 1))
        case Some(g) => Some((s[a..e], g))
        case None => BeforeFrom(s, a, e + 1)
      else BeforeFrom(s, a, e + 1)
  }

  /** `\s*(.+)$` from index `q`, the `\s*` taking `c` characters first and then fewer. */
  function AfterFrom(s: string, q: nat, c: nat): (r: Option<string>)
    requires q + c <= |s|
    ensures r.Some? ==> r.value != [] && NoLineTerminator(r.value) && EndsWith(s, r.value)
    decreases c
  {
    if q + c < |s| && NoLineTerminator(s[q + c..]) then Some(s[q + c..])
    else if c == 0 then None
    else AfterFrom(s, q, c - 1)
  }

  /** `s.match(/^(.+?)\s*\((.+?)\):\s*(.+?)\s*→\s*(.+)$/)`, as its four groups. */
  function MatchChange(s: string): Option<Change> {
    ChangeFrom(s, 1)
  }

  /** A text without `(` never matches, so its change keeps the text as name and empty parts. */
  lemma {:induction false} NoParenNoChange(s: string, i: nat)
    requires 1 <= i
    requires '(' !in s
    ensures ChangeFrom(s, i) == None
    decreases |s| + 1 - i
  {
    if i <= |s| && !IsLineTerminator(s[i - 1]) {
      var j := i + SpaceRun(s, i);
      if j < |s| { assert s[j] in s; }
      NoParenNoChange(s, i + 1);
    }
  }

  /**
   * A change the pattern reads back unchanged: every part non-empty and free of line
   * terminators; the name has no `(` and does not end in white space, the date has no
   * `)`, the before part has no `→` and neither starts nor ends with white space, and the
   * after part does not start with white space.
   */
  predicate ReadableChange(c: Change) {
    c.name != [] && c.date != [] && c.before != [] && c.after != []
    && NoLineTerminator(c.name) && NoLineTerminator(c.date)
    && NoLineTerminator(c.before) && NoLineTerminator(c.after)
    && '(' !in c.name && !IsSpace(c.name[|c.name| - 1])
    && ')' !in c.date
    && '→' !in c.before && !IsSpace(c.before[0]) && !IsSpace(c.before[|c.before| - 1])
    && !IsSpace(c.after[0])
  }

  /** Name lengths shorter than `n` fail when `s[..n]` has no `(` and ends in a non-space. */
  lemma {:induction false} ChangeSkipsName(s: string, n: nat, i: nat)
    requires 1 <= i <= n <= |s|
    requires NoLineTerminator(s[..n]) && '(' !in s[..n] && !IsSpace(s[n - 1])
    ensures ChangeFrom(s, i) == ChangeFrom(s, n)
    decreases n - i
  {
    if i < n {
      assert s[..n][i - 1] == s[i - 1];
      var j := i + SpaceRun(s, i);
      SpaceRunStopsBefore(s, i, n - 1);
      assert s[..n][j] == s[j];
      ChangeSkipsName(s, n, i + 1);
    }
  }

  /** Date ends before `k0` fail when the date `s[j + 1..k0]` has no `)`. */
  lemma {:induction false} DateSkips(s: string, i: nat, j: nat, k: nat, k0: nat)
    requires 1 <= i <= j < |s| && j + 2 <= k <= k0 < |s|
    requires NoLineTerminator(s[j + 1..k0]) && ')' !in s[j + 1..k0]
    ensures DateFrom(s, i, j, k) == DateFrom(s, i, j, k0)
    decreases k0 - k
  {
    if k < k0 {
      assert s[j + 1..k0][k - 1 - (j + 1)] == s[k - 1];
      assert s[j + 1..k0][k - (j + 1)] == s[k];
      DateSkips(s, i, j, k + 1, k0);
    }
  }

  /** Before ends short of `b1` fail when `s[a..b1]` has no `→` and ends in a non-space. */
  lemma {:induction false} BeforeSkips(s: string, a: nat, e: nat, b1: nat)
    requires a < e <= b1 <= |s|
    requires NoLineTerminator(s[a..b1]) && '→' !in s[a..b1] && !IsSpace(s[b1 - 1])
    ensures BeforeFrom(s, a, e) == BeforeFrom(s, a, b1)
    decreases b1 - e
  {
    if e < b1 {
      assert s[a..b1][e - 1 - a] == s[e - 1];
      var f := e + SpaceRun(s, e);
      SpaceRunStopsBefore(s, e, b1 - 1);
      assert s[a..b1][f - a] == s[f];
      BeforeSkips(s, a, e + 1, b1);
    }
  }

  /**
   * The layout flattening writes, by position: the name `s[..n]`, " (" at `n`, the date
   * up to `k0`, "): " at `k0`, the before part up to `b1`, " → " at `b1`, then the after part.
   */
  predicate ChangeLayout(s: string, n: nat, k0: nat, b1: nat) {
    1 <= n && n + 3 <= k0 && k0 + 4 <= b1 && b1 + 4 <= |s|
    && NoLineTerminator(s[..n]) && '(' !in s[..n] && !IsSpace(s[n - 1])
    && s[n] == ' ' && s[n + 1] == '('
    && NoLineTerminator(s[n + 2..k0]) && ')' !in s[n + 2..k0]
    && s[k0] == ')' && s[k0 + 1] == ':' && s[k0 + 2] == ' '
    && NoLineTerminator(s[k0 + 3..b1]) && '→' !in s[k0 + 3..b1]
    && !IsSpace(s[k0 + 3]) && !IsSpace(s[b1 - 1])
    && s[b1] == ' ' && s[b1 + 1] == '→' && s[b1 + 2] == ' '
    && NoLineTerminator(s[b1 + 3..]) && !IsSpace(s[b1 + 3])
  }

  /** After " → " at `b1`, the after part runs to the end. */
  lemma AfterOfLayout(s: string, b1: nat)
    requires b1 + 4 <= |s| && s[b1 + 2] == ' ' && !IsSpace(s[b1 + 3]) && NoLineTerminator(s[b1 + 3..])
    ensures AfterFrom(s, b1 + 2, SpaceRun(s, b1 + 2)) == Some(s[b1 + 3..])
  {
    SpaceRunExact(s, b1 + 2, b1 + 3);
  }

  /** The before group ending at `b1` is followed by " → " and the after part. */
  lemma BeforeAtEnd(s: string, a: nat, b1: nat)
    requires a < b1 && b1 + 4 <= |s| && !IsLineTerminator(s[b1 - 1])
    requires s[b1] == ' ' && s[b1 + 1] == '→' && s[b1 + 2] == ' '
    requires !IsSpace(s[b1 + 3]) && NoLineTerminator(s[b1 + 3..])
    ensures BeforeFrom(s, a, b1) == Some((s[a..b1], s[b1 + 3..]))
  {
    SpaceRunExact(s, b1, b1 + 1);
    AfterOfLayout(s, b1);
  }

  /** The before group is `s[a..b1]` and the after part follows " → ". */
  lemma BeforeOfLayout(s: string, a: nat, b1: nat)
    requires a < b1 && b1 + 4 <= |s|
    requires NoLineTerminator(s[a..b1]) && '→' !in s[a..b1] && !IsSpace(s[b1 - 1])
    requires s[b1] == ' ' && s[b1 + 1] == '→' && s[b1 + 2] == ' '
    requires !IsSpace(s[b1 + 3]) && NoLineTerminator(s[b1 + 3..])
    ensures BeforeFrom(s, a, a + 1) == Some((s[a..b1], s[b1 + 3..]))
  {
    assert s[a..b1][b1 - 1 - a] == s[b1 - 1];
    BeforeAtEnd(s, a, b1);
    BeforeSkips(s, a, a + 1, b1);
  }

  /** After "): " at `k0`, the tail gives the before and after parts. */
  lemma TailOfLayout(s: string, k0: nat, b1: nat)
    requires k0 + 4 <= b1 && b1 + 4 <= |s| && s[k0 + 2] == ' '
    requires NoLineTerminator(s[k0 + 3..b1]) && '→' !in s[k0 + 3..b1]
    requires !IsSpace(s[k0 + 3]) && !IsSpace(s[b1 - 1])
    requires s[b1] == ' ' && s[b1 + 1] == '→' && s[b1 + 2] == ' '
    requires NoLineTerminator(s[b1 + 3..]) && !IsSpace(s[b1 + 3])
    ensures Tail(s, k0 + 2) == Some((s[k0 + 3..b1], s[b1 + 3..]))
  {
    SpaceRunExact(s, k0 + 2, k0 + 3);
    BeforeOfLayout(s, k0 + 3, b1);
  }

  lemma ChangeOfLayout(s: string, n: nat, k0: nat, b1: nat)
    requires ChangeLayout(s, n, k0, b1)
    ensures MatchChange(s) == Some(Change(s[..n], s[n + 2..k0], s[k0 + 3..b1], s[b1 + 3..]))
  {
    ChangeSkipsName(s, n, 1);
    SpaceRunExact(s, n, n + 1);
    DateSkips(s, n, n + 1, n + 3, k0);
    assert s[n + 2..k0][k0 - 1 - (n + 2)] == s[k0 - 1];
    TailOfLayout(s, k0, b1);
  }

  /** Where a formatted change's parts and literals sit. */
  lemma FormattedChangeSlices(c: Change)
    ensures var n := |c.name|; var k0 := n + 2 + |c.date|; var b1 := k0 + 3 + |c.before|;
      var s := FormatChange(c);
      && |s| == b1 + 3 + |c.after|
      && s[..n] == c.name && s[n] == ' ' && s[n + 1] == '('
      && s[n + 2..k0] == c.date && s[k0] == ')' && s[k0 + 1] == ':' && s[k0 + 2] == ' '
      && s[k0 + 3..b1] == c.before && s[b1] == ' ' && s[b1 + 1] == '→' && s[b1 + 2] == ' '
      && s[b1 + 3..] == c.after
  {
    var n := |c.name|;
    var k0 := n + 2 + |c.date|;
    var b1 := k0 + 3 + |c.before|;
    var s := FormatChange(c);
    assert s[..n] == c.name;
    assert s[n + 2..k0] == c.date;
    assert s[k0 + 3..b1] == c.before;
    assert s[b1 + 3..] == c.after;
  }

  /** The slices of a readable change give the layout the pattern reads. */
  lemma LayoutOfSlices(s: string, c: Change, n: nat, k0: nat, b1: nat)
    requires ReadableChange(c)
    requires n == |c.name| && k0 == n + 2 + |c.date| && b1 == k0 + 3 + |c.before| && |s| == b1 + 3 + |c.after|
    requires s[..n] == c.name && s[n] == ' ' && s[n + 1] == '('
    requires s[n + 2..k0] == c.date && s[k0] == ')' && s[k0 + 1] == ':' && s[k0 + 2] == ' '
    requires s[k0 + 3..b1] == c.before && s[b1] == ' ' && s[b1 + 1] == '→' && s[b1 + 2] == ' '
    requires s[b1 + 3..] == c.after
    ensures ChangeLayout(s, n, k0, b1)
  {
    assert s[k0 + 3] == s[k0 + 3..b1][0];
    assert s[b1 - 1] == s[k0 + 3..b1][|c.before| - 1];
    assert s[n - 1] == s[..n][n - 1];
    assert s[b1 + 3] == s[b1 + 3..][0];
  }

  /** Flattening a readable change and matching it again gives the change back. */
  lemma MatchFormattedChange(c: Change)
    requires ReadableChange(c)
    ensures MatchChange(FormatChange(c)) == Some(c)
  {
    var n := |c.name|;
    var k0 := n + 2 + |c.date|;
    var b1 := k0 + 3 + |c.before|;
    var s := FormatChange(c);
    FormattedChangeSlices(c);
    LayoutOfSlices(s, c, n, k0, b1);
    ChangeOfLayout(s, n, k0, b1);
  }
}
