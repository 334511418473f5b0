/**
 * `parseCSV` (components/ICPScreener.jsx:1271-1327): the uploaded CSV becomes a list of
 * pending companies. The header line is split on every comma; each data line is read by a
 * quote-aware scanner in which a double quote toggles "inside quotes", is itself dropped,
 * and a comma inside quotes is kept as text.
 */
module CsvImport {
  import opened Wrappers
  import opened Text
  import Domain
  import opened Company

  // ------------------------------------------------------------ cells

  /** `.replace(/^"|"$/g, '')`: one double quote is dropped at each end. */
  function StripQuotes(s: string): (r: string)
    ensures '"' !in s ==> r == s
  {
    var a := if s != [] && s[0] == '"' then s[1..] else s;
    if a != [] && a[|a| - 1] == '"' then a[..|a| - 1] else a
  }

  /** A value as it is pushed: trimmed, then its surrounding quotes dropped. */
  function Clean(s: string): string {
    StripQuotes(Trim(s))
  }

  /**
   * The scanner's state: the text of the value being read, whether inside quotes, and the
   * texts of the values already ended (each is cleaned as it is pushed).
   */
  datatype Scan = Scan(current: string, inQuotes: bool, ended: seq<string>)

  const Start: Scan := Scan("", false, [])

  /** One character of the scanner loop. */
  function ScanChar(st: Scan, c: char): Scan {
    if c == '"' then st.(inQuotes := !st.inQuotes)
    else if c == ',' && !st.inQuotes then Scan("", st.inQuotes, st.ended + [st.current])
    else st.(current := st.current + [c])
  }

  /** The state after scanning `x` from `st`. */
  function Run(x: string, st: Scan): Scan
    decreases |x|
  {
    if x == [] then st else ScanChar(Run(x[..|x| - 1], st), x[|x| - 1])
  }

  /** `xs.map(f)`, written as the scanner builds it: one value pushed at a time. */
  function Each(xs: seq<string>, f: string -> string): (r: seq<string>)
    ensures |r| == |xs|
    decreases |xs|
  {
    if xs == [] then [] else Each(xs[..|xs| - 1], f) + [f(xs[|xs| - 1])]
  }

  lemma EachSnoc(xs: seq<string>, x: string, f: string -> string)
    ensures Each(xs + [x], f) == Each(xs, f) + [f(x)]
  {
    assert (xs + [x])[..|xs|] == xs;
  }

  lemma {:induction false} EachAt(xs: seq<string>, f: string -> string)
    ensures forall k :: 0 <= k < |xs| ==> Each(xs, f)[k] == f(xs[k])
    decreases |xs|
  {
    if xs != [] {
      var init := xs[..|xs| - 1];
      EachAt(init, f);
      var r := Each(xs, f);
      assert r == Each(init, f) + [f(xs[|xs| - 1])];
      forall k | 0 <= k < |xs| ensures r[k] == f(xs[k]) {
        if k < |init| { assert r[k] == Each(init, f)[k]; assert init[k] == xs[k]; }
      }
    }
  }

  /** The texts of a data line's values before cleaning: those ended at unquoted commas, then the last one. */
  function Raw(line: string): seq<string> {
    var st := Run(line, Start);
    st.ended + [st.current]
  }

  /** The values of a data line. */
  function Fields(line: string): seq<string> {
    Each(Raw(line), Clean)
  }

  /**
   * The scanner loop of `parseCSV` for one line, each value passed through `clean` as it is
   * pushed.
   */
  method ScanLine(line: string, clean: string -> string) returns (values: seq<string>)
    ensures values == Each(Raw(line), clean)
  {
    values := [];
    var current := "";
    var inQuotes := false;
    var j := 0;
    while j < |line|
      invariant 0 <= j <= |line|
      invariant var st := Run(line[..j], Start);
        st.current == current && st.inQuotes == inQuotes && values == Each(st.ended, clean)
    {
      var c := line[j];
      assert line[..j + 1][..j] == line[..j];
      ghost var ended := Run(line[..j], Start).ended;
      if c == '"' {
        inQuotes := !inQuotes;
      } else if c == ',' && !inQuotes {
        EachSnoc(ended, current, clean);
        values := values + [clean(current)];
        current := "";
      } else {
        current := current + [c];
      }
      j := j + 1;
    }
    assert line[..j] == line;
    EachSnoc(Run(line, Start).ended, current, clean);
    values := values + [clean(current)];
  }

  /** The values of one data line: `current.trim().replace(/^"|"$/g, '')` at each push. */
  method SplitLine(line: string) returns (values: seq<string>)
    ensures values == Fields(line)
  {
    values := ScanLine(line, Clean);
  }

  // ---------------------------------------------------- the scanner's laws

  /** Scanning two pieces is scanning the first, then the second. */
  lemma {:induction false} RunAppend(x: string, y: string, st: Scan)
    ensures Run(x + y, st) == Run(y, Run(x, st))
    decreases |y|
  {
    if y == [] {
      assert x + y == x;
    } else {
      assert (x + y)[..|x + y| - 1] == x + y[..|y| - 1];
      RunAppend(x, y[..|y| - 1], st);
    }
  }

  /** Text without quotes, and without commas unless inside quotes, is added to the current value. */
  lemma {:induction false} RunPlain(x: string, st: Scan)
    requires '"' !in x && (st.inQuotes || ',' !in x)
    ensures Run(x, st) == st.(current := st.current + x)
    decreases |x|
  {
    if x != [] {
      var y := x[..|x| - 1];
      assert forall c :: c in y ==> c in x;
      RunPlain(y, st);
      assert x[|x| - 1] in x;
      assert st.current + y + [x[|x| - 1]] == st.current + x;
    }
  }

  /** The scanner drops every double quote. */
  lemma {:induction false} RunNoQuote(x: string, st: Scan)
    requires '"' !in st.current && forall k :: 0 <= k < |st.ended| ==> '"' !in st.ended[k]
    ensures var r := Run(x, st); '"' !in r.current && forall k :: 0 <= k < |r.ended| ==> '"' !in r.ended[k]
    decreases |x|
  {
    if x != [] {
      RunNoQuote(x[..|x| - 1], st);
    }
  }

  lemma RawNoQuote(line: string)
    ensures forall k :: 0 <= k < |Raw(line)| ==> '"' !in Raw(line)[k]
  {
    RunNoQuote(line, Start);
    var st := Run(line, Start);
    assert forall k :: 0 <= k < |st.ended| ==> Raw(line)[k] == st.ended[k];
  }

  lemma CleanKeepsNoQuote(s: string)
    requires '"' !in s
    ensures '"' !in Clean(s)
  {
    TrimKeepsAbsent(s, '"');
  }

  /** No value of a line holds a double quote. */
  lemma FieldsNoQuote(line: string)
    ensures forall k :: 0 <= k < |Fields(line)| ==> '"' !in Fields(line)[k]
  {
    var xs := Raw(line);
    RawNoQuote(line);
    EachAt(xs, Clean);
    forall k | 0 <= k < |xs| ensures '"' !in Clean(xs[k]) {
      CleanKeepsNoQuote(xs[k]);
    }
  }

  /** A cell of a CSV line, optionally between double quotes. */
  datatype Cell = Cell(content: string, quoted: bool)

  /** A cell the scanner reads back: no quote inside, and a comma only between quotes. */
  predicate Readable(c: Cell) {
    '"' !in c.content && (c.quoted || ',' !in c.content)
  }

  function Render(c: Cell): string {
    if c.quoted then "\"" + c.content + "\"" else c.content
  }

  /** The cells written out, separated by commas. */
  function Line(cells: seq<Cell>): string
    requires |cells| >= 1
  {
    if |cells| == 1 then Render(cells[0]) else Render(cells[0]) + "," + Line(cells[1..])
  }

  /** The cells' texts, without the quotes around them. */
  function Contents(cells: seq<Cell>): seq<string> {
    seq(|cells|, k requires 0 <= k < |cells| => cells[k].content)
  }

  /** The cells' contents, each trimmed. */
  function Trimmed(cells: seq<Cell>): seq<string> {
    Each(Contents(cells), Trim)
  }

  /** A readable cell is added to the current value without its quotes. */
  lemma RunCell(c: Cell, st: Scan)
    requires Readable(c) && !st.inQuotes
    ensures Run(Render(c), st) == st.(current := st.current + c.content)
  {
    if c.quoted {
      var open := Run("\"", st);
      assert open == st.(inQuotes := true);
      RunAppend("\"", c.content, st);
      RunPlain(c.content, open);
      var mid := open.(current := st.current + c.content);
      RunAppend("\"" + c.content, "\"", st);
      assert Run("\"", mid) == mid.(inQuotes := false);
    } else {
      RunPlain(c.content, st);
    }
  }

  lemma CleanOfQuoteFree(s: string)
    requires '"' !in s
    ensures Clean(s) == Trim(s)
  {
    TrimKeepsAbsent(s, '"');
  }

  /** Scanning readable cells joined by commas ends each cell but the last. */
  lemma {:induction false} RunCells(cells: seq<Cell>, vs: seq<string>)
    requires |cells| >= 1 && forall k :: 0 <= k < |cells| ==> Readable(cells[k])
    ensures Run(Line(cells), Scan("", false, vs))
         == Scan(cells[|cells| - 1].content, false, vs + Contents(cells[..|cells| - 1]))
    decreases |cells|
  {
    if |cells| == 1 {
      var st := Scan("", false, vs);
      RunCell(cells[0], st);
      assert "" + cells[0].content == cells[0].content;
      assert cells[..0] == [];
    } else {
      RunCells(cells[1..], vs + [cells[0].content]);
      RunCellsStep(cells, vs);
    }
  }

  /** The first cell and its comma, then the rest of the line as scanned from there. */
  lemma RunCellsStep(cells: seq<Cell>, vs: seq<string>)
    requires |cells| >= 2 && Readable(cells[0])
    requires Run(Line(cells[1..]), Scan("", false, vs + [cells[0].content]))
          == Scan(cells[|cells| - 1].content, false, vs + [cells[0].content] + Contents(cells[1..][..|cells| - 2]))
    ensures Run(Line(cells), Scan("", false, vs))
         == Scan(cells[|cells| - 1].content, false, vs + Contents(cells[..|cells| - 1]))
  {
    var c0, tail := cells[0], cells[1..];
    assert Line(cells) == Render(c0) + "," + Line(tail);
    RunFirstCell(c0, Line(tail), vs);
    ContentsFront(cells);
    var before := Contents(tail[..|tail| - 1]);
    assert vs + [c0.content] + before == vs + ([c0.content] + before);
  }

  /** A readable cell and its comma end one value and start the next. */
  lemma RunFirstCell(c0: Cell, rest: string, vs: seq<string>)
    requires Readable(c0)
    ensures Run(Render(c0) + "," + rest, Scan("", false, vs)) == Run(rest, Scan("", false, vs + [c0.content]))
  {
    var st := Scan("", false, vs);
    RunCell(c0, st);
    var mid := Run(Render(c0), st);
    assert mid == Scan(c0.content, false, vs) by { assert "" + c0.content == c0.content; }
    var r0 := Render(c0);
    RunAppend(r0 + ",", rest, st);
    RunAppend(r0, ",", st);
    RunComma(mid);
  }

  lemma ContentsFront(cells: seq<Cell>)
    requires |cells| >= 2
    ensures Contents(cells[..|cells| - 1]) == [cells[0].content] + Contents(cells[1..][..|cells| - 2])
  {
  }

  /** An unquoted comma ends the current value. */
  lemma RunComma(st: Scan)
    requires !st.inQuotes
    ensures Run(",", st) == Scan("", false, st.ended + [st.current])
  {
    assert ","[..0] == [];
  }

  /** Scanning a line of readable cells gives back their contents. */
  lemma RawCells(cells: seq<Cell>)
    requires |cells| >= 1 && forall k :: 0 <= k < |cells| ==> Readable(cells[k])
    ensures Raw(Line(cells)) == Contents(cells)
  {
    RunCells(cells, []);
    ContentsSnoc(cells);
    assert [] + Contents(cells[..|cells| - 1]) == Contents(cells[..|cells| - 1]);
  }

  lemma ContentsSnoc(cells: seq<Cell>)
    requires |cells| >= 1
    ensures Contents(cells) == Contents(cells[..|cells| - 1]) + [cells[|cells| - 1].content]
  {
  }

  /**
   * A line of readable cells reads back as the cells' trimmed contents: in particular a
   * comma between double quotes does not split a value.
   */
  lemma ReadCells(cells: seq<Cell>)
    requires |cells| >= 1 && forall k :: 0 <= k < |cells| ==> Readable(cells[k])
    ensures Fields(Line(cells)) == Trimmed(cells)
  {
    RawCells(cells);
    CleanedContents(cells);
  }

  /** Cleaning quote-free contents is trimming them. */
  lemma CleanedContents(cells: seq<Cell>)
    requires forall k :: 0 <= k < |cells| ==> Readable(cells[k])
    ensures Each(Contents(cells), Clean) == Trimmed(cells)
  {
    var xs := Contents(cells);
    forall k | 0 <= k < |xs| ensures Clean(xs[k]) == Trim(xs[k]) {
      CleanOfQuoteFree(xs[k]);
    }
    EachCongruent(xs, Clean, Trim);
  }

  /** Mapping two functions that agree on every element gives the same values. */
  lemma {:induction false} EachCongruent(xs: seq<string>, f: string -> string, g: string -> string)
    requires forall k :: 0 <= k < |xs| ==> f(xs[k]) == g(xs[k])
    ensures Each(xs, f) == Each(xs, g)
    decreases |xs|
  {
    if xs != [] {
      var init := xs[..|xs| - 1];
      assert forall k :: 0 <= k < |init| ==> init[k] == xs[k];
      EachCongruent(init, f, g);
    }
  }

  /**
   * A quoted first value keeps its commas: `"Acme, Inc",acme.com` reads as the two values
   * `Acme, Inc` and `acme.com`.
   */
  lemma QuotedComma(a: string, b: string)
    requires '"' !in a && '"' !in b && ',' !in b
    ensures Fields("\"" + a + "\"," + b) == [Trim(a), Trim(b)]
  {
    var cells := [Cell(a, true), Cell(b, false)];
    assert Line(cells) == "\"" + a + "\"," + b;
    ReadCells(cells);
    EachAt(Contents(cells), Trim);
  }

  // ------------------------------------------------------------ headers

  /** `headers.findIndex(p)`. */
  function FindIndex(hs: seq<string>, p: string -> bool): (r: Option<nat>)
    ensures r.Some? ==> r.value < |hs| && p(hs[r.value])
    ensures r.None? ==> forall k :: 0 <= k < |hs| ==> !p(hs[k])
  {
    if hs == [] then None
    else if p(hs[0]) then Some(0)
    else match FindIndex(hs[1..], p)
      case None => None
      case Some(k) => Some(k + 1)
  }

  /** The index found is the first that matches. */
  lemma {:induction false} FindIndexFirst(hs: seq<string>, p: string -> bool)
    ensures FindIndex(hs, p).Some? ==> forall k :: 0 <= k < FindIndex(hs, p).value ==> !p(hs[k])
  {
    if hs != [] && !p(hs[0]) {
      FindIndexFirst(hs[1..], p);
    }
  }

  predicate IsNameHeader(h: string) {
    h == "company" || h == "company name" || h == "company_name" || h == "name"
  }

  predicate IsWebsiteHeader(h: string) {
    Contains(h, "website") || Contains(h, "url") || Contains(h, "homepage") || Contains(h, "domain")
  }

  predicate IsManualScoreHeader(h: string) {
    h == "manual score" || h == "manual_score" || h == "my score" || h == "my_score"
  }

  /** The header line split on every comma, each name trimmed, lower-cased and unquoted. */
  function Headers(line: string): (hs: seq<string>)
    ensures |hs| == |Split(line, ",")|
  {
    var raw := Split(line, ",");
    seq(|raw|, k requires 0 <= k < |raw| => StripQuotes(Lower(Trim(raw[k]))))
  }

  /** Where the name, website and manual-score columns are. */
  datatype Columns = Columns(name: Option<nat>, website: nat, manual: Option<nat>)

  // ------------------------------------------------------------ rows

  /** `values[i] || ''`. */
  function At(vs: seq<string>, i: nat): string {
    if i < |vs| then vs[i] else ""
  }

  function Capitalize(s: string): string {
    if s == [] then "" else [AsciiUpper(s[0])] + s[1..]
  }

  /**
   * A name made from the website when the row has none: the hostname's first label without
   * `www.`, capitalised; the website itself when it does not parse as a URL. The "http" test
   * is case-sensitive here.
   */
  function NameFromWebsite(website: string): string {
    var url := if StartsWith(website, "http") then website else "https://" + website;
    match Domain.Hostname(url)
    case None => website
    case Some(h) => Capitalize(Split(Domain.StripWww(h), ".")[0])
  }

  /** The scores a new company starts at 0. */
  predicate IsScoreKey(k: Key) {
    k.TotalScore? || k.ScoreA? || k.ScoreB? || k.ScoreC? || k.ScoreD? || k.ScoreE? || k.ScoreF?
  }

  /** The members a new company takes from its row, or starts in a fixed state. */
  predicate IsGivenKey(k: Key) {
    k.CompanyName? || k.Website? || k.ManualScore? || k.AccountStatus? || k.Status? || k.Error?
  }

  /** The members a data row's object has: all but the database and domain identifiers. */
  predicate IsImported(k: Key) {
    !(k.CompanyDomain? || k.DbCompanyId? || k.DbRunId?)
  }

  /** The research and scoring texts a new company starts with empty. */
  predicate IsTextKey(k: Key) {
    IsImported(k) && !IsScoreKey(k) && !IsGivenKey(k)
  }

  /** The value a data row's object starts with for `k`. */
  function Initial(k: Key, name: string, website: string, manual: string): Value {
    match k
    case CompanyName => Str(name)
    case Website => Str(website)
    case ManualScore => Str(manual)
    case AccountStatus => Str("Cold")
    case Status => Str("pending")
    case Error => Null
    case TotalScore | ScoreA | ScoreB | ScoreC | ScoreD | ScoreE | ScoreF => Num(0)
    case _ => Str("")
  }

  /** The object a data row becomes: pending, cold, unscored, with empty research fields. */
  function NewCompany(name: string, website: string, manual: string): Company {
    map k: Key | IsImported(k) :: Initial(k, name, website, manual)
  }

  /** The name a row gets: its name cell when that is not empty, otherwise one made from the website. */
  function NameOf(vs: seq<string>, cols: Columns, website: string): string {
    var given := if cols.name.Some? then Trim(At(vs, cols.name.value)) else "";
    if given != "" then given else NameFromWebsite(website)
  }

  /** The company of a line's values, unless its website cell is empty. */
  function RowFrom(vs: seq<string>, cols: Columns): seq<Company> {
    var website := Trim(At(vs, cols.website));
    if website == "" then []
    else [NewCompany(NameOf(vs, cols, website), website, ManualOf(vs, cols))]
  }

  /** What one data line gives: nothing for a blank line or an empty website, else one company. */
  function RowOf(line: string, cols: Columns): seq<Company> {
    if Trim(line) == "" then [] else RowFrom(Fields(line), cols)
  }

  /** The rows of the lines, in order, each line giving `row(line)`. */
  function Concat(lines: seq<string>, row: string -> seq<Company>): seq<Company>
    decreases |lines|
  {
    if lines == [] then [] else Concat(lines[..|lines| - 1], row) + row(lines[|lines| - 1])
  }

  lemma ConcatSnoc(lines: seq<string>, line: string, row: string -> seq<Company>)
    ensures Concat(lines + [line], row) == Concat(lines, row) + row(line)
  {
    assert (lines + [line])[..|lines|] == lines;
  }

  /** When every line gives at most one row, and each satisfies `p`, so does every collected row. */
  lemma {:induction false} ConcatAll(lines: seq<string>, row: string -> seq<Company>, p: Company -> bool)
    requires forall line :: |row(line)| <= 1 && (row(line) != [] ==> p(row(line)[0]))
    ensures |Concat(lines, row)| <= |lines|
    ensures forall c :: c in Concat(lines, row) ==> p(c)
    decreases |lines|
  {
    if lines != [] {
      var init, last := lines[..|lines| - 1], lines[|lines| - 1];
      ConcatAll(init, row, p);
      assert Concat(lines, row) == Concat(init, row) + row(last);
    }
  }

  /** The companies of the data lines, in order. */
  function RowsOf(lines: seq<string>, cols: Columns): seq<Company> {
    Concat(lines, line => RowOf(line, cols))
  }

  /** One more data line adds its own companies after those of the lines before it. */
  lemma RowsOfSnoc(lines: seq<string>, i: nat, cols: Columns)
    requires 1 <= i < |lines|
    ensures RowsOf(lines[1..i + 1], cols) == RowsOf(lines[1..i], cols) + RowOf(lines[i], cols)
  {
    assert lines[1..i + 1] == lines[1..i] + [lines[i]];
    ConcatSnoc(lines[1..i], lines[i], line => RowOf(line, cols));
  }

  const NoWebsiteColumn: string := "CSV must have a Website/URL column."

  function ColumnsOf(hs: seq<string>, website: nat): Columns {
    Columns(FindIndex(hs, IsNameHeader), website, FindIndex(hs, IsManualScoreHeader))
  }

  /** The column names: the first line of the trimmed text. */
  function HeaderNames(text: string): seq<string> {
    Headers(Split(Trim(text), "\n")[0])
  }

  /** What `parseCSV` returns, or the error it throws. */
  function Import(text: string): Result<seq<Company>, string> {
    var lines := Split(Trim(text), "\n");
    var hs := HeaderNames(text);
    match FindIndex(hs, IsWebsiteHeader)
    case None => Err(NoWebsiteColumn)
    case Some(w) => Ok(RowsOf(lines[1..], ColumnsOf(hs, w)))
  }

  /** The body of `parseCSV`'s loop for one data line: what it pushes. */
  method ReadRow(line: string, cols: Columns) returns (row: seq<Company>)
    ensures row == RowOf(line, cols)
  {
    if Trim(line) == "" {
      return [];
    }
    var values := SplitLine(line);
    var website := Trim(At(values, cols.website));
    if website == "" {
      return [];
    }
    var companyName := if cols.name.Some? then Trim(At(values, cols.name.value)) else "";
    if companyName == "" {
      companyName := NameFromWebsite(website);
    }
    var manual := if cols.manual.Some? then Trim(At(values, cols.manual.value)) else "";
    RowFromKept(values, cols, website);
    row := [NewCompany(companyName, website, manual)];
  }

  /** `parseCSV`'s loop over the data lines, those after the header line. */
  method ReadRows(lines: seq<string>, cols: Columns) returns (results: seq<Company>)
    requires |lines| >= 1
    ensures results == RowsOf(lines[1..], cols)
  {
    results := [];
    var i := 1;
    while i < |lines|
      invariant 1 <= i <= |lines|
      invariant results == RowsOf(lines[1..i], cols)
    {
      var row := ReadRow(lines[i], cols);
      RowsOfSnoc(lines, i, cols);
      results := results + row;
      i := i + 1;
    }
    assert lines[1..i] == lines[1..];
  }

  /** `parseCSV`: the companies of the uploaded text, or the error it throws. */
  method ParseCsv(text: string) returns (r: Result<seq<Company>, string>)
    ensures r == Import(text)
  {
    var lines := Split(Trim(text), "\n");
    var hs := Headers(lines[0]);
    var websiteIdx := FindIndex(hs, IsWebsiteHeader);
    if websiteIdx.None? {
      return Err(NoWebsiteColumn);
    }
    var results := ReadRows(lines, ColumnsOf(hs, websiteIdx.value));
    return Ok(results);
  }

  // ------------------------------------------------------------ properties

  /** The import fails exactly when no header names a website, URL, homepage or domain column. */
  lemma FailsWithoutWebsite(text: string)
    ensures Import(text).Err? <==> forall k :: 0 <= k < |HeaderNames(text)| ==> !IsWebsiteHeader(HeaderNames(text)[k])
    ensures Import(text).Err? ==> Import(text).error == NoWebsiteColumn
  {
  }

  /** A new company is pending and cold, with the name and website it was read with. */
  lemma NewCompanyState(name: string, website: string, manual: string)
    ensures var c := NewCompany(name, website, manual);
      && StatusOf(c) == "pending" && Member(c, AccountStatus) == "Cold"
      && Member(c, Website) == website && Member(c, CompanyName) == name && Member(c, ManualScore) == manual
  {
  }

  /** Every score is present and 0. */
  predicate Unscored(c: Company) {
    forall k :: IsScoreKey(k) ==> k in c && c[k] == Num(0)
  }

  /** A new company has every score 0. */
  lemma NewCompanyUnscored(name: string, website: string, manual: string)
    ensures Unscored(NewCompany(name, website, manual))
  {
  }

  /** A new company has every research and scoring text empty. */
  lemma NewCompanyBlank(name: string, website: string, manual: string)
    ensures var c := NewCompany(name, website, manual);
      forall k :: IsTextKey(k) ==> Member(c, k) == ""
  {
  }

  /** Not empty, and neither starting nor ending with white space: what `trim()` leaves of a non-blank text. */
  predicate Tidy(w: string) {
    w != [] && !IsSpace(w[0]) && !IsSpace(w[|w| - 1])
  }

  /** The company a kept line gives: a non-empty, trimmed website, and pending and unscored. */
  predicate Fresh(c: Company) {
    && StatusOf(c) == "pending" && Member(c, AccountStatus) == "Cold"
    && Tidy(Member(c, Website)) && Unscored(c)
  }

  lemma NewCompanyFresh(name: string, website: string, manual: string)
    requires Tidy(website)
    ensures Fresh(NewCompany(name, website, manual))
  {
    NewCompanyState(name, website, manual);
    NewCompanyUnscored(name, website, manual);
  }

  function ManualOf(vs: seq<string>, cols: Columns): string {
    if cols.manual.Some? then Trim(At(vs, cols.manual.value)) else ""
  }

  /** The company of values whose website cell is not empty. */
  lemma RowFromKept(vs: seq<string>, cols: Columns, website: string)
    requires website == Trim(At(vs, cols.website)) && website != ""
    ensures RowFrom(vs, cols) == [NewCompany(NameOf(vs, cols, website), website, ManualOf(vs, cols))]
  {
  }

  lemma RowFromFresh(vs: seq<string>, cols: Columns)
    ensures |RowFrom(vs, cols)| <= 1
    ensures RowFrom(vs, cols) != [] ==> Fresh(RowFrom(vs, cols)[0])
  {
    if Trim(At(vs, cols.website)) != "" {
      KeptRowFresh(vs, cols);
    }
  }

  /** The company of a line whose website cell is not blank is fresh. */
  lemma KeptRowFresh(vs: seq<string>, cols: Columns)
    requires Trim(At(vs, cols.website)) != ""
    ensures |RowFrom(vs, cols)| == 1 && Fresh(RowFrom(vs, cols)[0])
  {
    var website := Trim(At(vs, cols.website));
    var name, manual := NameOf(vs, cols, website), ManualOf(vs, cols);
    NewCompanyFresh(name, website, manual);
    RowFromKept(vs, cols, website);
  }

  lemma RowOfFresh(line: string, cols: Columns)
    ensures |RowOf(line, cols)| <= 1
    ensures RowOf(line, cols) != [] ==> Fresh(RowOf(line, cols)[0])
  {
    if Trim(line) != "" {
      RowFromFresh(Fields(line), cols);
    }
  }

  /** Every imported company is fresh, and there are no more companies than data lines. */
  lemma RowsFresh(lines: seq<string>, cols: Columns)
    ensures |RowsOf(lines, cols)| <= |lines|
    ensures forall c :: c in RowsOf(lines, cols) ==> Fresh(c)
  {
    var row := line => RowOf(line, cols);
    forall line ensures |row(line)| <= 1 && (row(line) != [] ==> Fresh(row(line)[0])) {
      RowOfFresh(line, cols);
    }
    ConcatAll(lines, row, c => Fresh(c));
  }

  /** A blank line, or one whose website cell is empty, adds no company. */
  lemma SkippedLine(lines: seq<string>, line: string, cols: Columns)
    requires Trim(line) == "" || Trim(At(Fields(line), cols.website)) == ""
    ensures RowsOf(lines + [line], cols) == RowsOf(lines, cols)
  {
    ConcatSnoc(lines, line, l => RowOf(l, cols));
  }

  /** A non-empty name cell names the company; otherwise the website gives the name. */
  lemma NameOfRow(line: string, cols: Columns)
    requires RowOf(line, cols) != []
    ensures var vs := Fields(line);
      var given := if cols.name.Some? then Trim(At(vs, cols.name.value)) else "";
      Member(RowOf(line, cols)[0], CompanyName) == if given != "" then given else NameFromWebsite(Trim(At(vs, cols.website)))
  {
    var vs := Fields(line);
    var website := Trim(At(vs, cols.website));
    RowFromKept(vs, cols, website);
    NewCompanyState(NameOf(vs, cols, website), website, ManualOf(vs, cols));
  }
}
