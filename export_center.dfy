/** The advanced export centre: the CSV and Excel texts built line by line,
    the PDF summary and the vertical placement of its transaction lines,
    and the choice of generator and file name by format. */
module ExportCenter {
  import opened Wrappers
  import opened Ledger

  /** A fetched transaction as the text exports print it: every field is the
      text the template literal inserts, and a missing category is empty. */
  datatype Row = Row(date: string, description: string, amount: string, kind: string, category: string)

  const CsvHeader: string := "Date,Description,Montant,Type\n"
  const ExcelHeader: string := "Date,Description,Montant,Type,Catégorie\n"

  /** `transaction.category || 'N/A'`. */
  function CategoryText(category: string): (r: string)
    ensures category == "" ==> r == "N/A"
    ensures category != "" ==> r == category
  {
    if category == "" then "N/A" else category
  }

  /** One CSV line without its terminator; the description is quoted as is. */
  function CsvFields(r: Row): string {
    r.date + "," + "\"" + r.description + "\"" + "," + r.amount + "," + r.kind
  }

  /** One Excel line without its terminator: the CSV fields and the quoted category. */
  function ExcelFields(r: Row): string {
    CsvFields(r) + "," + "\"" + CategoryText(r.category) + "\""
  }

  /** The lines joined, each followed by a line feed. */
  function Join(lines: seq<string>): string {
    if lines == [] then "" else Join(lines[..|lines| - 1]) + lines[|lines| - 1] + "\n"
  }

  function CsvLines(rows: seq<Row>): (ls: seq<string>)
    ensures |ls| == |rows| && forall i :: 0 <= i < |rows| ==> ls[i] == CsvFields(rows[i])
  {
    seq(|rows|, i requires 0 <= i < |rows| => CsvFields(rows[i]))
  }

  function ExcelLines(rows: seq<Row>): (ls: seq<string>)
    ensures |ls| == |rows| && forall i :: 0 <= i < |rows| ==> ls[i] == ExcelFields(rows[i])
  {
    seq(|rows|, i requires 0 <= i < |rows| => ExcelFields(rows[i]))
  }

  /** The Excel lines, each followed by a line feed. */
  function ExcelBody(rows: seq<Row>): string {
    if rows == [] then "" else ExcelBody(rows[..|rows| - 1]) + ExcelFields(rows[|rows| - 1]) + "\n"
  }

  /** The CSV text: the header, then one line per fetched transaction in
      order; without fetched data only the header. */
  function CsvText(data: Option<seq<Row>>): string {
    CsvHeader + (if data.Some? then Join(CsvLines(data.value)) else "")
  }

  function ExcelText(data: Option<seq<Row>>): string {
    ExcelHeader + (if data.Some? then ExcelBody(data.value) else "")
  }

  /** `generateCSV`: start from the header and append one line per row. */
  method GenerateCsv(data: Option<seq<Row>>) returns (csv: string)
    ensures csv == CsvText(data)
  {
    csv := CsvHeader;
    if data.Some? {
      var rows := data.value;
      var i := 0;
      while i < |rows|
        invariant 0 <= i <= |rows|
        invariant csv == CsvText(Some(rows[..i]))
      {
        CsvTextStep(rows, i);
        csv := csv + CsvFields(rows[i]) + "\n";
        i := i + 1;
      }
      assert rows[..i] == rows;
    }
  }

  /** `generateExcel`: the same loop with the category column. */
  method GenerateExcel(data: Option<seq<Row>>) returns (csv: string)
    ensures csv == ExcelText(data)
  {
    csv := ExcelHeader;
    if data.Some? {
      var rows := data.value;
      var i := 0;
      while i < |rows|
        invariant 0 <= i <= |rows|
        invariant csv == ExcelText(Some(rows[..i]))
      {
        ExcelTextStep(rows, i);
        csv := csv + ExcelFields(rows[i]) + "\n";
        i := i + 1;
      }
      assert rows[..i] == rows;
    }
  }

  /** One more row adds its line to the CSV text. */
  lemma CsvTextStep(rows: seq<Row>, i: nat)
    requires i < |rows|
    ensures CsvText(Some(rows[..i + 1])) == CsvText(Some(rows[..i])) + CsvFields(rows[i]) + "\n"
  {
    assert CsvLines(rows[..i + 1])[..i] == CsvLines(rows[..i]);
  }

  /** One more row adds its line to the Excel text. */
  lemma ExcelTextStep(rows: seq<Row>, i: nat)
    requires i < |rows|
    ensures ExcelText(Some(rows[..i + 1])) == ExcelText(Some(rows[..i])) + ExcelFields(rows[i]) + "\n"
  {
    assert rows[..i + 1][..i] == rows[..i];
  }

  // ---------------------------------------------------------------------
  // Reading the text back

  /** The first position at or after `from` holding `c`, or -1. */
  function FirstIndex(s: string, c: char, from: nat): (r: int)
    ensures r == -1 <==> forall k :: from <= k < |s| ==> s[k] != c
    ensures r != -1 ==> from <= r < |s| && s[r] == c && forall k :: from <= k < r ==> s[k] != c
    decreases |s| - from
  {
    if from >= |s| then -1 else if s[from] == c then from else FirstIndex(s, c, from + 1)
  }

  /** Cut the text into lines at each line feed; a final line without a
      terminator is kept. */
  function SplitLines(s: string): seq<string>
    decreases |s|
  {
    if s == [] then []
    else
      var i := FirstIndex(s, '\n', 0);
      if i == -1 then [s] else [s[..i]] + SplitLines(s[i + 1..])
  }

  predicate Free(s: string, c: char) {
    forall k :: 0 <= k < |s| ==> s[k] != c
  }

  /** The first index of `c` in `a + [c] + b`, when `a` has none, is `|a|`. */
  lemma FirstIndexAfter(a: string, c: char, b: string)
    requires Free(a, c)
    ensures FirstIndex(a + [c] + b, c, 0) == |a|
  {
    var s := a + [c] + b;
    assert s[|a|] == c;
    assert forall k :: 0 <= k < |a| ==> s[k] == a[k];
  }

  lemma {:induction false} JoinFront(lines: seq<string>)
    requires lines != []
    ensures Join(lines) == lines[0] + "\n" + Join(lines[1..])
  {
    if |lines| > 1 {
      var init, rest, last := lines[..|lines| - 1], lines[1..], lines[|lines| - 1];
      JoinFront(init);
      assert init[0] == lines[0];
      assert rest[..|rest| - 1] == init[1..] && rest[|rest| - 1] == last;
      calc {
        Join(lines);
        Join(init) + last + "\n";
        (lines[0] + "\n" + Join(init[1..])) + last + "\n";
        lines[0] + "\n" + (Join(init[1..]) + last + "\n");
        lines[0] + "\n" + Join(rest);
      }
    } else {
      assert lines[1..] == [];
    }
  }

  /** Splitting the joined lines gives them back when none holds a line feed. */
  lemma {:induction false} SplitJoin(lines: seq<string>)
    requires forall i :: 0 <= i < |lines| ==> Free(lines[i], '\n')
    ensures SplitLines(Join(lines)) == lines
    decreases |lines|
  {
    if lines != [] {
      JoinFront(lines);
      var s := Join(lines);
      FirstIndexAfter(lines[0], '\n', Join(lines[1..]));
      assert s[|lines[0]| + 1..] == Join(lines[1..]);
      assert s[..|lines[0]|] == lines[0];
      SplitJoin(lines[1..]);
    }
  }

  /** What reading back needs: no field holds a line feed, the date and the
      amount hold no comma, and the quoted description holds no quote. */
  predicate Printable(r: Row) {
    && Free(r.date, ',') && Free(r.date, '\n')
    && Free(r.description, '"') && Free(r.description, '\n')
    && Free(r.amount, ',') && Free(r.amount, '\n')
    && Free(r.kind, '\n')
  }

  /** Read one CSV line: a date up to the first comma, then the rest. */
  function ParseCsvLine(line: string): Option<Row> {
    var i := FirstIndex(line, ',', 0);
    if i == -1 then None else ParseQuoted(line[..i], line[i + 1..])
  }

  /** A description between quotes, then the rest. */
  function ParseQuoted(date: string, s: string): Option<Row> {
    if s == [] || s[0] != '"' then None
    else
      var j := FirstIndex(s[1..], '"', 0);
      if j == -1 then None else ParseTail(date, s[1..][..j], s[1..][j + 1..])
  }

  /** A comma, an amount up to the next comma, and the type. */
  function ParseTail(date: string, description: string, s: string): (r: Option<Row>)
    ensures r.Some? ==> r.value.date == date && r.value.description == description
  {
    if s == [] || s[0] != ',' then None
    else
      var k := FirstIndex(s[1..], ',', 0);
      if k == -1 then None else Some(Row(date, description, s[1..][..k], s[1..][k + 1..], ""))
  }

  lemma ParseTailRoundTrip(date: string, description: string, amount: string, kind: string)
    requires Free(amount, ',')
    ensures ParseTail(date, description, "," + amount + "," + kind) == Some(Row(date, description, amount, kind, ""))
  {
    var s := "," + amount + "," + kind;
    var t := amount + [','] + kind;
    assert s[1..] == t;
    FirstIndexAfter(amount, ',', kind);
    assert t[..|amount|] == amount;
    assert t[|amount| + 1..] == kind;
  }

  lemma ParseQuotedRoundTrip(date: string, description: string, rest: string)
    requires Free(description, '"')
    ensures ParseQuoted(date, "\"" + description + "\"" + rest) == ParseTail(date, description, rest)
  {
    var s := "\"" + description + "\"" + rest;
    var t := description + ['"'] + rest;
    assert s[1..] == t;
    FirstIndexAfter(description, '"', rest);
    assert t[..|description|] == description;
    assert t[|description| + 1..] == rest;
  }

  lemma ParseLineRoundTrip(date: string, rest: string)
    requires Free(date, ',')
    ensures ParseCsvLine(date + "," + rest) == ParseQuoted(date, rest)
  {
    var line := date + [','] + rest;
    assert date + "," + rest == line;
    FirstIndexAfter(date, ',', rest);
    assert line[..|date|] == date;
    assert line[|date| + 1..] == rest;
  }

  /** A printable row reads back from its CSV line, category aside. */
  lemma ParseCsvLineRoundTrip(r: Row)
    requires Printable(r)
    ensures ParseCsvLine(CsvFields(r)) == Some(r.(category := ""))
  {
    var tail := "," + r.amount + "," + r.kind;
    var quoted := "\"" + r.description + "\"" + tail;
    assert CsvFields(r) == r.date + "," + quoted;
    ParseLineRoundTrip(r.date, quoted);
    ParseQuotedRoundTrip(r.date, r.description, tail);
    ParseTailRoundTrip(r.date, r.description, r.amount, r.kind);
  }

  lemma CsvFieldsFree(r: Row)
    requires Printable(r)
    ensures Free(CsvFields(r), '\n')
  {
  }

  /** The header without its line feed. */
  function CsvHeaderLine(): (h: string)
    ensures CsvHeader == h + "\n" && Free(h, '\n')
  {
    "Date,Description,Montant,Type"
  }

  lemma CsvTextHeaded(rows: seq<Row>)
    ensures CsvText(Some(rows)) == CsvHeaderLine() + "\n" + Join(CsvLines(rows))
  {
    var h := CsvHeaderLine();
    calc {
      CsvText(Some(rows));
      CsvHeader + Join(CsvLines(rows));
      (h + "\n") + Join(CsvLines(rows));
    }
  }

  /** A header line in front of joined lines is one more joined line. */
  lemma JoinHeaded(head: string, ls: seq<string>)
    ensures head + "\n" + Join(ls) == Join([head] + ls)
  {
    var all := [head] + ls;
    JoinFront(all);
    assert all[0] == head && all[1..] == ls;
  }

  /** A header and lines free of line feeds, joined and cut again, come back. */
  lemma SplitHeaded(head: string, ls: seq<string>)
    requires Free(head, '\n')
    requires forall i :: 0 <= i < |ls| ==> Free(ls[i], '\n')
    ensures SplitLines(head + "\n" + Join(ls)) == [head] + ls
  {
    var all := [head] + ls;
    forall i | 0 <= i < |all| ensures Free(all[i], '\n') {
      if i > 0 {
        assert all[i] == ls[i - 1];
      }
    }
    JoinHeaded(head, ls);
    SplitJoin(all);
  }

  /** Cut into lines and read back, the CSV text of printable rows is the
      header followed by the rows, categories aside: `n + 1` lines. */
  lemma CsvRoundTrip(rows: seq<Row>)
    requires forall i :: 0 <= i < |rows| ==> Printable(rows[i])
    ensures var lines := SplitLines(CsvText(Some(rows)));
      && |lines| == |rows| + 1
      && lines[0] == CsvHeaderLine()
      && forall i :: 0 <= i < |rows| ==> ParseCsvLine(lines[i + 1]) == Some(rows[i].(category := ""))
  {
    var body := CsvLines(rows);
    forall i | 0 <= i < |body| ensures Free(body[i], '\n') {
      CsvFieldsFree(rows[i]);
    }
    CsvTextHeaded(rows);
    SplitHeaded(CsvHeaderLine(), body);
    var lines := [CsvHeaderLine()] + body;
    forall i | 0 <= i < |rows| ensures ParseCsvLine(lines[i + 1]) == Some(rows[i].(category := "")) {
      assert lines[i + 1] == CsvFields(rows[i]);
      ParseCsvLineRoundTrip(rows[i]);
    }
  }

  lemma ExcelFieldsFree(r: Row)
    requires Printable(r) && Free(r.category, '\n')
    ensures Free(ExcelFields(r), '\n')
  {
    CsvFieldsFree(r);
  }

  lemma {:induction false} ExcelBodyIsJoin(rows: seq<Row>)
    ensures ExcelBody(rows) == Join(ExcelLines(rows))
  {
    if rows != [] {
      ExcelBodyIsJoin(rows[..|rows| - 1]);
      assert ExcelLines(rows)[..|rows| - 1] == ExcelLines(rows[..|rows| - 1]);
    }
  }

  /** The Excel text is its header line and its row lines, each followed
      by a line feed. */
  lemma ExcelTextIsJoin(rows: seq<Row>)
    ensures ExcelText(Some(rows)) == Join([ExcelHeaderLine()] + ExcelLines(rows))
  {
    ExcelTextHeaded(rows);
    ExcelBodyIsJoin(rows);
    JoinHeaded(ExcelHeaderLine(), ExcelLines(rows));
  }

  /** The header without its line feed. */
  function ExcelHeaderLine(): (h: string)
    ensures ExcelHeader == h + "\n" && Free(h, '\n')
  {
    "Date,Description,Montant,Type,Catégorie"
  }

  lemma ExcelTextHeaded(rows: seq<Row>)
    ensures ExcelText(Some(rows)) == ExcelHeaderLine() + "\n" + ExcelBody(rows)
  {
    var h := ExcelHeaderLine();
    calc {
      ExcelText(Some(rows));
      ExcelHeader + ExcelBody(rows);
      (h + "\n") + ExcelBody(rows);
    }
  }

  /** Any header free of line feeds, then printable rows, cut back into
      the header and the row lines. */
  lemma HeadedSplit(head: string, rows: seq<Row>)
    requires Free(head, '\n')
    requires forall i :: 0 <= i < |rows| ==> Printable(rows[i]) && Free(rows[i].category, '\n')
    ensures SplitLines(head + "\n" + ExcelBody(rows)) == [head] + ExcelLines(rows)
  {
    var body := ExcelLines(rows);
    forall i | 0 <= i < |body| ensures Free(body[i], '\n') {
      ExcelFieldsFree(rows[i]);
    }
    ExcelBodyIsJoin(rows);
    SplitHeaded(head, body);
  }

  /** The Excel text cut into lines is its header and then one line per
      row, each ending in the quoted category or `"N/A"`. */
  lemma ExcelLineStructure(rows: seq<Row>)
    requires forall i :: 0 <= i < |rows| ==> Printable(rows[i]) && Free(rows[i].category, '\n')
    ensures SplitLines(ExcelText(Some(rows))) == [ExcelHeaderLine()] + ExcelLines(rows)
  {
    ExcelTextHeaded(rows);
    HeadedSplit(ExcelHeaderLine(), rows);
  }

  /** Without fetched data each text is its header alone, one line. */
  lemma NoDataHeaderOnly()
    ensures CsvText(None) == CsvHeader && ExcelText(None) == ExcelHeader
    ensures SplitLines(CsvText(None)) == [CsvHeaderLine()]
    ensures SplitLines(ExcelText(None)) == [ExcelHeaderLine()]
  {
    SplitHeaded(CsvHeaderLine(), []);
    SplitHeaded(ExcelHeaderLine(), []);
  }

  /** A quote inside a description is written unescaped, so that row does
      not read back: the line ends its description at the first inner quote. */
  lemma EmbeddedQuoteBreaksRoundTrip(r: Row)
    requires Free(r.date, ',') && '"' in r.description
    ensures ParseCsvLine(CsvFields(r)) != Some(r)
  {
    var tail := "," + r.amount + "," + r.kind;
    var quoted := "\"" + r.description + "\"" + tail;
    assert CsvFields(r) == r.date + "," + quoted;
    ParseLineRoundTrip(r.date, quoted);
    ParseQuotedStopsEarly(r.date, r.description, tail);
  }

  /** The quoted description is cut at its first inner quote. */
  lemma ParseQuotedStopsEarly(date: string, description: string, rest: string)
    requires '"' in description
    ensures var p := ParseQuoted(date, "\"" + description + "\"" + rest);
      p.Some? ==> |p.value.description| < |description|
  {
    var s := "\"" + description + "\"" + rest;
    var t := description + ['"'] + rest;
    assert s[1..] == t;
    var k :| 0 <= k < |description| && description[k] == '"';
    FirstIndexAtMost(t, '"', k);
  }

  /** The first occurrence comes no later than any occurrence. */
  lemma FirstIndexAtMost(s: string, c: char, k: nat)
    requires k < |s| && s[k] == c
    ensures 0 <= FirstIndex(s, c, 0) <= k
  {
  }

  // ---------------------------------------------------------------------
  // PDF

  datatype Summary = Summary(income: real, expenses: real, net: real)

  /** The summary block: income and expenses over every fetched transaction
      (the chosen date range is not applied) and their difference. */
  function PdfSummary(ts: seq<Transaction>): (s: Summary)
    ensures s.net == s.income - s.expenses
    ensures s.income == TotalIncome(ts) && s.expenses == TotalExpenses(ts)
  {
    var income := TotalIncome(ts);
    var expenses := TotalExpenses(ts);
    Summary(income, expenses, income - expenses)
  }

  /** Where the transactions block starts: 70, moved down 60 by the summary. */
  function SectionStart(includeSummary: bool): int {
    if includeSummary then 130 else 70
  }

  /** `generatePDF`'s placement of the transaction lines: the vertical
      position of each of the first ten, and the number of pages added. */
  method PdfLayout(includeSummary: bool, includeTransactions: bool, hasData: bool, count: nat)
    returns (ys: seq<int>, pagesAdded: int)
    ensures !(includeTransactions && hasData) ==> ys == []
    ensures includeTransactions && hasData ==>
      |ys| == (if count < 10 then count else 10)
      && forall k :: 0 <= k < |ys| ==> ys[k] == SectionStart(includeSummary) + 20 + 8 * k
    ensures forall k :: 0 <= k < |ys| ==> 30 <= ys[k] <= 250
    ensures pagesAdded == 0
  {
    ys := [];
    pagesAdded := 0;
    var y := 70;
    if includeSummary && hasData {
      y := y + 20;
      y := y + 10;
      y := y + 10;
      y := y + 20;
    }
    if includeTransactions && hasData {
      y := y + 20;
      var n := if count < 10 then count else 10;
      var i := 0;
      while i < n
        invariant 0 <= i <= n
        invariant y == SectionStart(includeSummary) + 20 + 8 * i
        invariant pagesAdded == 0
        invariant |ys| == i && forall k :: 0 <= k < i ==> ys[k] == SectionStart(includeSummary) + 20 + 8 * k
      {
        if y > 250 {
          pagesAdded := pagesAdded + 1;
          y := 30;
        }
        ys := ys + [y];
        y := y + 8;
        i := i + 1;
      }
    }
  }

  // ---------------------------------------------------------------------
  // Format switch

  datatype Format = Pdf | Image | Excel | Csv | Print

  function FormatId(f: Format): string {
    match f
    case Pdf => "pdf"
    case Image => "image"
    case Excel => "excel"
    case Csv => "csv"
    case Print => "print"
  }

  /** What the generator produced: the rendered document or image are
      outside the model, the two text formats are their text. */
  datatype Payload = PdfDocument | PngImage | Text(content: string)

  datatype Export = Export(filename: string, payload: Payload)

  /** `financial-report-<date>.<format id>`. */
  function Filename(date: string, f: Format): string {
    "financial-report-" + date + "." + FormatId(f)
  }

  /** The export mutation: pick the generator by format and name the file;
      any other format is refused with the error message. */
  function ExportReport(f: Format, date: string, data: Option<seq<Row>>): (r: Result<Export, string>)
    ensures r.Err? <==> f == Print
    ensures r.Err? ==> r.error == "Format non supporté"
    ensures r.Ok? ==> r.value.filename == Filename(date, f)
    ensures f == Csv ==> r == Ok(Export(Filename(date, f), Text(CsvText(data))))
    ensures f == Excel ==> r == Ok(Export(Filename(date, f), Text(ExcelText(data))))
  {
    match f
    case Pdf => Ok(Export(Filename(date, f), PdfDocument))
    case Image => Ok(Export(Filename(date, f), PngImage))
    case Excel => Ok(Export(Filename(date, f), Text(ExcelText(data))))
    case Csv => Ok(Export(Filename(date, f), Text(CsvText(data))))
    case Print => Err("Format non supporté")
  }

  /** The extension is the format id verbatim, so an Excel export ends in
      `.excel`, and distinct formats give distinct names. */
  lemma FilenameExtension(date: string, f: Format, g: Format)
    ensures Filename(date, Excel) == "financial-report-" + date + ".excel"
    ensures f != g ==> Filename(date, f) != Filename(date, g)
  {
    var pre := "financial-report-" + date + ".";
    if Filename(date, f) == Filename(date, g) {
      assert Filename(date, f)[|pre|..] == FormatId(f);
      assert Filename(date, g)[|pre|..] == FormatId(g);
      FormatIdInjective(f, g);
    }
  }

  lemma FormatIdInjective(f: Format, g: Format)
    requires FormatId(f) == FormatId(g)
    ensures f == g
  {
  }
}
