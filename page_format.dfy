/** formatPageData of server/src/services/claude.ts: the page snapshot
    rendered as the Markdown block that precedes the user's question. The
    block is specified as a sequence of lines (`Lines`) and their text
    (`Render`); `FormatPageData` builds the same string by appending. */
module PageFormat {
  import opened Strings
  import opened PageTypes

  function Min(a: nat, b: nat): nat { if a <= b then a else b }

  /** At most this many rows of each table are printed. */
  const MAX_TABLE_ROWS: nat := 20
  /** At most this many metrics are considered. */
  const MAX_METRICS: nat := 50

  datatype Section = TextsSection | TablesSection | MetricsSection | ChartsSection

  function SectionName(s: Section): string {
    match s
    case TextsSection => "Заголовки"
    case TablesSection => "Таблицы"
    case MetricsSection => "Метрики"
    case ChartsSection => "Графики"
  }

  /** One line of the prompt block, by what it shows. */
  datatype Line =
    | PageHeading
    | UrlLine(url: string)
    | TitleLine(title: string)
    | TimeLine(time: string)
    | Blank
    | SectionTitle(section: Section)
    | TextLine(kind: string, content: string)
    | TableTitle(number: nat)
    | HeaderLine(headers: seq<string>)
    | DataTitle
    | RowLine(cells: seq<string>)
    | MoreRows(count: nat)
    | MetricLine(text: string)
    | ChartLine(number: nat, ariaLabel: string, title: string, legend: string)

  /** The text of a line, without its terminating "\n". */
  function LineText(l: Line): string {
    match l
    case PageHeading => "## Данные со страницы Ozon"
    case UrlLine(u) => "**URL:** " + u
    case TitleLine(t) => "**Заголовок:** " + t
    case TimeLine(t) => "**Время:** " + t
    case Blank => ""
    case SectionTitle(s) => "### " + SectionName(s) + ":"
    case TextLine(k, c) => "- " + k + ": " + c
    case TableTitle(n) => "**Таблица " + NatToString(n) + ":**"
    case HeaderLine(h) => "Заголовки: " + Join(h, " | ")
    case DataTitle => "Данные:"
    case RowLine(cells) => "  " + Join(cells, " | ")
    case MoreRows(k) => "  ... и ещё " + NatToString(k) + " строк"
    case MetricLine(t) => "- " + t
    case ChartLine(n, a, t, g) => ChartText(n, a, t, g)
  }

  function ChartText(n: nat, ariaLabel: string, title: string, legend: string): string {
    "- График " + NatToString(n) + ":"
    + (if ariaLabel != "" then " " + ariaLabel else "")
    + (if title != "" then " " + title else "")
    + (if legend != "" then " (" + legend + ")" else "")
  }

  /** Each item's text followed by "\n". */
  function RenderBy<T>(xs: seq<T>, text: T -> string): string
    decreases |xs|
  {
    if xs == [] then "" else RenderBy(xs[..|xs| - 1], text) + text(xs[|xs| - 1]) + "\n"
  }

  lemma RenderBySnoc<T>(xs: seq<T>, x: T, text: T -> string)
    ensures RenderBy(xs + [x], text) == RenderBy(xs, text) + text(x) + "\n"
  {
    assert (xs + [x])[..|xs|] == xs;
  }

  lemma {:induction false} RenderByAppend<T>(a: seq<T>, b: seq<T>, text: T -> string)
    ensures RenderBy(a + b, text) == RenderBy(a, text) + RenderBy(b, text)
    decreases |b|
  {
    if b == [] {
      assert a + b == a;
    } else {
      var b' := b[..|b| - 1];
      assert a + b == (a + b') + [b[|b| - 1]];
      assert b == b' + [b[|b| - 1]];
      RenderByAppend(a, b', text);
      RenderBySnoc(a + b', b[|b| - 1], text);
      RenderBySnoc(b', b[|b| - 1], text);
    }
  }

  lemma ConcatAssoc<T>(a: seq<T>, b: seq<T>, c: seq<T>)
    ensures a + b + c == a + (b + c)
  {
  }

  /** The lines, each followed by "\n". */
  function Render(ls: seq<Line>): string {
    RenderBy(ls, LineText)
  }

  lemma RenderSnoc(ls: seq<Line>, l: Line)
    ensures Render(ls + [l]) == Render(ls) + LineText(l) + "\n"
  {
    RenderBySnoc(ls, l, LineText);
  }

  lemma RenderAppend(a: seq<Line>, b: seq<Line>)
    ensures Render(a + b) == Render(a) + Render(b)
  {
    RenderByAppend(a, b, LineText);
  }

  lemma RenderOne(l: Line)
    ensures Render([l]) == LineText(l) + "\n"
  {
    RenderSnoc([], l);
    assert [] + [l] == [l];
  }

  function Preamble(p: PageData): seq<Line> {
    [PageHeading, Blank, UrlLine(p.url), TitleLine(p.pageTitle), TimeLine(p.timestamp), Blank]
  }

  function TextLines(ts: seq<TextData>): (r: seq<Line>)
    ensures |r| == |ts|
    ensures forall k :: 0 <= k < |ts| ==> r[k] == TextLine(ts[k].kind, ts[k].content)
  {
    seq(|ts|, k requires 0 <= k < |ts| => TextLine(ts[k].kind, ts[k].content))
  }

  function TextsPart(ts: seq<TextData>): seq<Line> {
    if |ts| > 0 then [SectionTitle(TextsSection)] + TextLines(ts) + [Blank] else []
  }

  function RowLines(rows: seq<seq<string>>): (r: seq<Line>)
    ensures |r| == |rows|
    ensures forall k :: 0 <= k < |rows| ==> r[k] == RowLine(rows[k])
  {
    seq(|rows|, k requires 0 <= k < |rows| => RowLine(rows[k]))
  }

  function RowsPart(rows: seq<seq<string>>): seq<Line> {
    if |rows| > 0 then
      [DataTitle] + RowLines(rows[..Min(MAX_TABLE_ROWS, |rows|)])
      + (if |rows| > MAX_TABLE_ROWS then [MoreRows(|rows| - MAX_TABLE_ROWS)] else [])
    else []
  }

  /** The lines of the table printed as number `number` (1-based). */
  function TableLines(t: TableData, number: nat): seq<Line> {
    [Blank, TableTitle(number)]
    + (if |t.headers| > 0 then [HeaderLine(t.headers)] else [])
    + RowsPart(t.rows)
  }

  function TablesLines(ts: seq<TableData>): seq<Line>
    decreases |ts|
  {
    if ts == [] then [] else TablesLines(ts[..|ts| - 1]) + TableLines(ts[|ts| - 1], |ts|)
  }

  function TablesPart(ts: seq<TableData>): seq<Line> {
    if |ts| > 0 then [SectionTitle(TablesSection)] + TablesLines(ts) + [Blank] else []
  }

  /** The line a metric contributes: its context when it has both a value
      and a context, otherwise its content, otherwise none. */
  function MetricOf(m: MetricData): seq<Line> {
    if m.value != "" && m.context != "" then [MetricLine(m.context)]
    else if m.content != "" then [MetricLine(m.content)]
    else []
  }

  function MetricLines(ms: seq<MetricData>): seq<Line>
    decreases |ms|
  {
    if ms == [] then [] else MetricLines(ms[..|ms| - 1]) + MetricOf(ms[|ms| - 1])
  }

  function MetricsPart(ms: seq<MetricData>): seq<Line> {
    if |ms| > 0 then [SectionTitle(MetricsSection)] + MetricLines(ms[..Min(MAX_METRICS, |ms|)]) + [Blank] else []
  }

  function ChartLines(cs: seq<ChartData>): (r: seq<Line>)
    ensures |r| == |cs|
    ensures forall k :: 0 <= k < |cs| ==> r[k] == ChartLine(k + 1, cs[k].ariaLabel, cs[k].title, cs[k].legend)
  {
    seq(|cs|, k requires 0 <= k < |cs| => ChartLine(k + 1, cs[k].ariaLabel, cs[k].title, cs[k].legend))
  }

  function ChartsPart(cs: seq<ChartData>): seq<Line> {
    if |cs| > 0 then [SectionTitle(ChartsSection)] + ChartLines(cs) else []
  }

  /** The whole prompt block, line by line. */
  function Lines(p: PageData): seq<Line> {
    Preamble(p) + TextsPart(p.texts) + TablesPart(p.tables) + MetricsPart(p.metrics) + ChartsPart(p.charts)
  }

  /** What formatPageData returns. */
  function Formatted(p: PageData): string {
    Render(Lines(p))
  }

  // ---------------------------------------------------------------------
  // Properties of the prompt block

  /** The block opens with the fixed heading, a blank line, the URL, title
      and time lines and another blank line. */
  lemma FormattedOpening(p: PageData)
    ensures |Lines(p)| >= 6
    ensures Lines(p)[..6] == [PageHeading, Blank, UrlLine(p.url), TitleLine(p.pageTitle), TimeLine(p.timestamp), Blank]
    ensures StartsWith(Formatted(p), Render(Preamble(p)))
  {
    var pre, texts, tables, metrics, charts := Preamble(p), TextsPart(p.texts), TablesPart(p.tables), MetricsPart(p.metrics), ChartsPart(p.charts);
    ConcatAssoc(pre + texts + tables, metrics, charts);
    ConcatAssoc(pre + texts, tables, metrics + charts);
    ConcatAssoc(pre, texts, tables + (metrics + charts));
    RenderPrefix(pre, texts + (tables + (metrics + charts)));
  }

  lemma RenderPrefix(a: seq<Line>, b: seq<Line>)
    ensures (a + b)[..|a|] == a
    ensures StartsWith(Render(a + b), Render(a))
  {
    RenderAppend(a, b);
    assert (Render(a) + Render(b))[..|Render(a)|] == Render(a);
  }

  /** Number of row lines. */
  function RowCount(ls: seq<Line>): nat
    decreases |ls|
  {
    if ls == [] then 0 else RowCount(ls[..|ls| - 1]) + (if ls[|ls| - 1].RowLine? then 1 else 0)
  }

  lemma {:induction false} RowCountAppend(a: seq<Line>, b: seq<Line>)
    ensures RowCount(a + b) == RowCount(a) + RowCount(b)
    decreases |b|
  {
    if b == [] {
      assert a + b == a;
    } else {
      var b' := b[..|b| - 1];
      assert (a + b)[..|a + b| - 1] == a + b';
      RowCountAppend(a, b');
    }
  }

  lemma {:induction false} RowCountOfRows(rows: seq<seq<string>>)
    ensures RowCount(RowLines(rows)) == |rows|
    decreases |rows|
  {
    if rows != [] {
      var r' := rows[..|rows| - 1];
      assert RowLines(rows)[..|rows| - 1] == RowLines(r');
      RowCountOfRows(r');
    }
  }

  lemma {:induction false} RowCountNone(ls: seq<Line>)
    requires forall k :: 0 <= k < |ls| ==> !ls[k].RowLine?
    ensures RowCount(ls) == 0
    decreases |ls|
  {
    if ls != [] {
      RowCountNone(ls[..|ls| - 1]);
    }
  }

  /** The rows block counts the rows it shows. */
  lemma RowsPartRowCount(rows: seq<seq<string>>)
    ensures RowCount(RowsPart(rows)) == Min(MAX_TABLE_ROWS, |rows|)
  {
    if |rows| > 0 {
      var shown := RowLines(rows[..Min(MAX_TABLE_ROWS, |rows|)]);
      var more: seq<Line> := if |rows| > MAX_TABLE_ROWS then [MoreRows(|rows| - MAX_TABLE_ROWS)] else [];
      assert RowsPart(rows) == [DataTitle] + shown + more;
      RowCountAppend([DataTitle] + shown, more);
      RowCountAppend([DataTitle], shown);
      RowCountOfRows(rows[..Min(MAX_TABLE_ROWS, |rows|)]);
      RowCountNone([DataTitle]);
      RowCountNone(more);
    }
  }

  /** A table prints min(20, rows) row lines. */
  lemma TableRowCount(t: TableData, number: nat)
    ensures RowCount(TableLines(t, number)) == Min(MAX_TABLE_ROWS, |t.rows|)
  {
    var front: seq<Line> := [Blank, TableTitle(number)] + (if |t.headers| > 0 then [HeaderLine(t.headers)] else []);
    assert TableLines(t, number) == front + RowsPart(t.rows);
    RowCountAppend(front, RowsPart(t.rows));
    RowCountNone(front);
    RowsPartRowCount(t.rows);
  }

  lemma RowLinesOnlyRows(rows: seq<seq<string>>)
    ensures forall l :: l in RowLines(rows) ==> l.RowLine?
  {
    forall l | l in RowLines(rows)
      ensures l.RowLine?
    {
      var k :| 0 <= k < |RowLines(rows)| && RowLines(rows)[k] == l;
    }
  }

  /** The rows block holds no header line, and its only "... и ещё" line
      is the last, present when more than 20 rows are left out of it. */
  lemma RowsPartShape(rows: seq<seq<string>>)
    ensures forall l :: l in RowsPart(rows) ==> !l.HeaderLine? && !l.SectionTitle?
    ensures forall l :: l in RowsPart(rows) && l.MoreRows? ==> l == MoreRows(|rows| - MAX_TABLE_ROWS)
    ensures |rows| > MAX_TABLE_ROWS ==> MoreRows(|rows| - MAX_TABLE_ROWS) in RowsPart(rows)
    ensures |rows| <= MAX_TABLE_ROWS ==> forall l :: l in RowsPart(rows) ==> !l.MoreRows?
  {
    if |rows| > 0 {
      var shown := RowLines(rows[..Min(MAX_TABLE_ROWS, |rows|)]);
      RowLinesOnlyRows(rows[..Min(MAX_TABLE_ROWS, |rows|)]);
      var more: seq<Line> := if |rows| > MAX_TABLE_ROWS then [MoreRows(|rows| - MAX_TABLE_ROWS)] else [];
      assert RowsPart(rows) == [DataTitle] + shown + more;
    }
  }

  /** The "... и ещё K строк" line appears exactly when the table has more
      than 20 rows, and K is the number of rows left out. */
  lemma TableMoreRows(t: TableData, number: nat)
    ensures (exists k :: MoreRows(k) in TableLines(t, number)) <==> |t.rows| > MAX_TABLE_ROWS
    ensures forall k :: MoreRows(k) in TableLines(t, number) ==> k == |t.rows| - MAX_TABLE_ROWS
  {
    var front: seq<Line> := [Blank, TableTitle(number)] + (if |t.headers| > 0 then [HeaderLine(t.headers)] else []);
    assert TableLines(t, number) == front + RowsPart(t.rows);
    RowsPartShape(t.rows);
  }

  /** The "Заголовки:" line appears exactly when the table has headers, and it lists them. */
  lemma TableHeaderLine(t: TableData, number: nat)
    ensures (exists h :: HeaderLine(h) in TableLines(t, number)) <==> |t.headers| > 0
    ensures forall h :: HeaderLine(h) in TableLines(t, number) ==> h == t.headers
  {
    RowsPartShape(t.rows);
    if |t.headers| > 0 {
      assert TableLines(t, number) == [Blank, TableTitle(number), HeaderLine(t.headers)] + RowsPart(t.rows);
      assert HeaderLine(t.headers) in TableLines(t, number);
    } else {
      assert TableLines(t, number) == [Blank, TableTitle(number)] + RowsPart(t.rows);
    }
  }

  lemma TableLinesHaveNoSectionTitle(t: TableData, number: nat)
    ensures forall l :: l in TableLines(t, number) ==> !l.SectionTitle?
  {
    var front: seq<Line> := [Blank, TableTitle(number)] + (if |t.headers| > 0 then [HeaderLine(t.headers)] else []);
    assert TableLines(t, number) == front + RowsPart(t.rows);
    RowsPartShape(t.rows);
  }

  lemma {:induction false} TablesLinesHaveNoSectionTitle(ts: seq<TableData>)
    ensures forall l :: l in TablesLines(ts) ==> !l.SectionTitle?
    decreases |ts|
  {
    if ts != [] {
      TablesLinesHaveNoSectionTitle(ts[..|ts| - 1]);
      TableLinesHaveNoSectionTitle(ts[|ts| - 1], |ts|);
    }
  }

  lemma {:induction false} MetricLinesHaveNoSectionTitle(ms: seq<MetricData>)
    ensures forall l :: l in MetricLines(ms) ==> !l.SectionTitle?
    decreases |ms|
  {
    if ms != [] {
      MetricLinesHaveNoSectionTitle(ms[..|ms| - 1]);
    }
  }

  /** Which section headings each part of the block holds. */
  lemma PartTitles(p: PageData)
    ensures forall s :: SectionTitle(s) in TextsPart(p.texts) <==> s == TextsSection && |p.texts| > 0
    ensures forall s :: SectionTitle(s) in TablesPart(p.tables) <==> s == TablesSection && |p.tables| > 0
    ensures forall s :: SectionTitle(s) in MetricsPart(p.metrics) <==> s == MetricsSection && |p.metrics| > 0
    ensures forall s :: SectionTitle(s) in ChartsPart(p.charts) <==> s == ChartsSection && |p.charts| > 0
  {
    TablesLinesHaveNoSectionTitle(p.tables);
    MetricLinesHaveNoSectionTitle(p.metrics[..Min(MAX_METRICS, |p.metrics|)]);
  }

  /** Each section heading is printed exactly when its list is non-empty. */
  lemma SectionsPresent(p: PageData)
    ensures SectionTitle(TextsSection) in Lines(p) <==> |p.texts| > 0
    ensures SectionTitle(TablesSection) in Lines(p) <==> |p.tables| > 0
    ensures SectionTitle(MetricsSection) in Lines(p) <==> |p.metrics| > 0
    ensures SectionTitle(ChartsSection) in Lines(p) <==> |p.charts| > 0
  {
    PartTitles(p);
    SectionInLines(p, TextsSection);
    SectionInLines(p, TablesSection);
    SectionInLines(p, MetricsSection);
    SectionInLines(p, ChartsSection);
  }

  /** The opening lines hold no section heading. */
  lemma SectionInLines(p: PageData, s: Section)
    ensures SectionTitle(s) in Lines(p) <==>
      || SectionTitle(s) in TextsPart(p.texts) || SectionTitle(s) in TablesPart(p.tables)
      || SectionTitle(s) in MetricsPart(p.metrics) || SectionTitle(s) in ChartsPart(p.charts)
  {
    assert SectionTitle(s) !in Preamble(p);
  }

  /** Number of metric lines. */
  function MetricCount(ls: seq<Line>): nat
    decreases |ls|
  {
    if ls == [] then 0 else MetricCount(ls[..|ls| - 1]) + (if ls[|ls| - 1].MetricLine? then 1 else 0)
  }

  lemma {:induction false} MetricLinesAtMostOneEach(ms: seq<MetricData>)
    ensures MetricCount(MetricLines(ms)) <= |ms|
    ensures |MetricLines(ms)| == MetricCount(MetricLines(ms))
    decreases |ms|
  {
    if ms != [] {
      var ms' := ms[..|ms| - 1];
      MetricLinesAtMostOneEach(ms');
      var a := MetricLines(ms');
      var b := MetricOf(ms[|ms| - 1]);
      if b != [] {
        assert (a + b)[..|a + b| - 1] == a;
      } else {
        assert a + b == a;
      }
    }
  }

  /** Only the first 50 metrics matter, and at most one line is printed for each. */
  lemma MetricsCapped(ms: seq<MetricData>)
    ensures MetricsPart(ms) == MetricsPart(ms[..Min(MAX_METRICS, |ms|)])
    ensures |MetricsPart(ms)| <= Min(MAX_METRICS, |ms|) + 2
  {
    var kept := ms[..Min(MAX_METRICS, |ms|)];
    assert kept[..Min(MAX_METRICS, |kept|)] == kept;
    MetricLinesAtMostOneEach(kept);
  }

  // ---------------------------------------------------------------------
  // formatPageData, as the source builds it: appending line after line.
  // `doc` records the lines appended so far.

  /** Appending one line: the text so far, the line's text and "\n". */
  method EmitLine(ghost doc: seq<Line>, out: string, l: Line) returns (next: string)
    requires out == Render(doc)
    ensures next == Render(doc + [l])
  {
    next := out + LineText(l) + "\n";
    RenderSnoc(doc, l);
  }

  /** Appending a rendered part: the text so far and the part's text. */
  method EmitPart(ghost doc: seq<Line>, out: string, part: string, ghost ls: seq<Line>) returns (next: string)
    requires out == Render(doc) && part == Render(ls)
    ensures next == Render(doc + ls)
  {
    next := out + part;
    RenderAppend(doc, ls);
  }

  lemma TextLinesSnoc(ts: seq<TextData>, i: nat)
    requires i < |ts|
    ensures TextLines(ts[..i + 1]) == TextLines(ts[..i]) + [TextLine(ts[i].kind, ts[i].content)]
  {
  }

  lemma RowLinesSnoc(rows: seq<seq<string>>, j: nat)
    requires j < |rows|
    ensures RowLines(rows[..j + 1]) == RowLines(rows[..j]) + [RowLine(rows[j])]
  {
  }

  lemma ChartLinesSnoc(cs: seq<ChartData>, i: nat)
    requires i < |cs|
    ensures ChartLines(cs[..i + 1]) == ChartLines(cs[..i]) + [ChartLine(i + 1, cs[i].ariaLabel, cs[i].title, cs[i].legend)]
  {
  }

  lemma TablesLinesSnoc(ts: seq<TableData>, i: nat)
    requires i < |ts|
    ensures TablesLines(ts[..i + 1]) == TablesLines(ts[..i]) + TableLines(ts[i], i + 1)
  {
    assert ts[..i + 1][..i] == ts[..i];
  }

  lemma MetricLinesSnoc(ms: seq<MetricData>, i: nat)
    requires i < |ms|
    ensures MetricLines(ms[..i + 1]) == MetricLines(ms[..i]) + MetricOf(ms[i])
  {
    assert ms[..i + 1][..i] == ms[..i];
  }

  method FormatPageData(p: PageData) returns (formatted: string)
    ensures formatted == Formatted(p)
  {
    formatted := "";
    ghost var doc: seq<Line> := [];
    var opening := [PageHeading, Blank, UrlLine(p.url), TitleLine(p.pageTitle), TimeLine(p.timestamp), Blank];
    var k := 0;
    while k < |opening|
      invariant 0 <= k <= |opening|
      invariant doc == opening[..k] && formatted == Render(doc)
    {
      formatted := EmitLine(doc, formatted, opening[k]);
      doc := doc + [opening[k]];
      assert opening[..k + 1] == opening[..k] + [opening[k]];
      k := k + 1;
    }
    assert doc == Preamble(p);
    var texts := FormatTexts(p.texts);
    formatted := EmitPart(doc, formatted, texts, TextsPart(p.texts));
    doc := doc + TextsPart(p.texts);
    var tables := FormatTables(p.tables);
    formatted := EmitPart(doc, formatted, tables, TablesPart(p.tables));
    doc := doc + TablesPart(p.tables);
    var metrics := FormatMetrics(p.metrics);
    formatted := EmitPart(doc, formatted, metrics, MetricsPart(p.metrics));
    doc := doc + MetricsPart(p.metrics);
    var charts := FormatCharts(p.charts);
    formatted := EmitPart(doc, formatted, charts, ChartsPart(p.charts));
    doc := doc + ChartsPart(p.charts);
  }

  /** The "### Заголовки:" section. */
  method FormatTexts(texts: seq<TextData>) returns (out: string)
    ensures out == Render(TextsPart(texts))
  {
    out := "";
    if |texts| > 0 {
      ghost var doc: seq<Line> := [];
      out := EmitLine(doc, out, SectionTitle(TextsSection));
      doc := [SectionTitle(TextsSection)];
      var i := 0;
      while i < |texts|
        invariant 0 <= i <= |texts|
        invariant doc == [SectionTitle(TextsSection)] + TextLines(texts[..i]) && out == Render(doc)
      {
        var l := TextLine(texts[i].kind, texts[i].content);
        out := EmitLine(doc, out, l);
        doc := doc + [l];
        TextLinesSnoc(texts, i);
        i := i + 1;
      }
      out := EmitLine(doc, out, Blank);
      assert texts[..i] == texts;
    }
  }

  /** The "### Таблицы:" section, tables numbered from 1. */
  method FormatTables(tables: seq<TableData>) returns (out: string)
    ensures out == Render(TablesPart(tables))
  {
    out := "";
    if |tables| > 0 {
      ghost var doc: seq<Line> := [];
      out := EmitLine(doc, out, SectionTitle(TablesSection));
      doc := [SectionTitle(TablesSection)];
      var i := 0;
      while i < |tables|
        invariant 0 <= i <= |tables|
        invariant doc == [SectionTitle(TablesSection)] + TablesLines(tables[..i]) && out == Render(doc)
      {
        var table := FormatTable(tables[i], i + 1);
        out := EmitPart(doc, out, table, TableLines(tables[i], i + 1));
        doc := doc + TableLines(tables[i], i + 1);
        TablesLinesSnoc(tables, i);
        ConcatAssoc([SectionTitle(TablesSection)], TablesLines(tables[..i]), TableLines(tables[i], i + 1));
        i := i + 1;
      }
      out := EmitLine(doc, out, Blank);
      assert tables[..i] == tables;
    }
  }

  /** One table: its title, its header line, at most 20 rows and the count of the rest. */
  method FormatTable(table: TableData, number: nat) returns (out: string)
    ensures out == Render(TableLines(table, number))
  {
    ghost var doc: seq<Line> := [];
    out := EmitLine(doc, "", Blank);
    doc := [Blank];
    out := EmitLine(doc, out, TableTitle(number));
    doc := doc + [TableTitle(number)];
    if |table.headers| > 0 {
      out := EmitLine(doc, out, HeaderLine(table.headers));
      doc := doc + [HeaderLine(table.headers)];
    }
    var rows := FormatRows(table.rows);
    out := EmitPart(doc, out, rows, RowsPart(table.rows));
    doc := doc + RowsPart(table.rows);
    assert doc == TableLines(table, number);
  }

  /** The "Данные:" block of a table: at most 20 rows and the count of the rest. */
  method FormatRows(rows: seq<seq<string>>) returns (out: string)
    ensures out == Render(RowsPart(rows))
  {
    out := "";
    if |rows| > 0 {
      ghost var doc: seq<Line> := [];
      out := EmitLine(doc, out, DataTitle);
      doc := [DataTitle];
      var shown := rows[..Min(MAX_TABLE_ROWS, |rows|)];
      var j := 0;
      while j < |shown|
        invariant 0 <= j <= |shown|
        invariant doc == [DataTitle] + RowLines(shown[..j]) && out == Render(doc)
      {
        out := EmitLine(doc, out, RowLine(shown[j]));
        doc := doc + [RowLine(shown[j])];
        RowLinesSnoc(shown, j);
        j := j + 1;
      }
      assert shown[..j] == shown;
      if |rows| > MAX_TABLE_ROWS {
        out := EmitLine(doc, out, MoreRows(|rows| - MAX_TABLE_ROWS));
        doc := doc + [MoreRows(|rows| - MAX_TABLE_ROWS)];
      } else {
        assert doc + [] == doc;
      }
      assert doc == RowsPart(rows);
    }
  }

  /** One metric's line, if it has one. */
  method EmitMetric(ghost doc: seq<Line>, out: string, m: MetricData) returns (next: string)
    requires out == Render(doc)
    ensures next == Render(doc + MetricOf(m))
  {
    if m.value != "" && m.context != "" {
      next := EmitLine(doc, out, MetricLine(m.context));
    } else if m.content != "" {
      next := EmitLine(doc, out, MetricLine(m.content));
    } else {
      next := out;
      assert doc + MetricOf(m) == doc;
    }
  }

  /** The "### Метрики:" section over the first 50 metrics. */
  method FormatMetrics(metrics: seq<MetricData>) returns (out: string)
    ensures out == Render(MetricsPart(metrics))
  {
    out := "";
    if |metrics| > 0 {
      ghost var doc: seq<Line> := [];
      out := EmitLine(doc, out, SectionTitle(MetricsSection));
      doc := [SectionTitle(MetricsSection)];
      var considered := metrics[..Min(MAX_METRICS, |metrics|)];
      var i := 0;
      while i < |considered|
        invariant 0 <= i <= |considered|
        invariant doc == [SectionTitle(MetricsSection)] + MetricLines(considered[..i]) && out == Render(doc)
      {
        out := EmitMetric(doc, out, considered[i]);
        doc := doc + MetricOf(considered[i]);
        MetricLinesSnoc(considered, i);
        ConcatAssoc([SectionTitle(MetricsSection)], MetricLines(considered[..i]), MetricOf(considered[i]));
        i := i + 1;
      }
      out := EmitLine(doc, out, Blank);
      assert considered[..i] == considered;
    }
  }

  /** The "### Графики:" section, charts numbered from 1. */
  method FormatCharts(charts: seq<ChartData>) returns (out: string)
    ensures out == Render(ChartsPart(charts))
  {
    out := "";
    if |charts| > 0 {
      ghost var doc: seq<Line> := [];
      out := EmitLine(doc, out, SectionTitle(ChartsSection));
      doc := [SectionTitle(ChartsSection)];
      var i := 0;
      while i < |charts|
        invariant 0 <= i <= |charts|
        invariant doc == [SectionTitle(ChartsSection)] + ChartLines(charts[..i]) && out == Render(doc)
      {
        var l := ChartLine(i + 1, charts[i].ariaLabel, charts[i].title, charts[i].legend);
        out := EmitLine(doc, out, l);
        doc := doc + [l];
        ChartLinesSnoc(charts, i);
        i := i + 1;
      }
      assert charts[..i] == charts;
    }
  }
}
