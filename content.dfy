/** The page script: the page snapshot it collects (tables, metric-looking
    texts, headings) and the chat panel's state. The DOM is taken as the
    text it yields: for a table, the textContent of its `th` cells and of
    the `td` cells of each `tbody tr`; for metrics, the textContent of every
    element the nine class selectors match, in selector order; for
    headings, the level and textContent of every h1-h4. The service
    worker is the ExtensionStorage object the panel calls directly. */
module Content {
  import opened Wrappers
  import opened Strings
  import opened PageTypes
  import opened Domain
  import opened Background

  /** `s.slice(0, n)` */
  function Cap<T>(s: seq<T>, n: nat): (r: seq<T>)
    ensures |r| == (if |s| < n then |s| else n)
    ensures r == s[..|r|]
  {
    if |s| < n then s else s[..n]
  }

  // ----- tables -----

  datatype RawTable = RawTable(headCells: seq<string>, bodyRows: seq<seq<string>>)

  /** Every cell's text, trimmed. */
  function TrimEach(cells: seq<string>): (r: seq<string>)
    ensures |r| == |cells|
    decreases |cells|
  {
    if cells == [] then [] else TrimEach(cells[..|cells| - 1]) + [Trim(cells[|cells| - 1])]
  }

  /** Each cell keeps its place and is trimmed. */
  lemma {:induction false} TrimEachAt(cells: seq<string>)
    ensures forall k :: 0 <= k < |cells| ==> TrimEach(cells)[k] == Trim(cells[k])
    decreases |cells|
  {
    if cells != [] {
      TrimEachAt(cells[..|cells| - 1]);
    }
  }

  /** The body rows that have at least one cell, trimmed, in order. */
  function KeptRows(rows: seq<seq<string>>): (r: seq<seq<string>>)
    ensures |r| <= |rows|
    ensures forall k :: 0 <= k < |r| ==> |r[k]| > 0
    decreases |rows|
  {
    if rows == [] then []
    else
      var last := rows[|rows| - 1];
      KeptRows(rows[..|rows| - 1]) + (if |last| > 0 then [TrimEach(last)] else [])
  }

  /** A table loses all its rows exactly when none of them has a cell. */
  lemma {:induction false} KeptRowsEmpty(rows: seq<seq<string>>)
    ensures KeptRows(rows) == [] <==> forall j :: 0 <= j < |rows| ==> |rows[j]| == 0
    decreases |rows|
  {
    if rows != [] {
      var n := |rows| - 1;
      KeptRowsEmpty(rows[..n]);
      assert forall j :: 0 <= j < n ==> rows[..n][j] == rows[j];
    }
  }

  /** The table record built for the table at DOM position `index`. */
  function TableOf(index: nat, raw: RawTable): TableData {
    TableData(index, TrimEach(raw.headCells), KeptRows(raw.bodyRows))
  }

  /** A table is sent only when it has a header or a row left. */
  predicate Kept(t: TableData) {
    |t.headers| > 0 || |t.rows| > 0
  }

  lemma KeptIff(index: nat, raw: RawTable)
    ensures Kept(TableOf(index, raw)) <==>
      |raw.headCells| > 0 || exists j :: 0 <= j < |raw.bodyRows| && |raw.bodyRows[j]| > 0
  {
    KeptRowsEmpty(raw.bodyRows);
  }

  /** The tables of the page as collected, before the cap. */
  function Tables(raws: seq<RawTable>): (r: seq<TableData>)
    ensures |r| <= |raws|
    ensures forall k :: 0 <= k < |r| ==> r[k].index < |raws| && Kept(r[k])
    decreases |raws|
  {
    if raws == [] then []
    else
      var n := |raws| - 1;
      var t := TableOf(n, raws[n]);
      Tables(raws[..n]) + (if Kept(t) then [t] else [])
  }

  /** One more raw table adds its record at the end, when it is kept. */
  lemma TablesSnoc(raws: seq<RawTable>)
    requires raws != []
    ensures var n := |raws| - 1; var t := TableOf(n, raws[n]);
      Tables(raws) == Tables(raws[..n]) + (if Kept(t) then [t] else [])
  {
  }

  /** Each collected table is built from the raw table at its own index. */
  lemma {:induction false} TablesAtOwnIndex(raws: seq<RawTable>)
    ensures forall k :: 0 <= k < |Tables(raws)| ==>
      Tables(raws)[k] == TableOf(Tables(raws)[k].index, raws[Tables(raws)[k].index])
    decreases |raws|
  {
    if raws != [] {
      var n := |raws| - 1;
      TablesAtOwnIndex(raws[..n]);
      TablesSnoc(raws);
      var init := Tables(raws[..n]);
      var all := Tables(raws);
      forall k | 0 <= k < |all|
        ensures all[k] == TableOf(all[k].index, raws[all[k].index])
      {
        if k < |init| {
          assert all[k] == init[k];
          assert raws[..n][init[k].index] == raws[init[k].index];
        }
      }
    }
  }

  /** The indices of the collected tables increase. */
  lemma {:induction false} TablesIncreasing(raws: seq<RawTable>)
    ensures forall k, l :: 0 <= k < l < |Tables(raws)| ==> Tables(raws)[k].index < Tables(raws)[l].index
    decreases |raws|
  {
    if raws != [] {
      var n := |raws| - 1;
      TablesIncreasing(raws[..n]);
      TablesSnoc(raws);
      TablesAtOwnIndex(raws);
    }
  }

  /** The collected tables come in DOM order, each built from its own raw table. */
  lemma TablesInOrder(raws: seq<RawTable>)
    ensures forall k :: 0 <= k < |Tables(raws)| ==>
      Tables(raws)[k] == TableOf(Tables(raws)[k].index, raws[Tables(raws)[k].index])
    ensures forall k, l :: 0 <= k < l < |Tables(raws)| ==> Tables(raws)[k].index < Tables(raws)[l].index
  {
    TablesAtOwnIndex(raws);
    TablesIncreasing(raws);
  }

  /** Records already collected keep their positions when a table is added. */
  lemma TablesPrefixAt(raws: seq<RawTable>, n: nat, k: nat)
    requires n + 1 == |raws| && k < |Tables(raws[..n])|
    ensures k < |Tables(raws)| && Tables(raws)[k] == Tables(raws[..n])[k]
  {
    TablesSnoc(raws);
  }

  /** A kept last table is the last record. */
  lemma TablesLast(raws: seq<RawTable>, i: nat)
    requires i + 1 == |raws| && Kept(TableOf(i, raws[i]))
    ensures |Tables(raws)| > 0 && Tables(raws)[|Tables(raws)| - 1] == TableOf(i, raws[i])
  {
    TablesSnoc(raws);
  }

  /** No kept table is lost before the cap. */
  lemma TablesComplete(raws: seq<RawTable>, i: nat)
    requires i < |raws| && Kept(TableOf(i, raws[i]))
    ensures exists k :: 0 <= k < |Tables(raws)| && Tables(raws)[k].index == i
  {
    var k := TablesPosition(raws, i);
  }

  /** Where the record of a kept table ends up in the collected list. */
  lemma {:induction false} TablesPosition(raws: seq<RawTable>, i: nat) returns (k: nat)
    requires i < |raws| && Kept(TableOf(i, raws[i]))
    ensures k < |Tables(raws)| && Tables(raws)[k].index == i
    decreases |raws|
  {
    var n := |raws| - 1;
    if i < n {
      assert raws[..n][i] == raws[i];
      k := TablesPosition(raws[..n], i);
      TablesPrefixAt(raws, n, k);
    } else {
      TablesLast(raws, i);
      k := |Tables(raws)| - 1;
    }
  }

  method TrimCells(cells: seq<string>) returns (out: seq<string>)
    ensures out == TrimEach(cells)
  {
    out := [];
    var i := 0;
    while i < |cells|
      invariant 0 <= i <= |cells|
      invariant out == TrimEach(cells[..i])
    {
      assert cells[..i + 1][..i] == cells[..i];
      out := out + [Trim(cells[i])];
      i := i + 1;
    }
    assert cells[..|cells|] == cells;
  }

  /** One more body row extends the kept rows by that row, when it has cells. */
  lemma KeptRowsSnoc(rows: seq<seq<string>>, i: nat)
    requires i < |rows|
    ensures KeptRows(rows[..i + 1])
            == KeptRows(rows[..i]) + (if |rows[i]| > 0 then [TrimEach(rows[i])] else [])
  {
    assert rows[..i + 1][..i] == rows[..i];
  }

  /** The loop body of the row scan: a row with cells is trimmed and kept. */
  method KeepRow(rows: seq<seq<string>>, row: seq<string>) returns (out: seq<seq<string>>)
    ensures out == rows + (if |row| > 0 then [TrimEach(row)] else [])
  {
    var rowData := TrimCells(row);
    if |rowData| > 0 {
      out := rows + [rowData];
    } else {
      out := rows;
    }
  }

  method CollectTable(index: nat, raw: RawTable) returns (t: TableData)
    ensures t == TableOf(index, raw)
  {
    var headers := TrimCells(raw.headCells);
    var rows: seq<seq<string>> := [];
    var i := 0;
    while i < |raw.bodyRows|
      invariant 0 <= i <= |raw.bodyRows|
      invariant rows == KeptRows(raw.bodyRows[..i])
    {
      KeptRowsSnoc(raw.bodyRows, i);
      rows := KeepRow(rows, raw.bodyRows[i]);
      i := i + 1;
    }
    assert raw.bodyRows[..|raw.bodyRows|] == raw.bodyRows;
    t := TableData(index, headers, rows);
  }

  lemma TablesPrefixSnoc(raws: seq<RawTable>, i: nat)
    requires i < |raws|
    ensures Tables(raws[..i + 1]) == Tables(raws[..i]) + (if Kept(TableOf(i, raws[i])) then [TableOf(i, raws[i])] else [])
  {
    assert raws[..i + 1][..i] == raws[..i];
  }

  method CollectTables(raws: seq<RawTable>) returns (tables: seq<TableData>)
    ensures tables == Tables(raws)
  {
    tables := [];
    var i := 0;
    while i < |raws|
      invariant 0 <= i <= |raws|
      invariant tables == Tables(raws[..i])
    {
      var t := CollectTable(i, raws[i]);
      TablesPrefixSnoc(raws, i);
      tables := tables + (if Kept(t) then [t] else []);
      i := i + 1;
    }
    assert raws[..|raws|] == raws;
  }

  // ----- metrics -----

  /** A character the test `/[\d.,]+/` accepts. */
  predicate MetricChar(c: char) {
    ('0' <= c <= '9') || c == '.' || c == ','
  }

  /** A trimmed text is a metric when it is non-empty, shorter than 500
      characters and holds a digit, a dot or a comma. */
  predicate Qualifies(text: string) {
    text != "" && |text| < 500 && exists k :: 0 <= k < |text| && MetricChar(text[k])
  }

  /** `text.substring(0, 100)` */
  function MetricKey(text: string): (key: string)
    ensures |key| == (if |text| < 100 then |text| else 100) && key == text[..|key|]
  {
    if |text| < 100 then text else text[..100]
  }

  function Metric(text: string): MetricData {
    MetricData("", CollapseSpaces(text), "", "")
  }

  /** The candidate at position `i` (already trimmed) qualifies. */
  predicate Candidate(texts: seq<string>, i: int)
    requires 0 <= i < |texts|
  {
    Qualifies(texts[i])
  }

  datatype Scanned = Scanned(metrics: seq<MetricData>, seen: set<string>)

  /** The metrics found and the keys seen after the given trimmed
      candidates: one metric per distinct key, from the first candidate
      holding it. */
  function Scan(texts: seq<string>): (s: Scanned)
    ensures |s.metrics| == |s.seen|
    decreases |texts|
  {
    if texts == [] then Scanned([], {})
    else
      var n := |texts| - 1;
      var prev := Scan(texts[..n]);
      var text := texts[n];
      if Qualifies(text) && MetricKey(text) !in prev.seen then
        Scanned(prev.metrics + [Metric(text)], prev.seen + {MetricKey(text)})
      else prev
  }

  /** Every stored metric comes from an accepted candidate. */
  lemma {:induction false} ScanOrigins(texts: seq<string>, k: nat)
    requires k < |Scan(texts).metrics|
    ensures exists i :: 0 <= i < |texts| && Candidate(texts, i) && Scan(texts).metrics[k] == Metric(texts[i])
    decreases |texts|
  {
    var n := |texts| - 1;
    var prev := Scan(texts[..n]);
    if k < |prev.metrics| {
      ScanOrigins(texts[..n], k);
      var i :| 0 <= i < n && Candidate(texts[..n], i) && prev.metrics[k] == Metric(texts[..n][i]);
      assert texts[..n][i] == texts[i];
      assert Scan(texts).metrics[k] == prev.metrics[k];
    } else {
      assert Candidate(texts, n);
    }
  }

  /** A candidate accepted with the given key at position `i`. */
  predicate AcceptedAt(texts: seq<string>, i: int, key: string)
    requires 0 <= i < |texts|
  {
    Candidate(texts, i) && MetricKey(texts[i]) == key
  }

  /** The step of the scan on the seen keys. */
  lemma ScanSeenStep(texts: seq<string>)
    requires texts != []
    ensures var n := |texts| - 1;
      Scan(texts).seen == Scan(texts[..n]).seen +
        (if Candidate(texts, n) then {MetricKey(texts[n])} else {})
  {
    var n := |texts| - 1;
    var text := texts[n];
    if Qualifies(text) && MetricKey(text) !in Scan(texts[..n]).seen {
      assert Scan(texts).seen == Scan(texts[..n]).seen + {MetricKey(text)};
    } else {
      assert Scan(texts) == Scan(texts[..n]);
    }
  }

  /** An accepted candidate's key is seen. */
  lemma {:induction false} SeenFromCandidate(texts: seq<string>, i: nat, key: string)
    requires i < |texts| && AcceptedAt(texts, i, key)
    ensures key in Scan(texts).seen
    decreases |texts|
  {
    var n := |texts| - 1;
    ScanSeenStep(texts);
    if i < n {
      assert texts[..n][i] == texts[i];
      SeenFromCandidate(texts[..n], i, key);
    }
  }

  /** A seen key is the key of an accepted candidate. */
  lemma {:induction false} CandidateFromSeen(texts: seq<string>, key: string) returns (i: nat)
    requires key in Scan(texts).seen
    ensures i < |texts| && AcceptedAt(texts, i, key)
    decreases |texts|
  {
    var n := |texts| - 1;
    ScanSeenStep(texts);
    if key in Scan(texts[..n]).seen {
      i := CandidateFromSeen(texts[..n], key);
      assert texts[..n][i] == texts[i];
    } else {
      i := n;
    }
  }

  /** The keys seen are exactly the keys of the accepted candidates. */
  lemma ScanSeen(texts: seq<string>, key: string)
    ensures key in Scan(texts).seen <==> exists i :: 0 <= i < |texts| && AcceptedAt(texts, i, key)
  {
    if key in Scan(texts).seen {
      var i := CandidateFromSeen(texts, key);
    } else {
      forall i | 0 <= i < |texts| && AcceptedAt(texts, i, key)
        ensures key in Scan(texts).seen
      {
        SeenFromCandidate(texts, i, key);
      }
    }
  }

  /** A later candidate with the key of an earlier accepted one, or one that
      does not qualify, changes nothing: the first occurrence wins. */
  lemma LaterDuplicateDropped(texts: seq<string>, x: string, i: nat)
    requires i < |texts| && Candidate(texts, i)
    requires MetricKey(texts[i]) == MetricKey(x)
    ensures Scan(texts + [x]) == Scan(texts)
  {
    SeenFromCandidate(texts, i, MetricKey(x));
    var t := texts + [x];
    assert t[..|t| - 1] == texts && t[|t| - 1] == x;
  }

  lemma NonMetricDropped(texts: seq<string>, x: string)
    requires !Qualifies(x)
    ensures Scan(texts + [x]) == Scan(texts)
  {
    assert (texts + [x])[..|texts|] == texts;
  }

  /** A new key is appended as one more metric. */
  lemma NewKeyAdded(texts: seq<string>, x: string)
    requires Qualifies(x)
    requires forall i :: 0 <= i < |texts| && Candidate(texts, i) ==> MetricKey(texts[i]) != MetricKey(x)
    ensures Scan(texts + [x]).metrics == Scan(texts).metrics + [Metric(x)]
  {
    ScanSeen(texts, MetricKey(x));
    assert (texts + [x])[..|texts|] == texts;
  }

  /** A stored metric has no run of white space left: every white space
      character in it is a single ' '. */
  lemma MetricsSingleSpaced(texts: seq<string>, k: nat)
    requires k < |Scan(texts).metrics|
    ensures var c := Scan(texts).metrics[k].content;
      && (forall j :: 0 <= j < |c| && IsSpace(c[j]) ==> c[j] == ' ')
      && (forall j :: 0 <= j < |c| - 1 ==> !(IsSpace(c[j]) && IsSpace(c[j + 1])))
  {
    ScanOrigins(texts, k);
    var i :| 0 <= i < |texts| && Candidate(texts, i) && Scan(texts).metrics[k] == Metric(texts[i]);
    CollapseSpacesSingle(texts[i]);
  }

  /** The metric candidates scanned in document order, each trimmed first. */
  method CollectMetrics(texts: seq<string>) returns (metrics: seq<MetricData>)
    ensures metrics == Scan(TrimEach(texts)).metrics
  {
    metrics := [];
    var seen: set<string> := {};
    var i := 0;
    while i < |texts|
      invariant 0 <= i <= |texts|
      invariant Scanned(metrics, seen) == Scan(TrimEach(texts[..i]))
    {
      TrimEachSnoc(texts, i);
      var text := Trim(texts[i]);
      if Qualifies(text) {
        var key := MetricKey(text);
        if key !in seen {
          seen := seen + {key};
          metrics := metrics + [Metric(text)];
        }
      }
      i := i + 1;
    }
    assert texts[..|texts|] == texts;
  }

  lemma TrimEachAppend(texts: seq<string>, x: string)
    ensures TrimEach(texts + [x]) == TrimEach(texts) + [Trim(x)]
  {
    assert (texts + [x])[..|texts|] == texts;
  }

  /** Trimming one more text appends its trimmed form, and the scan takes
      one step on it. */
  lemma TrimEachSnoc(texts: seq<string>, i: nat)
    requires i < |texts|
    ensures var t := TrimEach(texts[..i + 1]);
      && t == TrimEach(texts[..i]) + [Trim(texts[i])]
      && t[..|t| - 1] == TrimEach(texts[..i]) && t[|t| - 1] == Trim(texts[i])
  {
    assert texts[..i + 1][..i] == texts[..i];
  }

  // ----- headings -----

  datatype Level = H1 | H2 | H3 | H4

  /** `h.tagName.toLowerCase()` */
  function TagName(level: Level): string {
    match level
    case H1 => "h1"
    case H2 => "h2"
    case H3 => "h3"
    case H4 => "h4"
  }

  datatype Heading = Heading(level: Level, text: string)

  /** The headings with a non-empty trimmed text, in order. */
  function Headings(hs: seq<Heading>): (r: seq<TextData>)
    ensures |r| <= |hs|
    decreases |hs|
  {
    if hs == [] then []
    else
      var n := |hs| - 1;
      var init := Headings(hs[..n]);
      var text := Trim(hs[n].text);
      init + (if text != "" then [TextData(TagName(hs[n].level), text)] else [])
  }

  /** Every collected heading has a non-empty text. */
  lemma {:induction false} HeadingsNonEmpty(hs: seq<Heading>)
    ensures forall k :: 0 <= k < |Headings(hs)| ==> Headings(hs)[k].content != ""
    decreases |hs|
  {
    if hs != [] {
      HeadingsNonEmpty(hs[..|hs| - 1]);
    }
  }

  lemma HeadingsSnoc(hs: seq<Heading>, i: nat)
    requires i < |hs|
    ensures var text := Trim(hs[i].text);
      Headings(hs[..i + 1]) == Headings(hs[..i]) + (if text != "" then [TextData(TagName(hs[i].level), text)] else [])
  {
    assert hs[..i + 1][..i] == hs[..i];
  }

  method CollectHeadings(hs: seq<Heading>) returns (texts: seq<TextData>)
    ensures texts == Headings(hs)
  {
    texts := [];
    var i := 0;
    while i < |hs|
      invariant 0 <= i <= |hs|
      invariant texts == Headings(hs[..i])
    {
      var text := Trim(hs[i].text);
      HeadingsSnoc(hs, i);
      texts := texts + (if text != "" then [TextData(TagName(hs[i].level), text)] else []);
      i := i + 1;
    }
    assert hs[..|hs|] == hs;
  }

  // ----- the snapshot -----

  const MAX_METRICS: nat := 100
  const MAX_TABLES: nat := 10

  /** What the DOM yields at the time of the snapshot. */
  datatype Page = Page(title: string, timestamp: string, tables: seq<RawTable>,
                       metricTexts: seq<string>, headings: seq<Heading>)

  /** The snapshot sent for a page: the caps apply after filtering and
      deduplication, and no chart is collected. */
  function Snapshot(url: string, page: Page): (data: PageData)
    ensures |data.tables| <= MAX_TABLES && |data.metrics| <= MAX_METRICS && data.charts == []
    ensures |data.tables| <= |Tables(page.tables)| && data.tables == Tables(page.tables)[..|data.tables|]
    ensures |data.metrics| <= |Scan(TrimEach(page.metricTexts)).metrics|
    ensures data.metrics == Scan(TrimEach(page.metricTexts)).metrics[..|data.metrics|]
  {
    PageData(url, page.title, page.timestamp, Cap(Tables(page.tables), MAX_TABLES),
             Cap(Scan(TrimEach(page.metricTexts)).metrics, MAX_METRICS), [], Headings(page.headings))
  }

  method CollectPageData(url: string, page: Page) returns (data: PageData)
    ensures data == Snapshot(url, page)
  {
    var tables := CollectTables(page.tables);
    var metrics := CollectMetrics(page.metricTexts);
    var texts := CollectHeadings(page.headings);
    data := PageData(url, page.title, page.timestamp, Cap(tables, MAX_TABLES), Cap(metrics, MAX_METRICS), [], texts);
  }

  /** A dropped candidate does not take one of the hundred places. */
  lemma CapAfterDedup(texts: seq<string>, x: string, i: nat)
    requires i < |texts| && Qualifies(Trim(texts[i]))
    requires MetricKey(Trim(texts[i])) == MetricKey(Trim(x))
    ensures Cap(Scan(TrimEach(texts + [x])).metrics, MAX_METRICS) == Cap(Scan(TrimEach(texts)).metrics, MAX_METRICS)
  {
    TrimEachAppend(texts, x);
    TrimEachAt(texts);
    LaterDuplicateDropped(TrimEach(texts), Trim(x), i);
  }

  // ----- message formatting -----

  /** The characters JavaScript's `.` does not match. */
  predicate LineEnd(c: char) {
    c == '\n' || c == '\r' || c == '\U{2028}' || c == '\U{2029}'
  }

  /** Where the lazy `(.*?)\*\*` closes in `t`: the first "**" with no line
      end before it. */
  function CloseAt(t: string): (r: Option<nat>)
    ensures r.Some? ==> r.value + 2 <= |t| && t[r.value] == '*' && t[r.value + 1] == '*'
    ensures r.Some? ==> forall k :: 0 <= k < r.value ==> !LineEnd(t[k]) && !(t[k] == '*' && t[k + 1] == '*')
    decreases |t|
  {
    if |t| < 2 then None
    else if t[0] == '*' && t[1] == '*' then Some(0)
    else if LineEnd(t[0]) then None
    else match CloseAt(t[1..])
      case None => None
      case Some(j) => Some(j + 1)
  }

  // Every span "**x**" (lazy, x on one line) becomes <strong>x</strong>, scanning left to right.
  function Bold(s: string): string
    decreases |s|
  {
    if s == [] then []
    else if |s| >= 2 && s[0] == '*' && s[1] == '*' && CloseAt(s[2..]).Some? then
      var j := CloseAt(s[2..]).value;
      "<strong>" + s[2..2 + j] + "</strong>" + Bold(s[4 + j..])
    else [s[0]] + Bold(s[1..])
  }

  /** The HTML a chat bubble shows for a text. */
  function FormatMessageText(text: string): string {
    ReplaceAll(Bold(text), '\n', "<br>")
  }

  /** No line feed survives formatting: each has become a `<br>`. */
  lemma FormatHasNoNewline(text: string)
    ensures '\n' !in FormatMessageText(text)
  {
    ReplaceAllRemoves(Bold(text), '\n', "<br>");
  }

  lemma {:induction false} BoldPlain(s: string)
    requires '*' !in s
    ensures Bold(s) == s
    decreases |s|
  {
    if s != [] {
      BoldPlain(s[1..]);
      assert s == [s[0]] + s[1..];
    }
  }

  /** A text without asterisks only has its line feeds replaced, and one
      without line feeds either is shown as it is. */
  lemma FormatPlain(text: string)
    requires '*' !in text
    ensures FormatMessageText(text) == ReplaceAll(text, '\n', "<br>")
    ensures '\n' !in text ==> FormatMessageText(text) == text
  {
    BoldPlain(text);
    if '\n' !in text {
      ReplaceAllKeepsOthers(text, '\n', "<br>");
    }
  }

  lemma {:induction false} CloseAfterPlain(x: string)
    requires '*' !in x && forall k :: 0 <= k < |x| ==> !LineEnd(x[k])
    ensures CloseAt(x + "**") == Some(|x|)
    decreases |x|
  {
    if x != [] {
      assert (x + "**")[1..] == x[1..] + "**";
      CloseAfterPlain(x[1..]);
    } else {
      assert x + "**" == "**";
    }
  }

  /** A span `**x**` on one line becomes `<strong>x</strong>`. */
  lemma FormatStrong(x: string)
    requires '*' !in x && forall k :: 0 <= k < |x| ==> !LineEnd(x[k])
    ensures FormatMessageText("**" + x + "**") == "<strong>" + x + "</strong>"
  {
    var s := "**" + x + "**";
    assert s[2..] == x + "**";
    CloseAfterPlain(x);
    assert s[2..2 + |x|] == x;
    assert s[4 + |x|..] == [];
    assert Bold(s) == "<strong>" + x + "</strong>";
    assert '\n' !in "<strong>" + x + "</strong>";
    ReplaceAllKeepsOthers("<strong>" + x + "</strong>", '\n', "<br>");
  }

  // ----- the chat panel -----

  /** One message in the chat list: the class it is given and its HTML. */
  datatype Bubble = Bubble(role: Role, html: string)

  const NEW_CHAT: string := "🆕 Новый чат начат. Задавайте вопросы!"

  /** The site whose session the panel uses: the seller cabinet or the storefront. */
  function PanelDomain(url: string): string {
    if Contains(url, SELLER) then SELLER else OZON
  }

  /** On the pages the script runs on, the panel's site is the one the
      service worker files the session under. */
  lemma PanelDomainAgrees(url: string)
    requires Contains(url, OZON)
    ensures PanelDomain(url) == DomainOf(url)
  {
    DomainCases(url);
  }

  function HistoryBubbles(ms: seq<ChatMessage>): (r: seq<Bubble>)
    ensures |r| == |ms|
    ensures forall k :: 0 <= k < |r| ==> r[k] == Bubble(ms[k].role, FormatMessageText(ms[k].content))
    decreases |ms|
  {
    if ms == [] then []
    else HistoryBubbles(ms[..|ms| - 1]) + [Bubble(ms[|ms| - 1].role, FormatMessageText(ms[|ms| - 1].content))]
  }

  lemma HistoryBubblesSnoc(ms: seq<ChatMessage>, i: nat)
    requires i < |ms|
    ensures HistoryBubbles(ms[..i + 1]) == HistoryBubbles(ms[..i]) + [Bubble(ms[i].role, FormatMessageText(ms[i].content))]
  {
    assert ms[..i + 1][..i] == ms[..i];
  }

  /** The panel's state as a value: whether a request is under way, the
      session id and balance it holds, the chat list and the usage line. */
  datatype ChatView = ChatView(isLoading: bool, sessionId: Option<string>, balance: real,
                               bubbles: seq<Bubble>, usage: Option<UsageInfo>)

  /** The bubble an answer from the worker is shown as. */
  function ReplyBubble(r: Sent): (b: Bubble)
    ensures b.role == AssistantTurn
  {
    match r
    case SentError(e) => Bubble(AssistantTurn, FormatMessageText("❌ " + e))
    case SentAnswer(a, _, _) => Bubble(AssistantTurn, FormatMessageText(a))
  }

  /** A message accepted: it is shown and the panel waits. */
  function Submitted(v: ChatView, message: string): ChatView {
    v.(isLoading := true, bubbles := v.bubbles + [Bubble(UserTurn, FormatMessageText(message))])
  }

  /** The worker's answer handled: it is shown; an answer's session id is
      adopted and its usage, when present, gives the new balance. */
  function Replied(v: ChatView, r: Sent): ChatView {
    var shown := v.(isLoading := false, bubbles := v.bubbles + [ReplyBubble(r)]);
    match r
    case SentError(_) => shown
    case SentAnswer(_, sid, usage) =>
      if usage.Some? then shown.(sessionId := sid, balance := usage.value.balanceRemaining, usage := usage)
      else shown.(sessionId := sid)
  }

  /** The whole of sendMessage on the panel's state. */
  function AfterSend(v: ChatView, input: string, r: Sent): ChatView {
    if Trim(input) == "" || v.isLoading then v else Replied(Submitted(v, Trim(input)), r)
  }

  /** A blank input, or one sent while a request is under way, changes
      nothing; otherwise the user's text and then the reply are appended,
      and the panel is ready again. */
  lemma SendShowsBothTurns(v: ChatView, input: string, r: Sent)
    ensures Trim(input) == "" || v.isLoading ==> AfterSend(v, input, r) == v
    ensures Trim(input) != "" && !v.isLoading ==>
      && AfterSend(v, input, r).bubbles == v.bubbles + [Bubble(UserTurn, FormatMessageText(Trim(input))), ReplyBubble(r)]
      && !AfterSend(v, input, r).isLoading
  {
  }

  /** The session id and the balance change only with an answer; an error
      leaves them, and the usage line, as they were. */
  lemma SessionChangesOnlyOnAnswer(v: ChatView, input: string, r: Sent)
    ensures r.SentError? ==>
      && AfterSend(v, input, r).sessionId == v.sessionId
      && AfterSend(v, input, r).balance == v.balance
      && AfterSend(v, input, r).usage == v.usage
    ensures r.SentAnswer? && Trim(input) != "" && !v.isLoading ==>
      && AfterSend(v, input, r).sessionId == r.sessionId
      && (r.usage.Some? ==> AfterSend(v, input, r).balance == r.usage.value.balanceRemaining)
      && (r.usage.None? ==> AfterSend(v, input, r).balance == v.balance)
  {
  }

  /** An error is shown with the cross mark in front of it. */
  lemma ErrorShownMarked(e: string)
    requires '*' !in e && '\n' !in e
    ensures ReplyBubble(SentError(e)).html == "❌ " + e
  {
    assert '*' !in "❌ " + e && '\n' !in "❌ " + e;
    FormatPlain("❌ " + e);
  }

  class ChatPanel {
    /** The page URL; the script only starts on pages that mention ozon.ru. */
    const url: string
    var isLoading: bool
    var currentSessionId: Option<string>
    var currentBalance: real
    /** The chat list, oldest first. */
    var bubbles: seq<Bubble>
    /** The usage shown under the input after the last answer. */
    var shownUsage: Option<UsageInfo>

    constructor (pageUrl: string)
      requires Contains(pageUrl, OZON)
      ensures url == pageUrl && !isLoading && currentSessionId.None? && currentBalance == 0.0
      ensures bubbles == [] && shownUsage.None?
    {
      url := pageUrl;
      isLoading := false;
      currentSessionId := None;
      currentBalance := 0.0;
      bubbles := [];
      shownUsage := None;
    }

    function View(): ChatView
      reads this
    {
      ChatView(isLoading, currentSessionId, currentBalance, bubbles, shownUsage)
    }

    /** sendMessage: the snapshot is relayed with the panel's session id
        and the reply handled as AfterSend says; the worker then holds the
        answer's session id for the page's site, which is the panel's own
        (PanelDomainAgrees). */
    method SendMessage(input: string, page: Page, storage: ExtensionStorage,
                       post: ChatCall -> ServerReply<ChatBody>)
      modifies this, storage
      ensures Trim(input) == "" || old(isLoading) ==> unchanged(this) && unchanged(storage)
      ensures Trim(input) != "" && !old(isLoading) ==>
        var r := Relay(old(storage.local), old(storage.apiKey), Trim(input), Snapshot(url, page), old(currentSessionId), post);
        && View() == AfterSend(old(View()), input, r)
        && storage.local == Relayed(old(storage.local), r, Snapshot(url, page))
        && storage.apiKey == old(storage.apiKey)
        && (r.SentAnswer? && r.sessionId.Some? && r.sessionId.value != "" ==>
              storage.SessionId(DomainOf(url)) == r.sessionId)
    {
      var message := Trim(input);
      if message == "" || isLoading {
        return;
      }
      Deliver(message, page, storage, post);
    }

    /** sendMessage past its guard: show the message, relay it, show the reply. */
    method Deliver(message: string, page: Page, storage: ExtensionStorage,
                   post: ChatCall -> ServerReply<ChatBody>)
      modifies this, storage
      ensures var r := Relay(old(storage.local), old(storage.apiKey), message, Snapshot(url, page), old(currentSessionId), post);
        && View() == Replied(Submitted(old(View()), message), r)
        && storage.local == Relayed(old(storage.local), r, Snapshot(url, page))
        && storage.apiKey == old(storage.apiKey)
        && (r.SentAnswer? && r.sessionId.Some? && r.sessionId.value != "" ==>
              storage.SessionId(DomainOf(url)) == r.sessionId)
    {
      ghost var v0 := View();
      bubbles := bubbles + [Bubble(UserTurn, FormatMessageText(message))];
      isLoading := true;
      assert View() == Submitted(v0, message);
      var response := Forward(message, page, storage, post);
      ghost var local1 := storage.local;
      ShowReply(response);
      assert storage.local == local1;
    }

    /** The request to the worker: the snapshot goes out with the panel's
        session id, and the worker files the answer's session id under the
        panel's site. */
    method Forward(message: string, page: Page, storage: ExtensionStorage,
                   post: ChatCall -> ServerReply<ChatBody>)
      returns (response: Sent)
      modifies storage
      ensures response == Relay(old(storage.local), old(storage.apiKey), message, Snapshot(url, page), currentSessionId, post)
      ensures storage.local == Relayed(old(storage.local), response, Snapshot(url, page))
      ensures storage.apiKey == old(storage.apiKey)
      ensures response.SentAnswer? && response.sessionId.Some? && response.sessionId.value != "" ==>
        storage.SessionId(DomainOf(url)) == response.sessionId
    {
      var data := CollectPageData(url, page);
      response := storage.SendMessage(message, data, currentSessionId, post);
      RelayedSession(old(storage.local), response, data, DomainOf(url));
    }

    /** The part of sendMessage after the worker answered. */
    method ShowReply(r: Sent)
      modifies this
      ensures View() == Replied(old(View()), r)
    {
      bubbles := bubbles + [ReplyBubble(r)];
      if r.SentAnswer? {
        currentSessionId := r.sessionId;
        if r.usage.Some? {
          currentBalance := r.usage.value.balanceRemaining;
          shownUsage := r.usage;
        }
      }
      isLoading := false;
    }

    /** loadBalance: whatever balance the worker answers is shown, 0 on an error. */
    method LoadBalance(storage: ExtensionStorage, fetchBalance: string -> ServerReply<(real, Option<string>)>)
      modifies this
      ensures currentBalance == storage.Balance(fetchBalance).balance
      ensures !storage.HasKey() ==> currentBalance == 0.0
      ensures currentSessionId == old(currentSessionId) && bubbles == old(bubbles)
      ensures isLoading == old(isLoading) && shownUsage == old(shownUsage)
    {
      var response := storage.Balance(fetchBalance);
      currentBalance := response.balance;
    }

    /** loadHistory: with a stored session id for the panel's site, adopt it
        and show its history. */
    method LoadHistory(storage: ExtensionStorage, fetchHistory: (string, string) -> Option<seq<ChatMessage>>)
      modifies this
      ensures var stored := storage.SessionId(PanelDomain(url));
        if stored.Some? && stored.value != "" then
          && currentSessionId == stored
          && bubbles == old(bubbles) + HistoryBubbles(storage.ChatHistory(stored, fetchHistory))
        else
          currentSessionId == old(currentSessionId) && bubbles == old(bubbles)
      ensures currentBalance == old(currentBalance) && isLoading == old(isLoading) && shownUsage == old(shownUsage)
    {
      var stored := storage.SessionId(PanelDomain(url));
      if stored.None? || stored.value == "" {
        return;
      }
      currentSessionId := stored;
      var ms := storage.ChatHistory(currentSessionId, fetchHistory);
      ShowHistory(ms);
    }

    /** The history messages appended to the chat list, one bubble each. */
    method ShowHistory(ms: seq<ChatMessage>)
      modifies this
      ensures bubbles == old(bubbles) + HistoryBubbles(ms)
      ensures currentSessionId == old(currentSessionId) && currentBalance == old(currentBalance)
      ensures isLoading == old(isLoading) && shownUsage == old(shownUsage)
    {
      var i := 0;
      while i < |ms|
        invariant 0 <= i <= |ms|
        invariant bubbles == old(bubbles) + HistoryBubbles(ms[..i])
        invariant currentSessionId == old(currentSessionId) && currentBalance == old(currentBalance)
        invariant isLoading == old(isLoading) && shownUsage == old(shownUsage)
      {
        HistoryBubblesSnoc(ms, i);
        bubbles := bubbles + [Bubble(ms[i].role, FormatMessageText(ms[i].content))];
        i := i + 1;
      }
      assert ms[..|ms|] == ms;
    }

    /** clearChat: the worker forgets the site's session, the panel drops
        its own and starts a new chat list. */
    method ClearChat(storage: ExtensionStorage)
      modifies this, storage
      ensures storage.local == old(storage.local) - {StorageKey(PanelDomain(url))}
      ensures storage.apiKey == old(storage.apiKey)
      ensures currentSessionId.None? && bubbles == [Bubble(AssistantTurn, NEW_CHAT)] && shownUsage.None?
      ensures currentBalance == old(currentBalance) && isLoading == old(isLoading)
    {
      storage.ClearSession(Some(PanelDomain(url)));
      currentSessionId := None;
      bubbles := [Bubble(AssistantTurn, NEW_CHAT)];
      shownUsage := None;
    }
  }
}
