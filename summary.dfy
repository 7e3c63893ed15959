/**
 * The summary stage (`calculate_summary_document`): N documents of one
 * required type are added up cell by cell and sheet by sheet, label columns 0
 * and 1 being copied from the first document.
 */
module Summary {
  import opened Model
  import opened Arith

  /** `d.sheets[s].items[i][j]` exists (otherwise indexing raises IndexError). */
  predicate HasCell(d: Document, s: nat, i: nat, j: nat) {
    s < |d.sheets| && i < |d.sheets[s].items| && j < |d.sheets[s].items[i]|
  }

  /** `d.sheets[s].items[i][j]`, or null where it does not exist. */
  function CellAt(d: Document, s: nat, i: nat, j: nat): Cell {
    if HasCell(d, s, i, j) then d.sheets[s].items[i][j] else Null
  }

  /** The cells at position (s, i, j) of all the documents, in document order. */
  function Column(docs: seq<Document>, s: nat, i: nat, j: nat): seq<Cell> {
    MapSeq(docs, d => CellAt(d, s, i, j))
  }

  /** `sum(doc.sheets[s].items[i][j] for doc in docs)`. */
  function ColumnSum(docs: seq<Document>, s: nat, i: nat, j: nat): Outcome<Cell> {
    if forall k :: 0 <= k < |docs| ==> HasCell(docs[k], s, i, j) then SumCells(Column(docs, s, i, j))
    else Fail(Unexpected)
  }

  /** Length of every output row when row 0 of the first document has `cols` cells. */
  function Width(cols: nat): nat {
    if cols < 2 then 2 else cols
  }

  /** Output cell (s, i, j): columns 0 and 1 come from the first document, the others are sums. */
  function SummaryCell(docs: seq<Document>, s: nat, i: nat, j: nat): Outcome<Cell>
    requires |docs| > 0
  {
    if j < 2 then
      if HasCell(docs[0], s, i, j) then Ok(CellAt(docs[0], s, i, j)) else Fail(Unexpected)
    else ColumnSum(docs, s, i, j)
  }

  /** Sheet `s` of the first document can be summarised without an exception. */
  predicate SheetSummable(docs: seq<Document>, s: nat)
    requires |docs| > 0 && s < |docs[0].sheets|
  {
    var items := docs[0].sheets[s].items;
    && |items| > 0
    && forall i, j :: 0 <= i < |items| && 0 <= j < Width(|items[0]|) ==> SummaryCell(docs, s, i, j).Ok?
  }

  function SummaryRow(docs: seq<Document>, s: nat, i: nat, w: nat): seq<Cell>
    requires |docs| > 0
    requires forall j :: 0 <= j < w ==> SummaryCell(docs, s, i, j).Ok?
  {
    seq(w, j requires 0 <= j < w => SummaryCell(docs, s, i, j).value)
  }

  function SummaryItems(docs: seq<Document>, s: nat): seq<seq<Cell>>
    requires |docs| > 0 && s < |docs[0].sheets| && SheetSummable(docs, s)
  {
    var items := docs[0].sheets[s].items;
    var w := Width(|items[0]|);
    seq(|items|, i requires 0 <= i < |items| => SummaryRow(docs, s, i, w))
  }

  function SummarySheet(docs: seq<Document>, s: nat, docId: string, sheetId: string): Sheet
    requires |docs| > 0 && s < |docs[0].sheets| && SheetSummable(docs, s)
  {
    var source := docs[0].sheets[s];
    Sheet(sheetId, docs[0].subjectId, docId, source.name + " - Summary", source.number, SummaryItems(docs, s))
  }

  /** Python's ordering of dates. */
  predicate DateLess(a: Date, b: Date) {
    || a.year < b.year
    || (a.year == b.year && a.month < b.month)
    || (a.year == b.year && a.month == b.month && a.day < b.day)
  }

  /** `max(doc.period for doc in docs)`: one of the periods, and none is later. */
  function MaxPeriod(docs: seq<Document>): (p: Date)
    requires |docs| > 0
    ensures exists k :: 0 <= k < |docs| && docs[k].period == p
    ensures forall k :: 0 <= k < |docs| ==> !DateLess(p, docs[k].period)
  {
    if |docs| == 1 then docs[0].period
    else
      var m := MaxPeriod(docs[..|docs| - 1]);
      var x := docs[|docs| - 1].period;
      if DateLess(m, x) then x else m
  }

  function SummaryDocument(docs: seq<Document>, env: Env, base: nat): Document
    requires |docs| > 0
    requires forall s :: 0 <= s < |docs[0].sheets| ==> SheetSummable(docs, s)
  {
    var first := docs[0];
    var id := env.token(base);
    Document(
      id,
      first.subjectId,
      DocType(first.docType.key + "S", first.docType.name + " - Summary", 2, first.docType.order),
      MaxPeriod(docs),
      Version(1, Author, env.clock(base)),
      seq(|first.sheets|, s requires 0 <= s < |first.sheets| =>
        SummarySheet(docs, s, id, env.token(base + 1 + s))))
  }

  /** The error `calculate_summary_document` raises on `docs`, if any, in the order it checks. */
  function SummaryFailure(docs: seq<Document>, cfg: Config): Option<Failure> {
    if |docs| != cfg.requiredPeriods then Some(InternalServerError)
    else if |docs| == 0 then Some(Unexpected)
    else if docs[0].docType.key !in cfg.requiredTypes then Some(InternalServerError)
    else if exists s :: 0 <= s < |docs[0].sheets| && !SheetSummable(docs, s) then Some(Unexpected)
    else None
  }

  /**
   * `calculate_summary_document(docs)`: its ids are `token(base)` for the
   * document and `token(base + 1 + s)` for sheet `s`.
   */
  function Summarize(docs: seq<Document>, cfg: Config, env: Env, base: nat): Outcome<Document> {
    match SummaryFailure(docs, cfg)
    case Some(e) => Fail(e)
    case None => Ok(SummaryDocument(docs, env, base))
  }

  /**
   * The guard: a wrong number of documents, or a first document of a type
   * that is not required, raises the 500 error before any sum is computed.
   * Conversely, once the count is right and the first document's type is
   * required, the 500 error is never raised, whatever the types of the other
   * documents: only an unexpected error can follow.
   */
  lemma SummaryGuard(docs: seq<Document>, cfg: Config, env: Env, base: nat)
    ensures |docs| != cfg.requiredPeriods ==> Summarize(docs, cfg, env, base) == Fail(InternalServerError)
    ensures |docs| == cfg.requiredPeriods && |docs| > 0 && docs[0].docType.key !in cfg.requiredTypes ==>
      Summarize(docs, cfg, env, base) == Fail(InternalServerError)
    ensures Summarize(docs, cfg, env, base).Ok? ==>
      |docs| == cfg.requiredPeriods && |docs| > 0 && docs[0].docType.key in cfg.requiredTypes
    ensures |docs| == cfg.requiredPeriods && |docs| > 0 && docs[0].docType.key in cfg.requiredTypes ==>
      Summarize(docs, cfg, env, base) != Fail(InternalServerError)
  {
  }

  /** What a successful summary is: its metadata, ids and shape. */
  lemma SummaryMetadata(docs: seq<Document>, cfg: Config, env: Env, base: nat)
    requires Summarize(docs, cfg, env, base).Ok?
    ensures var d := Summarize(docs, cfg, env, base).value;
      && d.id == env.token(base)
      && d.subjectId == docs[0].subjectId
      && d.docType.key == docs[0].docType.key + "S"
      && d.docType.name == docs[0].docType.name + " - Summary"
      && d.docType.layer == 2
      && d.docType.order == docs[0].docType.order
      && (exists k :: 0 <= k < |docs| && docs[k].period == d.period)
      && (forall k :: 0 <= k < |docs| ==> !DateLess(d.period, docs[k].period))
      && d.version == Version(1, Author, env.clock(base))
      && |d.sheets| == |docs[0].sheets|
      && OwnsSheets(d)
      && forall s :: 0 <= s < |d.sheets| ==>
        && d.sheets[s].id == env.token(base + 1 + s)
        && d.sheets[s].subjectId == docs[0].subjectId
        && d.sheets[s].name == docs[0].sheets[s].name + " - Summary"
        && d.sheets[s].number == docs[0].sheets[s].number
        && |d.sheets[s].items| == |docs[0].sheets[s].items| > 0
        && forall i :: 0 <= i < |d.sheets[s].items| ==>
          |d.sheets[s].items[i]| == Width(|docs[0].sheets[s].items[0]|)
  {
    var d := Summarize(docs, cfg, env, base).value;
    forall s | 0 <= s < |d.sheets|
      ensures d.sheets[s].docId == d.id
      ensures d.sheets[s].id == env.token(base + 1 + s)
      ensures d.sheets[s].subjectId == docs[0].subjectId
      ensures d.sheets[s].name == docs[0].sheets[s].name + " - Summary"
      ensures d.sheets[s].number == docs[0].sheets[s].number
      ensures |d.sheets[s].items| == |docs[0].sheets[s].items| > 0
      ensures forall i :: 0 <= i < |d.sheets[s].items| ==>
        |d.sheets[s].items[i]| == Width(|docs[0].sheets[s].items[0]|)
    {
      SheetAt(docs, cfg, env, base, s);
    }
  }

  /** Sheet `s` of a successful summary is the summary of sheet `s` of the first document. */
  lemma SheetAt(docs: seq<Document>, cfg: Config, env: Env, base: nat, s: nat)
    requires Summarize(docs, cfg, env, base).Ok?
    requires s < |Summarize(docs, cfg, env, base).value.sheets|
    ensures |docs| > 0 && s < |docs[0].sheets| && SheetSummable(docs, s)
    ensures Summarize(docs, cfg, env, base).value.sheets[s] ==
      SummarySheet(docs, s, env.token(base), env.token(base + 1 + s))
  {
  }

  /**
   * Every cell of a successful summary: columns 0 and 1 are the first
   * document's cells; any other column exists in every document, holds only
   * numbers or booleans there, and is their real sum, or NaN iff one of them is NaN.
   */
  lemma SummaryCellValue(docs: seq<Document>, cfg: Config, env: Env, base: nat, s: nat, i: nat, j: nat)
    requires Summarize(docs, cfg, env, base).Ok?
    requires var d := Summarize(docs, cfg, env, base).value;
      s < |d.sheets| && i < |d.sheets[s].items| && j < |d.sheets[s].items[i]|
    ensures var c := Summarize(docs, cfg, env, base).value.sheets[s].items[i][j];
      && (j < 2 ==> HasCell(docs[0], s, i, j) && c == docs[0].sheets[s].items[i][j])
      && (j >= 2 ==>
        && (forall k :: 0 <= k < |docs| ==> HasCell(docs[k], s, i, j))
        && AllNumeric(Column(docs, s, i, j))
        && (c == NaN <==> HasNaN(Column(docs, s, i, j)))
        && (!HasNaN(Column(docs, s, i, j)) ==> c == Num(Total(Column(docs, s, i, j)))))
  {
    var d := Summarize(docs, cfg, env, base).value;
    SheetAt(docs, cfg, env, base, s);
    assert SummaryCell(docs, s, i, j).Ok?;
    assert d.sheets[s].items[i][j] == SummaryCell(docs, s, i, j).value;
    if j >= 2 {
      SumCellsMeaning(Column(docs, s, i, j));
    }
  }

  /**
   * Summation is order independent: two orderings of the same documents that
   * both summarise give the same numeric columns wherever both have the cell.
   */
  lemma SummaryPermutation(docs: seq<Document>, docs': seq<Document>, cfg: Config, env: Env, base: nat,
                           s: nat, i: nat, j: nat)
    requires multiset(docs) == multiset(docs')
    requires Summarize(docs, cfg, env, base).Ok? && Summarize(docs', cfg, env, base).Ok?
    requires var d := Summarize(docs, cfg, env, base).value;
      s < |d.sheets| && i < |d.sheets[s].items| && 2 <= j < |d.sheets[s].items[i]|
    requires var d' := Summarize(docs', cfg, env, base).value;
      s < |d'.sheets| && i < |d'.sheets[s].items| && j < |d'.sheets[s].items[i]|
    ensures Summarize(docs, cfg, env, base).value.sheets[s].items[i][j] ==
            Summarize(docs', cfg, env, base).value.sheets[s].items[i][j]
  {
    var d, d' := Summarize(docs, cfg, env, base).value, Summarize(docs', cfg, env, base).value;
    SheetAt(docs, cfg, env, base, s);
    SheetAt(docs', cfg, env, base, s);
    assert SummaryCell(docs, s, i, j).Ok? && SummaryCell(docs', s, i, j).Ok?;
    assert d.sheets[s].items[i][j] == SummaryCell(docs, s, i, j).value;
    assert d'.sheets[s].items[i][j] == SummaryCell(docs', s, i, j).value;
    MapPermutation(docs, docs', d => CellAt(d, s, i, j));
    SumCellsPermutation(Column(docs, s, i, j), Column(docs', s, i, j));
  }

  /** One output row: the two label cells, then the column sums up to `cols`. */
  method SummarizeRow(docs: seq<Document>, s: nat, i: nat, cols: nat) returns (r: Outcome<seq<Cell>>)
    requires |docs| > 0
    ensures r.Ok? <==> forall j :: 0 <= j < Width(cols) ==> SummaryCell(docs, s, i, j).Ok?
    ensures r.Ok? ==> r.value == SummaryRow(docs, s, i, Width(cols))
  {
    var rowData: seq<Cell> := [];
    for j := 0 to 2
      invariant |rowData| == j
      invariant forall m :: 0 <= m < j ==> SummaryCell(docs, s, i, m).Ok? && rowData[m] == SummaryCell(docs, s, i, m).value
    {
      if !HasCell(docs[0], s, i, j) {
        assert SummaryCell(docs, s, i, j).Fail?;
        return Fail(Unexpected);
      }
      rowData := rowData + [docs[0].sheets[s].items[i][j]];
    }
    for j := 2 to Width(cols)
      invariant |rowData| == j
      invariant forall m :: 0 <= m < j ==> SummaryCell(docs, s, i, m).Ok? && rowData[m] == SummaryCell(docs, s, i, m).value
    {
      var c := ColumnSum(docs, s, i, j);
      if c.Fail? {
        assert SummaryCell(docs, s, i, j).Fail?;
        return Fail(Unexpected);
      }
      rowData := rowData + [c.value];
    }
    return Ok(rowData);
  }

  /** One output sheet: every row of sheet `s` of the first document, summarised. */
  method SummarizeSheet(docs: seq<Document>, s: nat) returns (r: Outcome<seq<seq<Cell>>>)
    requires |docs| > 0 && s < |docs[0].sheets|
    ensures r.Ok? <==> SheetSummable(docs, s)
    ensures r.Ok? ==> r.value == SummaryItems(docs, s)
  {
    var items := docs[0].sheets[s].items;
    if |items| == 0 {
      return Fail(Unexpected);
    }
    var cols, rows := |items[0]|, |items|;
    var sheetData: seq<seq<Cell>> := [];
    for i := 0 to rows
      invariant |sheetData| == i
      invariant forall m, j :: 0 <= m < i && 0 <= j < Width(cols) ==> SummaryCell(docs, s, m, j).Ok?
      invariant forall m :: 0 <= m < i ==> sheetData[m] == SummaryRow(docs, s, m, Width(cols))
    {
      var row := SummarizeRow(docs, s, i, cols);
      if row.Fail? {
        return Fail(Unexpected);
      }
      sheetData := sheetData + [row.value];
    }
    return Ok(sheetData);
  }

  /** `calculate_summary_document`: the guard, then one summarised sheet per sheet of the first document. */
  method CalculateSummary(docs: seq<Document>, cfg: Config, env: Env, base: nat) returns (r: Outcome<Document>)
    ensures r == Summarize(docs, cfg, env, base)
  {
    if |docs| != cfg.requiredPeriods {
      return Fail(InternalServerError);
    }
    if |docs| == 0 {
      return Fail(Unexpected);
    }
    if docs[0].docType.key !in cfg.requiredTypes {
      return Fail(InternalServerError);
    }
    var docId := env.token(base);
    var sheets: seq<Sheet> := [];
    for s := 0 to |docs[0].sheets|
      invariant |sheets| == s
      invariant forall t :: 0 <= t < s ==> SheetSummable(docs, t)
      invariant forall t :: 0 <= t < s ==> sheets[t] == SummarySheet(docs, t, docId, env.token(base + 1 + t))
    {
      var items := SummarizeSheet(docs, s);
      if items.Fail? {
        return Fail(Unexpected);
      }
      var source := docs[0].sheets[s];
      sheets := sheets + [Sheet(env.token(base + 1 + s), docs[0].subjectId, docId,
                                source.name + " - Summary", source.number, items.value)];
    }
    var first := docs[0];
    r := Ok(Document(
      docId,
      first.subjectId,
      DocType(first.docType.key + "S", first.docType.name + " - Summary", 2, first.docType.order),
      MaxPeriod(docs),
      Version(1, Author, env.clock(base)),
      sheets));
    assert r.value == SummaryDocument(docs, env, base);
  }

  /** The rows of sheets 1 and 2 of every document of type 001 in the unit tests. */
  const MockItems: seq<seq<seq<Cell>>> := [
    [[Text("a"), Text("b"), Num(1.0), Num(2.0), Num(3.0), Num(4.0)],
     [Text("c"), Text("d"), Num(5.0), Num(6.0), Num(7.0), Num(8.0)]],
    [[Text("a"), Text("b"), Num(1.0), Num(2.0)],
     [Text("c"), Text("d"), Num(3.0), Num(4.0)]]]

  /** Document `i` of type 001 in the unit tests, for the period `p`. */
  function MockDocument(i: string, p: Date): Document {
    Document(i, "1", DocType("001", "doc_name", 1, 1), p, Version(1, "author", 0), [
      Sheet("1", i, "1", "sheet_name_1", 1, MockItems[0]),
      Sheet("2", "1", i, "sheet_name_2", 2, MockItems[1])])
  }

  /** The three documents of type 001, for 1970, 1971 and 1972. */
  const Mock001: seq<Document> := [
    MockDocument("1", Date(1970, 1, 1)),
    MockDocument("2", Date(1971, 1, 1)),
    MockDocument("3", Date(1972, 1, 1))]

  /** `0 + x + x + x`, as `sum` computes it. */
  lemma SumThree(x: real)
    ensures SumCells([Num(x), Num(x), Num(x)]) == Ok(Num(3.0 * x))
  {
    var cs := [Num(x), Num(x), Num(x)];
    assert cs[..2][..1][..0] == [];
    assert SumCells(cs[..2][..1]) == Ok(Num(x));
    assert SumCells(cs[..2]) == Ok(Num(2.0 * x));
  }

  /** Every summed cell of the test documents is three times the cell of one document. */
  lemma MockCell(s: nat, i: nat, j: nat)
    requires s < 2 && i < 2 && 2 <= j < |MockItems[s][i]|
    ensures SummaryCell(Mock001, s, i, j) == Ok(Num(3.0 * MockItems[s][i][j].v))
  {
    var c := MockItems[s][i][j];
    assert Column(Mock001, s, i, j) == [c, c, c];
    SumThree(c.v);
  }

  /** The summed rows the unit tests expect for sheets 1 and 2. */
  const MockSummaryItems: seq<seq<seq<Cell>>> := [
    [[Text("a"), Text("b"), Num(3.0), Num(6.0), Num(9.0), Num(12.0)],
     [Text("c"), Text("d"), Num(15.0), Num(18.0), Num(21.0), Num(24.0)]],
    [[Text("a"), Text("b"), Num(3.0), Num(6.0)],
     [Text("c"), Text("d"), Num(9.0), Num(12.0)]]]

  /** Sheet `s` of the test documents sums to the rows the unit tests expect. */
  lemma MockSheet(s: nat)
    requires s < 2
    ensures SheetSummable(Mock001, s)
    ensures SummaryItems(Mock001, s) == MockSummaryItems[s]
  {
    var w := Width(|MockItems[s][0]|);
    forall i, j | 0 <= i < 2 && 0 <= j < w
      ensures SummaryCell(Mock001, s, i, j) == Ok(MockSummaryItems[s][i][j])
    {
      if j >= 2 {
        MockCell(s, i, j);
      }
    }
    assert SheetSummable(Mock001, s);
    forall i | 0 <= i < 2
      ensures SummaryItems(Mock001, s)[i] == MockSummaryItems[s][i]
    {
      assert SummaryRow(Mock001, s, i, w) == MockSummaryItems[s][i];
    }
  }

  /**
   * The summary of the test documents of type 001: key "001S", the latest
   * period, and every number three times the number of one document.
   */
  lemma SummaryFixture(env: Env)
    ensures Summarize(Mock001, DefaultConfig, env, 0).Ok?
    ensures var d := Summarize(Mock001, DefaultConfig, env, 0).value;
      && d.docType == DocType("001S", "doc_name - Summary", 2, 1)
      && d.period == Date(1972, 1, 1)
      && |d.sheets| == 2
      && d.sheets[0].items == MockSummaryItems[0]
      && d.sheets[1].items == MockSummaryItems[1]
  {
    MockSheet(0);
    MockSheet(1);
    assert MaxPeriod(Mock001) == Date(1972, 1, 1);
    SheetAt(Mock001, DefaultConfig, env, 0, 0);
    SheetAt(Mock001, DefaultConfig, env, 0, 1);
  }

  /** Without the first period the guard raises the 500 error. */
  lemma SummaryFixtureMissingPeriod(env: Env)
    ensures Summarize(Mock001[1..], DefaultConfig, env, 0) == Fail(InternalServerError)
  {
  }
}
