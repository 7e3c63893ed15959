/**
 * The scoring stage (`calculate_scoring_documents`): one scoring document per
 * sheet of the summary documents, whose table crosses the row sums of that
 * sheet with its column sums.
 */
module Scoring {
  import opened Model
  import opened Arith

  /** `str(n)` for a natural number: its decimal digits, most significant first. */
  function NatToString(n: nat): (s: string)
    ensures |s| > 0
    ensures forall i :: 0 <= i < |s| ==> '0' <= s[i] <= '9'
  {
    if n < 10 then [DigitChar(n)] else NatToString(n / 10) + [DigitChar(n % 10)]
  }

  function DigitChar(d: nat): (c: char)
    requires d < 10
    ensures '0' <= c <= '9'
  {
    ('0' as int + d) as char
  }

  /** Reads back a string of decimal digits (the inverse of `NatToString`). */
  function ParseNat(s: string): nat {
    if |s| == 0 then 0
    else
      var c := s[|s| - 1];
      ParseNat(s[..|s| - 1]) * 10 + (if '0' <= c <= '9' then c as int - '0' as int else 0)
  }

  lemma {:induction false} ParseNatToString(n: nat)
    ensures ParseNat(NatToString(n)) == n
  {
    if n >= 10 {
      ParseNatToString(n / 10);
      var s := NatToString(n);
      assert s[..|s| - 1] == NatToString(n / 10);
    }
  }

  /** Different document numbers give different keys and names. */
  lemma NatToStringInjective(a: nat, b: nat)
    requires NatToString(a) == NatToString(b)
    ensures a == b
  {
    ParseNatToString(a);
    ParseNatToString(b);
  }

  /** `all(doc.type.key[-1] == "S" for doc in docs)`: stops at the first false; an empty key raises IndexError. */
  function KeysEndInS(docs: seq<Document>): Outcome<bool> {
    if docs == [] then Ok(true)
    else
      var key := docs[0].docType.key;
      if |key| == 0 then Fail(Unexpected)
      else if key[|key| - 1] != 'S' then Ok(false)
      else KeysEndInS(docs[1..])
  }

  lemma {:induction false} KeysEndInSMeaning(docs: seq<Document>)
    ensures KeysEndInS(docs) == Ok(true) <==>
      forall k :: 0 <= k < |docs| ==> |docs[k].docType.key| > 0 && docs[k].docType.key[|docs[k].docType.key| - 1] == 'S'
    ensures (forall k :: 0 <= k < |docs| ==> |docs[k].docType.key| > 0) ==> KeysEndInS(docs).Ok?
  {
    if docs != [] {
      KeysEndInSMeaning(docs[1..]);
      assert forall k :: 1 <= k < |docs| ==> docs[k] == docs[1..][k - 1];
    }
  }

  /** The length of the shortest row: the number of tuples `zip(*items)` yields. */
  function MinLen(items: seq<seq<Cell>>): (m: nat)
    requires |items| > 0
    ensures forall i :: 0 <= i < |items| ==> m <= |items[i]|
    ensures exists i :: 0 <= i < |items| && |items[i]| == m
  {
    if |items| == 1 then |items[0]|
    else
      var m := MinLen(items[..|items| - 1]);
      var x := |items[|items| - 1]|;
      assert forall i :: 0 <= i < |items| - 1 ==> items[..|items| - 1][i] == items[i];
      if x < m then x else m
  }

  /** The number of columns `list(zip(*items))[2:]` holds. */
  function ColCount(items: seq<seq<Cell>>): (n: nat)
    ensures n > 0 ==> forall i :: 0 <= i < |items| ==> n + 2 <= |items[i]|
  {
    if |items| == 0 || MinLen(items) < 2 then 0 else MinLen(items) - 2
  }

  /** Column `k + 2` of the table: the `k`-th tuple of `list(zip(*items))[2:]`. */
  function ColumnCells(items: seq<seq<Cell>>, k: nat): (col: seq<Cell>)
    requires k < ColCount(items)
    ensures |col| == |items|
    ensures forall i :: 0 <= i < |items| ==> col[i] == items[i][k + 2]
  {
    seq(|items|, i requires 0 <= i < |items| => items[i][k + 2])
  }

  /** `row[2:]`, empty for a row shorter than three cells. */
  function RowTail(row: seq<Cell>): seq<Cell> {
    if |row| < 2 then [] else row[2..]
  }

  /** Every column sum and every row sum is computed without a TypeError. */
  predicate Scorable(items: seq<seq<Cell>>) {
    && (forall k :: 0 <= k < ColCount(items) ==> SumCells(ColumnCells(items, k)).Ok?)
    && (forall i :: 0 <= i < |items| ==> SumCells(RowTail(items[i])).Ok?)
  }

  /** `col_sums`. */
  function ColSums(items: seq<seq<Cell>>): (r: seq<Cell>)
    requires Scorable(items)
    ensures |r| == ColCount(items)
    ensures forall k :: 0 <= k < |r| ==> IsNumber(r[k])
  {
    seq(ColCount(items), k requires 0 <= k < ColCount(items) => SumCells(ColumnCells(items, k)).value)
  }

  /** `row_sums`. */
  function RowSums(items: seq<seq<Cell>>): (r: seq<Cell>)
    requires Scorable(items)
    ensures |r| == |items|
    ensures forall i :: 0 <= i < |r| ==> IsNumber(r[i])
  {
    seq(|items|, i requires 0 <= i < |items| => SumCells(RowTail(items[i])).value)
  }

  /** `cross_product`: one row per row sum, one column per column sum. */
  function CrossTable(rows: seq<Cell>, cols: seq<Cell>): seq<seq<Cell>>
    requires forall i :: 0 <= i < |rows| ==> IsNumber(rows[i])
    requires forall k :: 0 <= k < |cols| ==> IsNumber(cols[k])
  {
    seq(|rows|, i requires 0 <= i < |rows| =>
      seq(|cols|, k requires 0 <= k < |cols| => Cross(rows[i], cols[k])))
  }

  /** The scoring table of one summary sheet. */
  function ScoreItems(items: seq<seq<Cell>>): Outcome<seq<seq<Cell>>> {
    if Scorable(items) then Ok(CrossTable(RowSums(items), ColSums(items))) else Fail(Unexpected)
  }

  /** A summary sheet together with the summary document that holds it. */
  datatype Source = Source(owner: Document, sheet: Sheet)

  function SourcesOf(d: Document): (r: seq<Source>)
    ensures |r| == |d.sheets|
    ensures forall s :: 0 <= s < |r| ==> r[s] == Source(d, d.sheets[s])
  {
    seq(|d.sheets|, s requires 0 <= s < |d.sheets| => Source(d, d.sheets[s]))
  }

  /** The sheets the nested loops visit, in order: document by document, sheet by sheet. */
  function Sources(docs: seq<Document>): seq<Source> {
    if docs == [] then [] else Sources(docs[..|docs| - 1]) + SourcesOf(docs[|docs| - 1])
  }

  lemma {:induction false} SourcesPrefix(docs: seq<Document>, d: nat)
    requires d <= |docs|
    ensures Sources(docs[..d]) <= Sources(docs)
    decreases |docs|
  {
    if d < |docs| {
      var p := docs[..|docs| - 1];
      assert docs[..d] == p[..d];
      SourcesPrefix(p, d);
    } else {
      assert docs[..d] == docs;
    }
  }

  /** Number `m + 1` (counting from one) of the scoring documents, made from `src` with table `items`. */
  function ScoringDocument(src: Source, m: nat, items: seq<seq<Cell>>, env: Env, base: nat): Document {
    var id := env.token(base + 2 * m);
    Document(
      id,
      src.owner.subjectId,
      DocType("SC" + NatToString(m + 1), "Scoring document #" + NatToString(m + 1), 3, m + 1),
      src.owner.period,
      Version(1, Author, env.clock(base + 2 * m)),
      [Sheet(env.token(base + 2 * m + 1), src.owner.subjectId, id, "Scoring", 1, items)])
  }

  /**
   * `calculate_scoring_documents(docs)`: scoring document `m` (from zero)
   * has ids `token(base + 2m)` and `token(base + 2m + 1)`.
   */
  function Score(docs: seq<Document>, cfg: Config, env: Env, base: nat): Outcome<seq<Document>> {
    if |docs| != |cfg.requiredTypes| then Fail(InternalServerError)
    else
      match KeysEndInS(docs)
      case Fail(_) => Fail(Unexpected)
      case Ok(allSummaries) =>
        if !allSummaries then Fail(InternalServerError)
        else
          var srcs := Sources(docs);
          if AllScorable(srcs) then Ok(ScoringDocuments(srcs, Tables(srcs), 0, env, base)) else Fail(Unexpected)
  }

  predicate AllScorable(srcs: seq<Source>) {
    forall m :: 0 <= m < |srcs| ==> Scorable(srcs[m].sheet.items)
  }

  /** The scoring table of each source. */
  function Tables(srcs: seq<Source>): (r: seq<seq<seq<Cell>>>)
    requires AllScorable(srcs)
    ensures |r| == |srcs|
  {
    seq(|srcs|, m requires 0 <= m < |srcs| => ScoreItems(srcs[m].sheet.items).value)
  }

  /** The scoring documents made from `srcs` with their `tables`, numbered in order from `first`. */
  function ScoringDocuments(srcs: seq<Source>, tables: seq<seq<seq<Cell>>>, first: nat, env: Env, base: nat)
    : seq<Document>
    requires |tables| == |srcs|
  {
    seq(|srcs|, m requires 0 <= m < |srcs| => ScoringDocument(srcs[m], first + m, tables[m], env, base))
  }

  /**
   * The guard: the wrong number of summary documents, or a key without the
   * summary suffix "S", raises the 500 error; an empty key raises IndexError.
   */
  lemma ScoreGuard(docs: seq<Document>, cfg: Config, env: Env, base: nat)
    ensures |docs| != |cfg.requiredTypes| ==> Score(docs, cfg, env, base) == Fail(InternalServerError)
    ensures (&& |docs| == |cfg.requiredTypes|
             && (forall k :: 0 <= k < |docs| ==> |docs[k].docType.key| > 0)
             && (exists k :: 0 <= k < |docs| && docs[k].docType.key[|docs[k].docType.key| - 1] != 'S'))
      ==> Score(docs, cfg, env, base) == Fail(InternalServerError)
    ensures Score(docs, cfg, env, base).Ok? ==>
      && |docs| == |cfg.requiredTypes|
      && forall k :: 0 <= k < |docs| ==>
        |docs[k].docType.key| > 0 && docs[k].docType.key[|docs[k].docType.key| - 1] == 'S'
  {
    KeysEndInSMeaning(docs);
  }

  lemma {:induction false} AllSheetsAppend(a: seq<Document>, b: seq<Document>)
    ensures AllSheets(a + b) == AllSheets(a) + AllSheets(b)
  {
    if a == [] {
      assert a + b == b;
    } else {
      assert (a + b)[1..] == a[1..] + b;
      AllSheetsAppend(a[1..], b);
    }
  }

  /** The loops visit exactly the sheets of the summary documents, in order, each with its owner. */
  lemma {:induction false} SourcesAreAllSheets(docs: seq<Document>)
    ensures |Sources(docs)| == |AllSheets(docs)|
    ensures forall m :: 0 <= m < |Sources(docs)| ==>
      Sources(docs)[m].sheet == AllSheets(docs)[m] && Sources(docs)[m].owner in docs
  {
    if docs != [] {
      var p, d := docs[..|docs| - 1], docs[|docs| - 1];
      SourcesAreAllSheets(p);
      assert docs == p + [d];
      AllSheetsAppend(p, [d]);
      assert AllSheets([d]) == d.sheets + AllSheets([]);
      assert forall x :: x in p ==> x in docs;
    }
  }

  /**
   * The sheets of document `k` are visited right after the sheets of the
   * documents before it, in order, each paired with document `k` itself.
   */
  lemma SourcesOrder(docs: seq<Document>, k: nat)
    requires k < |docs|
    ensures var at := |AllSheets(docs[..k])|;
      && at + |docs[k].sheets| <= |Sources(docs)|
      && forall s :: 0 <= s < |docs[k].sheets| ==> Sources(docs)[at + s] == Source(docs[k], docs[k].sheets[s])
  {
    var before, upto, all := Sources(docs[..k]), Sources(docs[..k + 1]), Sources(docs);
    var mine := SourcesOf(docs[k]);
    SourcesSplit(docs, k);
    assert upto == before + mine;
    SourcesPrefix(docs, k + 1);
    assert upto <= all;
    SourcesLength(docs[..k]);
    var at := |before|;
    forall s | 0 <= s < |docs[k].sheets|
      ensures all[at + s] == Source(docs[k], docs[k].sheets[s])
    {
      assert all[at + s] == upto[at + s] == mine[s];
    }
  }

  /** There is one source per sheet. */
  lemma {:induction false} SourcesLength(docs: seq<Document>)
    ensures |Sources(docs)| == |AllSheets(docs)|
  {
    if docs != [] {
      var p, d := docs[..|docs| - 1], docs[|docs| - 1];
      SourcesLength(p);
      assert docs == p + [d];
      AllSheetsAppend(p, [d]);
      assert AllSheets([d]) == d.sheets + AllSheets([]);
    }
  }

  /**
   * A successful scoring stage makes one document per summary sheet: number
   * `m + 1` carries key "SC<m + 1>", the owner's subject and period, ids
   * `token(base + 2m)` and `token(base + 2m + 1)` and the scoring table of
   * that sheet; every key has the prefix "SC" and no two keys are equal.
   */
  lemma ScoringDocumentsShape(docs: seq<Document>, cfg: Config, env: Env, base: nat)
    requires Score(docs, cfg, env, base).Ok?
    ensures var out := Score(docs, cfg, env, base).value;
      && |out| == |AllSheets(docs)|
      && (forall m :: 0 <= m < |out| ==>
        var src := Sources(docs)[m];
        && src.sheet == AllSheets(docs)[m]
        && out[m].id == env.token(base + 2 * m)
        && out[m].subjectId == src.owner.subjectId
        && out[m].period == src.owner.period
        && out[m].docType == DocType("SC" + NatToString(m + 1), "Scoring document #" + NatToString(m + 1), 3, m + 1)
        && out[m].version == Version(1, Author, env.clock(base + 2 * m))
        && |out[m].sheets| == 1
        && out[m].sheets[0] == Sheet(env.token(base + 2 * m + 1), src.owner.subjectId, out[m].id, "Scoring", 1,
                                     ScoreItems(src.sheet.items).value)
        && OwnsSheets(out[m])
        && out[m].docType.key[..2] == "SC")
      && forall m, n :: 0 <= m < n < |out| ==> out[m].docType.key != out[n].docType.key
  {
    SourcesAreAllSheets(docs);
    var out := Score(docs, cfg, env, base).value;
    forall m, n | 0 <= m < n < |out|
      ensures out[m].docType.key != out[n].docType.key
    {
      var a, b := NatToString(m + 1), NatToString(n + 1);
      if out[m].docType.key == out[n].docType.key {
        assert ("SC" + a)[2..] == a && ("SC" + b)[2..] == b;
        NatToStringInjective(m + 1, n + 1);
      }
    }
  }

  /**
   * A scoring cell is NaN iff a sum is NaN or the two sums cancel out; otherwise
   * it is the product over the sum, that is half the harmonic mean of the two
   * sums, and it does not depend on which of them is the row sum.
   */
  lemma CrossMeaning(r: Cell, c: Cell)
    requires IsNumber(r) && IsNumber(c)
    ensures Cross(r, c) == Cross(c, r)
    ensures Cross(r, c).NaN? <==> r.NaN? || c.NaN? || r.v + c.v == 0.0
    ensures Cross(r, c).Num? ==> Cross(r, c).v * (r.v + c.v) == r.v * c.v
    ensures Cross(r, c).Num? && r.v != 0.0 && c.v != 0.0 ==>
      Cross(r, c).v != 0.0 && 1.0 / Cross(r, c).v == 1.0 / r.v + 1.0 / c.v
  {
    if Cross(r, c).Num? && r.v != 0.0 && c.v != 0.0 {
      var v := Cross(r, c).v;
      assert v * (r.v + c.v) == r.v * c.v;
      assert v != 0.0;
      calc {
        1.0 / v;
        (r.v + c.v) / (r.v * c.v);
        1.0 / r.v + 1.0 / c.v;
      }
    }
  }

  /**
   * Cell (i, k) of a scoring table crosses the real sum of row `i` from column
   * 2 on with the real sum of column `k + 2` over all rows; the table has one
   * row per input row and one column per column the shortest row has past the
   * labels.
   */
  lemma ScoreItemsMeaning(items: seq<seq<Cell>>)
    ensures ScoreItems(items).Ok? <==>
      && (forall k :: 0 <= k < ColCount(items) ==> AllNumeric(ColumnCells(items, k)))
      && (forall i :: 0 <= i < |items| ==> AllNumeric(RowTail(items[i])))
    ensures ScoreItems(items).Ok? ==>
      var t := ScoreItems(items).value;
      && |t| == |items|
      && forall i :: 0 <= i < |t| ==>
        && |t[i]| == ColCount(items)
        && forall k :: 0 <= k < |t[i]| ==>
          var row, col := RowTail(items[i]), ColumnCells(items, k);
          (!HasNaN(row) && !HasNaN(col) ==>
            t[i][k] == Cross(Num(Total(row)), Num(Total(col))))
          && (HasNaN(row) || HasNaN(col) ==> t[i][k] == NaN)
  {
    forall k | 0 <= k < ColCount(items) {
      SumCellsMeaning(ColumnCells(items, k));
    }
    forall i | 0 <= i < |items| {
      SumCellsMeaning(RowTail(items[i]));
    }
  }

  /** The label columns 0 and 1 never influence a scoring table. */
  lemma LabelsIgnored(items: seq<seq<Cell>>, items': seq<seq<Cell>>)
    requires |items| == |items'|
    requires forall i :: 0 <= i < |items| ==> |items[i]| == |items'[i]| && RowTail(items[i]) == RowTail(items'[i])
    ensures ScoreItems(items) == ScoreItems(items')
  {
    if |items| > 0 {
      var a, b := MinLen(items), MinLen(items');
      assert a == b by {
        var i :| 0 <= i < |items| && |items[i]| == a;
        var j :| 0 <= j < |items'| && |items'[j]| == b;
        assert b <= |items'[i]|;
        assert a <= |items[j]|;
      }
    }
    forall k | 0 <= k < ColCount(items)
      ensures ColumnCells(items, k) == ColumnCells(items', k)
    {
      forall i | 0 <= i < |items|
        ensures items[i][k + 2] == items'[i][k + 2]
      {
        assert items[i][k + 2] == RowTail(items[i])[k];
        assert items'[i][k + 2] == RowTail(items'[i])[k];
      }
    }
    assert ColCount(items) == ColCount(items');
    if Scorable(items) {
      assert Scorable(items');
      assert ColSums(items) == ColSums(items');
      assert RowSums(items) == RowSums(items');
    } else {
      assert !Scorable(items');
    }
  }

  /**
   * A sheet of the summaries the service's unit tests build: the first sheet of
   * the type "001" summary, and both sheets of the type "002" summary.
   */
  const FixtureSummary: seq<seq<Cell>> := [
    [Text("a"), Text("b"), Num(3.0), Num(6.0), Num(9.0), Num(12.0)],
    [Text("c"), Text("d"), Num(15.0), Num(18.0), Num(21.0), Num(24.0)]]

  /**
   * The first scoring table of the service's own unit test: row sums 30 and
   * 78 crossed with column sums 18, 24, 30 and 36.
   */
  lemma FixtureTable()
    ensures ScoreItems(FixtureSummary) == Ok([
      [Num(11.25), Num(40.0 / 3.0), Num(15.0), Num(180.0 / 11.0)],
      [Num(14.625), Num(312.0 / 17.0), Num(65.0 / 3.0), Num(468.0 / 19.0)]])
  {
    FixtureSums();
    FixtureCross();
  }

  lemma FixtureCross()
    ensures CrossTable([Num(30.0), Num(78.0)], [Num(18.0), Num(24.0), Num(30.0), Num(36.0)]) == [
      [Num(11.25), Num(40.0 / 3.0), Num(15.0), Num(180.0 / 11.0)],
      [Num(14.625), Num(312.0 / 17.0), Num(65.0 / 3.0), Num(468.0 / 19.0)]]
  {
    var table := CrossTable([Num(30.0), Num(78.0)], [Num(18.0), Num(24.0), Num(30.0), Num(36.0)]);
    assert table[0] == [Num(11.25), Num(40.0 / 3.0), Num(15.0), Num(180.0 / 11.0)];
    assert table[1] == [Num(14.625), Num(312.0 / 17.0), Num(65.0 / 3.0), Num(468.0 / 19.0)];
    assert table == [table[0], table[1]];
  }

  lemma FixtureSums()
    ensures Scorable(FixtureSummary)
    ensures RowSums(FixtureSummary) == [Num(30.0), Num(78.0)]
    ensures ColSums(FixtureSummary) == [Num(18.0), Num(24.0), Num(30.0), Num(36.0)]
  {
    var items := FixtureSummary;
    FixtureColumns();
    assert RowTail(items[0]) == [Num(3.0), Num(6.0), Num(9.0), Num(12.0)];
    assert RowTail(items[1]) == [Num(15.0), Num(18.0), Num(21.0), Num(24.0)];
    SumOfFour(3.0, 6.0, 9.0, 12.0);
    SumOfFour(15.0, 18.0, 21.0, 24.0);
  }

  /** The four columns of the fixture past its two label columns, and their sums. */
  lemma FixtureColumns()
    ensures ColCount(FixtureSummary) == 4
    ensures var cols := [[Num(3.0), Num(15.0)], [Num(6.0), Num(18.0)], [Num(9.0), Num(21.0)], [Num(12.0), Num(24.0)]];
      forall k :: 0 <= k < 4 ==>
        ColumnCells(FixtureSummary, k) == cols[k] && SumCells(cols[k]) == Ok(Num(cols[k][0].v + cols[k][1].v))
  {
    var items := FixtureSummary;
    assert MinLen(items) == 6;
    var cols := [[Num(3.0), Num(15.0)], [Num(6.0), Num(18.0)], [Num(9.0), Num(21.0)], [Num(12.0), Num(24.0)]];
    forall k | 0 <= k < 4
      ensures ColumnCells(items, k) == cols[k] && SumCells(cols[k]) == Ok(Num(cols[k][0].v + cols[k][1].v))
    {
      assert cols[k][..1] == [cols[k][0]] && [cols[k][0]][..0] == [];
    }
  }

  lemma SumOfFour(a: real, b: real, c: real, d: real)
    ensures SumCells([Num(a), Num(b), Num(c), Num(d)]) == Ok(Num(a + b + c + d))
  {
    var s := [Num(a), Num(b), Num(c), Num(d)];
    assert s[..3] == [Num(a), Num(b), Num(c)];
    assert s[..3][..2] == [Num(a), Num(b)];
    assert s[..3][..2][..1] == [Num(a)];
    assert s[..3][..2][..1][..0] == [];
    assert SumCells(s[..3][..2][..1]) == Ok(Num(a));
    assert SumCells(s[..3][..2]) == Ok(Num(a + b));
    assert SumCells(s[..3]) == Ok(Num(a + b + c));
  }

  /** The second sheet of the type "001" summary the service's unit tests build. */
  const FixtureSummary2: seq<seq<Cell>> := [
    [Text("a"), Text("b"), Num(3.0), Num(6.0)],
    [Text("c"), Text("d"), Num(9.0), Num(12.0)]]

  /**
   * The second scoring table of the service's own unit test: row sums 9 and
   * 21 crossed with column sums 12 and 18.
   */
  lemma FixtureTable2()
    ensures ScoreItems(FixtureSummary2) == Ok([
      [Num(36.0 / 7.0), Num(6.0)],
      [Num(84.0 / 11.0), Num(126.0 / 13.0)]])
  {
    FixtureSums2();
    var table := CrossTable([Num(9.0), Num(21.0)], [Num(12.0), Num(18.0)]);
    assert table[0] == [Num(36.0 / 7.0), Num(6.0)];
    assert table[1] == [Num(84.0 / 11.0), Num(126.0 / 13.0)];
    assert table == [table[0], table[1]];
  }

  lemma FixtureSums2()
    ensures Scorable(FixtureSummary2)
    ensures RowSums(FixtureSummary2) == [Num(9.0), Num(21.0)]
    ensures ColSums(FixtureSummary2) == [Num(12.0), Num(18.0)]
  {
    var items := FixtureSummary2;
    assert MinLen(items) == 4;
    var cols := [[Num(3.0), Num(9.0)], [Num(6.0), Num(12.0)]];
    forall k | 0 <= k < 2
      ensures ColumnCells(items, k) == cols[k] && SumCells(cols[k]) == Ok(Num(cols[k][0].v + cols[k][1].v))
    {
      assert cols[k][..1] == [cols[k][0]] && [cols[k][0]][..0] == [];
    }
    assert RowTail(items[0]) == cols[0][..1] + cols[1][..1];
    assert RowTail(items[1]) == cols[0][1..] + cols[1][1..];
    SumOfTwo(3.0, 6.0);
    SumOfTwo(9.0, 12.0);
  }

  lemma SumOfTwo(a: real, b: real)
    ensures SumCells([Num(a), Num(b)]) == Ok(Num(a + b))
  {
    var s := [Num(a), Num(b)];
    assert s[..1] == [Num(a)] && s[..1][..0] == [];
    assert SumCells(s[..1]) == Ok(Num(a));
  }

  /** The inner loop over the sheets of one summary document; `m0` documents were made before. */
  method ScoreDocumentSheets(doc: Document, m0: nat, env: Env, base: nat) returns (r: Outcome<seq<Document>>)
    ensures r.Ok? <==> AllScorable(SourcesOf(doc))
    ensures r.Ok? ==> r.value == ScoringDocuments(SourcesOf(doc), Tables(SourcesOf(doc)), m0, env, base)
    ensures r.Fail? ==> r.failure == Unexpected
  {
    var out: seq<Document> := [];
    for s := 0 to |doc.sheets|
      invariant |out| == s
      invariant forall n :: 0 <= n < s ==>
        Scorable(doc.sheets[n].items) &&
        out[n] == ScoringDocument(Source(doc, doc.sheets[n]), m0 + n, ScoreItems(doc.sheets[n].items).value, env, base)
    {
      var items := ScoreItems(doc.sheets[s].items);
      if items.Fail? {
        SheetUnscorable(doc, s);
        return Fail(Unexpected);
      }
      out := out + [ScoringDocument(Source(doc, doc.sheets[s]), m0 + s, items.value, env, base)];
    }
    SheetsScored(doc, out, m0, env, base);
    return Ok(out);
  }

  /** One sheet that cannot be scored makes the whole document unscorable. */
  lemma SheetUnscorable(doc: Document, s: nat)
    requires s < |doc.sheets| && ScoreItems(doc.sheets[s].items).Fail?
    ensures !AllScorable(SourcesOf(doc))
  {
    assert SourcesOf(doc)[s].sheet == doc.sheets[s];
  }

  /** The sheets scored one by one are the document's scoring documents. */
  lemma SheetsScored(doc: Document, out: seq<Document>, m0: nat, env: Env, base: nat)
    requires |out| == |doc.sheets|
    requires forall n :: 0 <= n < |out| ==>
      Scorable(doc.sheets[n].items) &&
      out[n] == ScoringDocument(Source(doc, doc.sheets[n]), m0 + n, ScoreItems(doc.sheets[n].items).value, env, base)
    ensures AllScorable(SourcesOf(doc))
    ensures out == ScoringDocuments(SourcesOf(doc), Tables(SourcesOf(doc)), m0, env, base)
  {
    var srcs := SourcesOf(doc);
    assert AllScorable(srcs) by {
      forall m | 0 <= m < |srcs|
        ensures Scorable(srcs[m].sheet.items)
      {
        assert srcs[m].sheet == doc.sheets[m];
      }
    }
    var made := ScoringDocuments(srcs, Tables(srcs), m0, env, base);
    forall n | 0 <= n < |out|
      ensures out[n] == made[n]
    {
      assert srcs[n] == Source(doc, doc.sheets[n]);
    }
  }

  /** The sources of document `d` follow those of the documents before it. */
  lemma SourcesSplit(docs: seq<Document>, d: nat)
    requires d < |docs|
    ensures Sources(docs[..d + 1]) == Sources(docs[..d]) + SourcesOf(docs[d])
  {
    assert docs[..d + 1][..d] == docs[..d];
  }

  lemma ScorableAppend(a: seq<Source>, b: seq<Source>)
    requires AllScorable(a) && AllScorable(b)
    ensures AllScorable(a + b)
  {
    var ab := a + b;
    forall m | 0 <= m < |ab|
      ensures Scorable(ab[m].sheet.items)
    {
      if m < |a| { assert ab[m] == a[m]; } else { assert ab[m] == b[m - |a|]; }
    }
  }

  lemma TablesAppend(a: seq<Source>, b: seq<Source>)
    requires AllScorable(a) && AllScorable(b) && AllScorable(a + b)
    ensures Tables(a + b) == Tables(a) + Tables(b)
  {
    var lhs, rhs := Tables(a + b), Tables(a) + Tables(b);
    forall m | 0 <= m < |lhs|
      ensures lhs[m] == rhs[m]
    {
      if m < |a| {
        assert (a + b)[m] == a[m];
      } else {
        assert (a + b)[m] == b[m - |a|];
      }
    }
    assert lhs == rhs;
  }

  /** Numbering runs on across a concatenation: the documents of `b` come after those of `a`. */
  lemma ScoringAppend(a: seq<Source>, b: seq<Source>, ta: seq<seq<seq<Cell>>>, tb: seq<seq<seq<Cell>>>,
                      first: nat, env: Env, base: nat)
    requires |ta| == |a| && |tb| == |b|
    ensures ScoringDocuments(a + b, ta + tb, first, env, base)
      == ScoringDocuments(a, ta, first, env, base) + ScoringDocuments(b, tb, first + |a|, env, base)
  {
    var lhs := ScoringDocuments(a + b, ta + tb, first, env, base);
    var rhs := ScoringDocuments(a, ta, first, env, base) + ScoringDocuments(b, tb, first + |a|, env, base);
    forall m | 0 <= m < |lhs|
      ensures lhs[m] == rhs[m]
    {
      if m < |a| {
        assert (a + b)[m] == a[m] && (ta + tb)[m] == ta[m];
      } else {
        assert (a + b)[m] == b[m - |a|] && (ta + tb)[m] == tb[m - |a|];
      }
    }
    assert lhs == rhs;
  }

  /** The scoring documents of `a + b`: those of `a`, then those of `b` numbered on from them. */
  lemma ScoringConcat(ab: seq<Source>, a: seq<Source>, b: seq<Source>, first: nat, env: Env, base: nat)
    requires AllScorable(a) && AllScorable(b) && ab == a + b
    ensures AllScorable(ab)
    ensures ScoringDocuments(ab, Tables(ab), first, env, base)
      == ScoringDocuments(a, Tables(a), first, env, base) + ScoringDocuments(b, Tables(b), first + |a|, env, base)
  {
    ScorableAppend(a, b);
    TablesAppend(a, b);
    ScoringAppend(a, b, Tables(a), Tables(b), first, env, base);
  }

  /** A sheet that cannot be scored in document `d` is one of the sheets of all of them. */
  lemma UnscorableStep(docs: seq<Document>, d: nat)
    requires d < |docs|
    requires !AllScorable(SourcesOf(docs[d]))
    ensures !AllScorable(Sources(docs))
  {
    var s :| 0 <= s < |docs[d].sheets| && !Scorable(SourcesOf(docs[d])[s].sheet.items);
    SourcesOrder(docs, d);
    assert Sources(docs)[|AllSheets(docs[..d])| + s] == SourcesOf(docs[d])[s];
  }

  /** The nested loops: one scoring document per summary sheet, numbered in visiting order. */
  method ScoreAllSheets(docs: seq<Document>, env: Env, base: nat) returns (r: Outcome<seq<Document>>)
    ensures r.Ok? <==> AllScorable(Sources(docs))
    ensures r.Ok? ==> r.value == ScoringDocuments(Sources(docs), Tables(Sources(docs)), 0, env, base)
    ensures r.Fail? ==> r.failure == Unexpected
  {
    var out: seq<Document> := [];
    for d := 0 to |docs|
      invariant AllScorable(Sources(docs[..d]))
      invariant out == ScoringDocuments(Sources(docs[..d]), Tables(Sources(docs[..d])), 0, env, base)
    {
      var made := ScoreDocumentSheets(docs[d], |out|, env, base);
      if made.Fail? {
        UnscorableStep(docs, d);
        return Fail(Unexpected);
      }
      ghost var pre, next := Sources(docs[..d]), Sources(docs[..d + 1]);
      SourcesSplit(docs, d);
      ScoringConcat(next, pre, SourcesOf(docs[d]), 0, env, base);
      out := out + made.value;
    }
    assert docs[..|docs|] == docs;
    return Ok(out);
  }

  /** `calculate_scoring_documents`: the guard, then one scoring document per summary sheet. */
  method CalculateScoring(docs: seq<Document>, cfg: Config, env: Env, base: nat) returns (r: Outcome<seq<Document>>)
    ensures r == Score(docs, cfg, env, base)
  {
    if |docs| != |cfg.requiredTypes| {
      return Fail(InternalServerError);
    }
    var allSummaries := KeysEndInS(docs);
    if allSummaries.Fail? {
      return Fail(Unexpected);
    }
    if !allSummaries.value {
      return Fail(InternalServerError);
    }
    r := ScoreAllSheets(docs, env, base);
  }
}
