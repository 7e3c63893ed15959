/**
 * The final stage (`calculate_final_document`): four scoring documents and
 * the optional cashflow and loan documents give a ten-row verdict sheet.
 */
module Final {
  import opened Model
  import opened Arith
  import Scoring

  /** `doc.sheets[sheet]` exists in every document and every row of it has a cell `col`. */
  predicate AuxAvailable(docs: seq<Document>, sheet: nat, col: nat) {
    forall k :: 0 <= k < |docs| ==>
      && sheet < |docs[k].sheets|
      && forall i :: 0 <= i < |docs[k].sheets[sheet].items| ==> col < |docs[k].sheets[sheet].items[i]|
  }

  /** The cells `row[col] for doc in docs for row in doc.sheets[sheet].items`, in that order. */
  function AuxCells(docs: seq<Document>, sheet: nat, col: nat): seq<Cell>
    requires AuxAvailable(docs, sheet, col)
  {
    if docs == [] then []
    else
      var rows := docs[0].sheets[sheet].items;
      seq(|rows|, i requires 0 <= i < |rows| => rows[i][col]) + AuxCells(docs[1..], sheet, col)
  }

  /** `sum(row[col] for doc in docs for row in doc.sheets[sheet].items)`. */
  function AuxSum(docs: seq<Document>, sheet: nat, col: nat): Outcome<Cell> {
    if AuxAvailable(docs, sheet, col) then SumCells(AuxCells(docs, sheet, col)) else Fail(Unexpected)
  }

  /** What the auxiliary documents contribute to the verdict. */
  datatype Flags = Flags(hasLoans: bool, loanAmount: Cell, suspicious: bool, cashflow: Cell, capital: Cell)

  /**
   * The flags and sums of the loan documents (column 5 of sheet 0) and of the
   * cashflow documents (column 1 of sheet 0, column 4 of sheet 1); an absent
   * list is an empty one and contributes 0.
   */
  function DeriveFlags(cashflowDocs: seq<Document>, loanDocs: seq<Document>): Outcome<Flags> {
    var hasLoans := |loanDocs| > 0;
    var loans := if hasLoans then AuxSum(loanDocs, 0, 5) else Ok(Num(0.0));
    var cashflow := if |cashflowDocs| > 0 then AuxSum(cashflowDocs, 0, 1) else Ok(Num(0.0));
    var capital := if |cashflowDocs| > 0 then AuxSum(cashflowDocs, 1, 4) else Ok(Num(0.0));
    if loans.Fail? || cashflow.Fail? || capital.Fail? then Fail(Unexpected)
    else
      var suspicious := Greater(cashflow.value, Times(capital.value, 10.0));
      Ok(Flags(hasLoans, loans.value, suspicious, cashflow.value, capital.value))
  }

  /**
   * `sum(row) / len(row)` of the last row of sheet 0: IndexError without a
   * sheet or a row, ZeroDivisionError for an empty row.
   */
  function RowAverage(d: Document): (r: Outcome<Cell>)
    ensures r.Ok? ==> IsNumber(r.value)
  {
    if |d.sheets| == 0 || |d.sheets[0].items| == 0 then Fail(Unexpected)
    else
      var row := d.sheets[0].items[|d.sheets[0].items| - 1];
      var total := SumCells(row);
      if total.Fail? || |row| == 0 then Fail(Unexpected)
      else if total.value.NaN? then Ok(NaN)
      else Ok(Num(total.value.v / |row| as real))
  }

  /** The decision table: each of the four combinations of the flags has its own coefficient. */
  function Coefficient(hasLoans: bool, suspicious: bool): (c: real)
    ensures c == 0.1 <==> hasLoans && suspicious
    ensures c == 0.2 <==> !hasLoans && suspicious
    ensures c == 0.5 <==> hasLoans && !suspicious
    ensures c == 0.8 <==> !hasLoans && !suspicious
  {
    if hasLoans && suspicious then 0.1
    else if !hasLoans && suspicious then 0.2
    else if hasLoans && !suspicious then 0.5
    else 0.8
  }

  /** `final_scoring`, accumulated from 0 as the source does. */
  function FinalScore(a1: Cell, a2: Cell, a3: Cell, a4: Cell, c: real): Cell
    requires IsNumber(a1) && IsNumber(a2) && IsNumber(a3) && IsNumber(a4)
  {
    Plus(Plus(Plus(Plus(Num(0.0), Times(a1, c)), Times(a2, c)), Times(a3, 1.0 - c)), Times(a4, c))
  }

  /** The labels of the verdict sheet's rows, in order. */
  const VerdictLabels: seq<string> := [
    "Subject has loans", "Loan amount", "Subject has suspicious cashflow", "Cashflow", "Capital",
    "SC#1", "SC#2", "SC#3", "SC#4", "Final scoring"]

  /** The verdict sheet's rows: number, label, value. */
  function VerdictItems(f: Flags, a1: Cell, a2: Cell, a3: Cell, a4: Cell, score: Cell): seq<seq<Cell>> {
    [
      [Num(1.0), Text("Subject has loans"), Bool(f.hasLoans)],
      [Num(2.0), Text("Loan amount"), f.loanAmount],
      [Num(3.0), Text("Subject has suspicious cashflow"), Bool(f.suspicious)],
      [Num(4.0), Text("Cashflow"), f.cashflow],
      [Num(5.0), Text("Capital"), f.capital],
      [Num(6.0), Text("SC#1"), a1],
      [Num(7.0), Text("SC#2"), a2],
      [Num(8.0), Text("SC#3"), a3],
      [Num(9.0), Text("SC#4"), a4],
      [Num(10.0), Text("Final scoring"), score]
    ]
  }

  /** The defensive check: exactly four documents, every key prefixed "SC". */
  predicate FinalGuardPasses(docs: seq<Document>) {
    |docs| == 4 && forall k :: 0 <= k < |docs| ==> "SC" <= docs[k].docType.key
  }

  /**
   * `calculate_final_document(docs, cashflow_docs=..., loan_docs=...)`; the
   * document's id is `token(base)`, its sheet's `token(base + 1)`.
   */
  function Finalize(docs: seq<Document>, cashflowDocs: seq<Document>, loanDocs: seq<Document>,
                    env: Env, base: nat): Outcome<Document>
  {
    if !FinalGuardPasses(docs) then Fail(InternalServerError)
    else
      var flags := DeriveFlags(cashflowDocs, loanDocs);
      var a1, a2, a3, a4 := RowAverage(docs[0]), RowAverage(docs[1]), RowAverage(docs[2]), RowAverage(docs[3]);
      if flags.Fail? || a1.Fail? || a2.Fail? || a3.Fail? || a4.Fail? then Fail(Unexpected)
      else
        Ok(VerdictDocument(docs[0], flags.value, a1.value, a2.value, a3.value, a4.value, env, base))
  }

  /** The final document, given the first scoring document, the flags and the four averages. */
  function VerdictDocument(first: Document, f: Flags, a1: Cell, a2: Cell, a3: Cell, a4: Cell,
                           env: Env, base: nat): Document
    requires IsNumber(a1) && IsNumber(a2) && IsNumber(a3) && IsNumber(a4)
  {
    var c := Coefficient(f.hasLoans, f.suspicious);
    var score := FinalScore(a1, a2, a3, a4, c);
    var id := env.token(base);
    Document(
      id,
      first.subjectId,
      DocType("FC", "Final scoring", 4, 1),
      first.period,
      Version(1, Author, env.clock(base)),
      [Sheet(env.token(base + 1), first.subjectId, id, "Final scoring", 1, VerdictItems(f, a1, a2, a3, a4, score))])
  }

  /** The 500 error is raised exactly when the defensive check fails; every later error is unexpected. */
  lemma FinalGuard(docs: seq<Document>, cashflowDocs: seq<Document>, loanDocs: seq<Document>, env: Env, base: nat)
    ensures Finalize(docs, cashflowDocs, loanDocs, env, base) == Fail(InternalServerError) <==>
      |docs| != 4 || exists k :: 0 <= k < |docs| && !("SC" <= docs[k].docType.key)
    ensures Finalize(docs, cashflowDocs, loanDocs, env, base).Fail? && FinalGuardPasses(docs) ==>
      Finalize(docs, cashflowDocs, loanDocs, env, base).failure == Unexpected
  {
  }

  /**
   * The flags: loans iff there is a loan document; the three sums are the
   * real sums of their columns (NaN if a NaN is summed, a TypeError if a
   * string or null is); suspicious iff both sums are numbers and the cashflow
   * exceeds ten times the capital. Without cashflow documents both sums are 0
   * and the subject is never suspicious; without loan documents the loan
   * amount is 0.
   */
  lemma FlagsMeaning(cashflowDocs: seq<Document>, loanDocs: seq<Document>)
    ensures var r := DeriveFlags(cashflowDocs, loanDocs);
      && (r.Ok? <==>
        && (|loanDocs| > 0 ==> AuxAvailable(loanDocs, 0, 5) && AllNumeric(AuxCells(loanDocs, 0, 5)))
        && (|cashflowDocs| > 0 ==> AuxAvailable(cashflowDocs, 0, 1) && AllNumeric(AuxCells(cashflowDocs, 0, 1)))
        && (|cashflowDocs| > 0 ==> AuxAvailable(cashflowDocs, 1, 4) && AllNumeric(AuxCells(cashflowDocs, 1, 4))))
      && (r.Ok? ==>
        && (r.value.hasLoans <==> |loanDocs| > 0)
        && (r.value.suspicious <==>
          r.value.cashflow.Num? && r.value.capital.Num? && r.value.cashflow.v > r.value.capital.v * 10.0)
        && (|loanDocs| == 0 ==> r.value.loanAmount == Num(0.0))
        && (|cashflowDocs| == 0 ==> r.value.cashflow == Num(0.0) && r.value.capital == Num(0.0) && !r.value.suspicious)
        && (|loanDocs| > 0 && !HasNaN(AuxCells(loanDocs, 0, 5)) ==>
          r.value.loanAmount == Num(Total(AuxCells(loanDocs, 0, 5))))
        && (|cashflowDocs| > 0 && !HasNaN(AuxCells(cashflowDocs, 0, 1)) ==>
          r.value.cashflow == Num(Total(AuxCells(cashflowDocs, 0, 1))))
        && (|cashflowDocs| > 0 && !HasNaN(AuxCells(cashflowDocs, 1, 4)) ==>
          r.value.capital == Num(Total(AuxCells(cashflowDocs, 1, 4))))
        && (|loanDocs| > 0 && HasNaN(AuxCells(loanDocs, 0, 5)) ==> r.value.loanAmount == NaN)
        && (|cashflowDocs| > 0 && HasNaN(AuxCells(cashflowDocs, 0, 1)) ==> r.value.cashflow == NaN)
        && (|cashflowDocs| > 0 && HasNaN(AuxCells(cashflowDocs, 1, 4)) ==> r.value.capital == NaN))
  {
    if |loanDocs| > 0 && AuxAvailable(loanDocs, 0, 5) {
      SumCellsMeaning(AuxCells(loanDocs, 0, 5));
    }
    if |cashflowDocs| > 0 && AuxAvailable(cashflowDocs, 0, 1) {
      SumCellsMeaning(AuxCells(cashflowDocs, 0, 1));
    }
    if |cashflowDocs| > 0 && AuxAvailable(cashflowDocs, 1, 4) {
      SumCellsMeaning(AuxCells(cashflowDocs, 1, 4));
    }
  }

  /** The mean of the last row of sheet 0: its real sum over its length, or NaN if it holds a NaN. */
  lemma RowAverageMeaning(d: Document)
    ensures RowAverage(d).Ok? <==>
      && |d.sheets| > 0 && |d.sheets[0].items| > 0
      && var row := d.sheets[0].items[|d.sheets[0].items| - 1];
        |row| > 0 && AllNumeric(row)
    ensures RowAverage(d).Ok? ==>
      var row := d.sheets[0].items[|d.sheets[0].items| - 1];
      && (RowAverage(d) == Ok(NaN) <==> HasNaN(row))
      && (!HasNaN(row) ==> RowAverage(d) == Ok(Num(Total(row) / |row| as real)))
  {
    if |d.sheets| > 0 && |d.sheets[0].items| > 0 {
      SumCellsMeaning(d.sheets[0].items[|d.sheets[0].items| - 1]);
    }
  }

  /**
   * The final score weighs averages 1, 2 and 4 by the coefficient and
   * average 3 by its complement; it is NaN iff one of the averages is.
   */
  lemma FinalScoreMeaning(a1: Cell, a2: Cell, a3: Cell, a4: Cell, c: real)
    requires IsNumber(a1) && IsNumber(a2) && IsNumber(a3) && IsNumber(a4)
    ensures FinalScore(a1, a2, a3, a4, c).NaN? <==> a1.NaN? || a2.NaN? || a3.NaN? || a4.NaN?
    ensures a1.Num? && a2.Num? && a3.Num? && a4.Num? ==>
      FinalScore(a1, a2, a3, a4, c) == Num(c * (a1.v + a2.v + a4.v) + (1.0 - c) * a3.v)
  {
  }

  /**
   * A successful final document: key "FC", layer 4, order 1, the first scoring
   * document's subject and period, and one sheet of ten rows.
   */
  lemma FinalDocumentShape(docs: seq<Document>, cashflowDocs: seq<Document>, loanDocs: seq<Document>,
                           env: Env, base: nat)
    requires Finalize(docs, cashflowDocs, loanDocs, env, base).Ok?
    ensures FinalGuardPasses(docs)
    ensures var d := Finalize(docs, cashflowDocs, loanDocs, env, base).value;
      && d.id == env.token(base)
      && d.subjectId == docs[0].subjectId
      && d.docType == DocType("FC", "Final scoring", 4, 1)
      && d.period == docs[0].period
      && d.version == Version(1, Author, env.clock(base))
      && |d.sheets| == 1
      && d.sheets[0].id == env.token(base + 1)
      && d.sheets[0].subjectId == docs[0].subjectId
      && OwnsSheets(d)
      && d.sheets[0].name == "Final scoring" && d.sheets[0].number == 1
      && |d.sheets[0].items| == 10
  {
  }

  /** The ten rows of a successful verdict sheet are numbered 1 to 10 and carry the fixed labels. */
  lemma FinalRows(docs: seq<Document>, cashflowDocs: seq<Document>, loanDocs: seq<Document>, env: Env, base: nat)
    requires Finalize(docs, cashflowDocs, loanDocs, env, base).Ok?
    ensures var items := Finalize(docs, cashflowDocs, loanDocs, env, base).value.sheets[0].items;
      && |items| == 10
      && forall r :: 0 <= r < 10 ==>
        |items[r]| == 3 && items[r][0] == Num((r + 1) as real) && items[r][1] == Text(VerdictLabels[r])
  {
    var items := Finalize(docs, cashflowDocs, loanDocs, env, base).value.sheets[0].items;
    forall r | 0 <= r < 10
      ensures |items[r]| == 3 && items[r][0] == Num((r + 1) as real) && items[r][1] == Text(VerdictLabels[r])
    {
    }
  }

  /**
   * The values of the verdict sheet: the loan flag and amount, the suspicion
   * flag, the cashflow and capital sums, the four averages, and the final
   * score of those averages under the coefficient the flags select.
   */
  lemma FinalVerdict(docs: seq<Document>, cashflowDocs: seq<Document>, loanDocs: seq<Document>,
                     env: Env, base: nat)
    requires Finalize(docs, cashflowDocs, loanDocs, env, base).Ok?
    ensures |docs| == 4 && DeriveFlags(cashflowDocs, loanDocs).Ok?
    ensures RowAverage(docs[0]).Ok? && RowAverage(docs[1]).Ok? && RowAverage(docs[2]).Ok? && RowAverage(docs[3]).Ok?
    ensures var a := Finalize(docs, cashflowDocs, loanDocs, env, base).value.sheets[0].items;
      var f := DeriveFlags(cashflowDocs, loanDocs).value;
      && |a| == 10 && |a[0]| == |a[1]| == |a[2]| == |a[3]| == |a[4]| == |a[5]| == |a[6]| == |a[7]| == |a[8]| == |a[9]| == 3
      && a[0][2] == Bool(|loanDocs| > 0)
      && a[1][2] == f.loanAmount
      && a[2][2] == Bool(f.suspicious)
      && a[3][2] == f.cashflow
      && a[4][2] == f.capital
      && a[5][2] == RowAverage(docs[0]).value
      && a[6][2] == RowAverage(docs[1]).value
      && a[7][2] == RowAverage(docs[2]).value
      && a[8][2] == RowAverage(docs[3]).value
      && a[9][2] == FinalScore(a[5][2], a[6][2], a[7][2], a[8][2], Coefficient(|loanDocs| > 0, f.suspicious))
  {
    FinalizeOk(docs, cashflowDocs, loanDocs, env, base);
    var f := DeriveFlags(cashflowDocs, loanDocs).value;
    var a1, a2, a3, a4 := RowAverage(docs[0]).value, RowAverage(docs[1]).value, RowAverage(docs[2]).value, RowAverage(docs[3]).value;
    var c := Coefficient(f.hasLoans, f.suspicious);
    var score := FinalScore(a1, a2, a3, a4, c);
    var items := VerdictItems(f, a1, a2, a3, a4, score);
    assert Finalize(docs, cashflowDocs, loanDocs, env, base).value.sheets[0].items == items;
  }

  lemma FinalizeOk(docs: seq<Document>, cashflowDocs: seq<Document>, loanDocs: seq<Document>, env: Env, base: nat)
    requires Finalize(docs, cashflowDocs, loanDocs, env, base).Ok?
    ensures FinalGuardPasses(docs) && DeriveFlags(cashflowDocs, loanDocs).Ok?
    ensures RowAverage(docs[0]).Ok? && RowAverage(docs[1]).Ok? && RowAverage(docs[2]).Ok? && RowAverage(docs[3]).Ok?
    ensures Finalize(docs, cashflowDocs, loanDocs, env, base).value == VerdictDocument(
      docs[0], DeriveFlags(cashflowDocs, loanDocs).value,
      RowAverage(docs[0]).value, RowAverage(docs[1]).value, RowAverage(docs[2]).value, RowAverage(docs[3]).value,
      env, base)
  {
  }

  /** The cashflow document of the service's unit tests. */
  const FixtureCashflow: Document := Document("1", "1", DocType("003", "doc_name", 1, 1), Date(1970, 1, 1),
    Version(1, "author", 0), [
      Sheet("1", "1", "1", "sheet_name_1", 1, [[Text("a"), Num(100.0)], [Text("b"), Num(101.0)]]),
      Sheet("2", "1", "1", "sheet_name_2", 2,
        [[Text("a"), Num(1.0), Num(2.0), Num(3.0), Num(4.0)], [Text("b"), Num(5.0), Num(6.0), Num(7.0), Num(8.0)]])])

  /** The loan document of the service's unit tests. */
  const FixtureLoan: Document := Document("1", "1", DocType("080", "doc_name", 1, 1), Date(1970, 1, 1),
    Version(1, "author", 0), [
      Sheet("1", "1", "1", "sheet_name_1", 1,
        [[Text("a"), Text("b"), Text("c"), Text("d"), Text("e"), Num(1.0), Num(2.0), Num(3.0), Num(4.0),
          Text("f"), Text("g"), Text("h")]])])

  /**
   * The flags of the unit tests: no auxiliary documents give no loans, no
   * suspicion and zero sums; the cashflow document gives a cashflow of 201
   * against a capital of 12, which is suspicious; the loan document a loan
   * amount of 1.
   */
  lemma FixtureFlags()
    ensures DeriveFlags([], []) == Ok(Flags(false, Num(0.0), false, Num(0.0), Num(0.0)))
    ensures DeriveFlags([FixtureCashflow], []) == Ok(Flags(false, Num(0.0), true, Num(201.0), Num(12.0)))
    ensures DeriveFlags([], [FixtureLoan]) == Ok(Flags(true, Num(1.0), false, Num(0.0), Num(0.0)))
    ensures DeriveFlags([FixtureCashflow], [FixtureLoan]) == Ok(Flags(true, Num(1.0), true, Num(201.0), Num(12.0)))
  {
    var cash, capital, loan := [Num(100.0), Num(101.0)], [Num(4.0), Num(8.0)], [Num(1.0)];
    SumOfPrefixes(cash);
    SumOfPrefixes(capital);
    SumOfPrefixes(loan);
    assert AuxCells([FixtureCashflow], 0, 1) == cash by {
      assert AuxCells([FixtureCashflow][1..], 0, 1) == [];
    }
    assert AuxCells([FixtureCashflow], 1, 4) == capital by {
      assert AuxCells([FixtureCashflow][1..], 1, 4) == [];
    }
    assert AuxCells([FixtureLoan], 0, 5) == loan by {
      assert AuxCells([FixtureLoan][1..], 0, 5) == [];
    }
  }

  lemma SumOfPrefixes(cs: seq<Cell>)
    requires 1 <= |cs| <= 2 && forall i :: 0 <= i < |cs| ==> cs[i].Num?
    ensures |cs| == 1 ==> SumCells(cs) == Ok(Num(cs[0].v))
    ensures |cs| == 2 ==> SumCells(cs) == Ok(Num(cs[0].v + cs[1].v))
  {
    assert cs[..|cs| - 1][..0] == [];
    if |cs| == 2 {
      assert cs[..1] == [cs[0]];
    }
  }

  /** A scoring document of the unit tests, holding the scoring table `items`. */
  function FixtureScoring(items: seq<seq<Cell>>): Document {
    Document("1", "1", DocType("SC1", "Scoring document #1", 3, 1), Date(1972, 1, 1),
      Version(1, Author, 0), [Sheet("2", "1", "1", "Scoring", 1, items)])
  }

  /**
   * The averages of the unit tests: the last row of the first scoring table
   * averages to 614549/31008 (19.81904669762642 in floating point), and that
   * of the second to 1239/143 (8.664335664335663).
   */
  lemma FixtureAverages()
    ensures Scoring.ScoreItems(Scoring.FixtureSummary).Ok? && Scoring.ScoreItems(Scoring.FixtureSummary2).Ok?
    ensures RowAverage(FixtureScoring(Scoring.ScoreItems(Scoring.FixtureSummary).value)) ==
      Ok(Num(614549.0 / 31008.0))
    ensures RowAverage(FixtureScoring(Scoring.ScoreItems(Scoring.FixtureSummary2).value)) ==
      Ok(Num(1239.0 / 143.0))
  {
    Scoring.FixtureTable();
    Scoring.FixtureTable2();
    FixtureAverage1();
    FixtureAverage2();
  }

  lemma FixtureAverage1()
    ensures RowAverage(FixtureScoring([
      [Num(11.25), Num(40.0 / 3.0), Num(15.0), Num(180.0 / 11.0)],
      [Num(14.625), Num(312.0 / 17.0), Num(65.0 / 3.0), Num(468.0 / 19.0)]])) == Ok(Num(614549.0 / 31008.0))
  {
    var row := [Num(14.625), Num(312.0 / 17.0), Num(65.0 / 3.0), Num(468.0 / 19.0)];
    Scoring.SumOfFour(14.625, 312.0 / 17.0, 65.0 / 3.0, 468.0 / 19.0);
    var total := 14.625 + 312.0 / 17.0 + 65.0 / 3.0 + 468.0 / 19.0;
    assert total == 614549.0 / 7752.0;
    assert SumCells(row) == Ok(Num(total));
  }

  lemma FixtureAverage2()
    ensures RowAverage(FixtureScoring([
      [Num(36.0 / 7.0), Num(6.0)],
      [Num(84.0 / 11.0), Num(126.0 / 13.0)]])) == Ok(Num(1239.0 / 143.0))
  {
    var row := [Num(84.0 / 11.0), Num(126.0 / 13.0)];
    Scoring.SumOfTwo(84.0 / 11.0, 126.0 / 13.0);
    assert 84.0 / 11.0 + 126.0 / 13.0 == 2478.0 / 143.0;
    assert SumCells(row) == Ok(Num(2478.0 / 143.0));
  }

  /**
   * The final scores of the unit tests, from the averages of scoring
   * documents 1, 3 and 4 (614549/31008) and of document 2 (1239/143), for
   * the four combinations of the flags.
   */
  lemma FixtureScores()
    ensures var a, b := Num(614549.0 / 31008.0), Num(1239.0 / 143.0);
      && FinalScore(a, b, a, a, Coefficient(false, false)) == Num(314866737.0 / 7390240.0)
      && FinalScore(a, b, a, a, Coefficient(false, true)) == Num(94283659.0 / 3695120.0)
      && FinalScore(a, b, a, a, Coefficient(true, false)) == Num(100686811.0 / 2956096.0)
      && FinalScore(a, b, a, a, Coefficient(true, true)) == Num(1005104489.0 / 44341440.0)
  {
  }
}
