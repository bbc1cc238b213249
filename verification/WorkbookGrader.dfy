/**
 The independent workbook grader, and its agreement with the reference program.
 */
module WorkbookGrader {
  import opened Wrappers
  import opened Decimal
  import opened Workbook
  import opened Decimal28

  /** The rounding of the arithmetic in which the workbook grader recomputes. */
  type Rounding = int -> int

  // ---------------------------------------------------------------------------------------------
  // What the workbook grader looks for
  // ---------------------------------------------------------------------------------------------

  datatype Code =
    | Accepted | SheetSet | DataExtent | HeaderFormat | CellValue | FormulaCache | RowFormula
    | SummaryWrong | PreservedSheets | InvalidWorkbook

  predicate NonEmpty(cell: Cell) { cell.value.Some? || cell.formula.Some? }

  function Extent(data: Sheet): set<string> {
    set a | a in data && NonEmpty(data[a])
  }

  predicate Holds(sheet: Sheet, address: string, v: Value) {
    address in sheet && sheet[address].value == Some(v)
  }

  predicate HeaderOk(data: Sheet, k: nat)
    requires k < 5
  {
    Holds(data, Address(COLUMNS[k], 1), Text(HEADERS[k])) && data[Address(COLUMNS[k], 1)].bold
  }

  ghost predicate HeadersOk(data: Sheet) {
    forall k :: 0 <= k < 5 ==> HeaderOk(data, k)
  }

  predicate ValuesOk(data: Sheet, row: Clean, r: nat) {
    && Holds(data, Address('A', r), Text(row.id)) && Holds(data, Address('B', r), Text(row.date))
    && Holds(data, Address('C', r), Number(row.quantity)) && Holds(data, Address('D', r), Number(row.price))
    && Holds(data, Address('E', r), Number(row.amount))
  }

  /** Values, relative formula, and the cache recomputed from the row's own cells. */
  predicate RowOk(round: Rounding, data: Sheet, row: Clean, r: nat) {
    && ValuesOk(data, row, r)
    && data[Address('E', r)].formula == Some(ProductFormula(r))
    && round(row.quantity * row.price) == row.amount
  }

  /** The first thing that is wrong with a row, in the workbook grader's order. */
  function RowCode(round: Rounding, data: Sheet, row: Clean, r: nat): (code: Code)
    ensures code == Accepted <==> RowOk(round, data, row, r)
    ensures code == Accepted || RowFault(code)
  {
    if !Holds(data, Address('A', r), Text(row.id)) || !Holds(data, Address('B', r), Text(row.date))
      || !Holds(data, Address('C', r), Number(row.quantity)) || !Holds(data, Address('D', r), Number(row.price)) then CellValue
    else if !Holds(data, Address('E', r), Number(row.amount)) then FormulaCache
    else if data[Address('E', r)].formula != Some(ProductFormula(r)) then RowFormula
    else if round(row.quantity * row.price) != row.amount then FormulaCache
    else Accepted
  }

  /** The codes that the checks of the Data sheet can give. */
  predicate DataCode(code: Code) {
    code == Accepted || code == DataExtent || code == HeaderFormat || RowFault(code)
  }

  predicate RowFault(code: Code) {
    code == CellValue || code == FormulaCache || code == RowFormula
  }

  /** The first `k` rows are right. */
  ghost predicate RightUpTo(round: Rounding, data: Sheet, rows: seq<Clean>, k: nat)
    requires k <= |rows|
  {
    k == 0 || (RightUpTo(round, data, rows, k - 1) && RowCode(round, data, rows[k - 1], k + 1) == Accepted)
  }

  /** `code` names the fault of row `i`, and the rows before it are right. */
  ghost predicate FaultAt(round: Rounding, data: Sheet, rows: seq<Clean>, i: nat, code: Code) {
    i < |rows| && RightUpTo(round, data, rows, i) && RowFault(code) && code == RowCode(round, data, rows[i], i + 2)
  }

  ghost predicate FirstFault(round: Rounding, data: Sheet, rows: seq<Clean>, code: Code) {
    exists i :: FaultAt(round, data, rows, i, code)
  }

  lemma {:induction false} RightUpToIff(round: Rounding, data: Sheet, rows: seq<Clean>, k: nat)
    requires k <= |rows|
    ensures RightUpTo(round, data, rows, k) <==> forall i :: 0 <= i < k ==> RowOk(round, data, rows[i], i + 2)
  {
    if k > 0 {
      RightUpToIff(round, data, rows, k - 1);
    }
  }

  /** The verdict on the Data sheet: extent first, then headers, then the rows in order. */
  ghost predicate DataFault(round: Rounding, data: Sheet, rows: seq<Clean>, code: Code) {
    if Extent(data) != Addresses(|rows|) then code == DataExtent
    else if !HeadersOk(data) then code == HeaderFormat
    else FirstFault(round, data, rows, code)
  }

  /** The running sum of the recomputed products. */
  function Recomputed(round: Rounding, rows: seq<Clean>, k: nat): int
    requires k <= |rows|
  {
    if k == 0 then 0 else round(Recomputed(round, rows, k - 1) + round(rows[k - 1].quantity * rows[k - 1].price))
  }

  predicate SummaryOk(round: Rounding, summary: Sheet, rows: seq<Clean>) {
    && Holds(summary, "A1", Text("Total"))
    && Holds(summary, "B1", Number(Recomputed(round, rows, |rows|)))
    && summary["B1"].formula == Some(SumFormula(|rows|))
  }

  predicate ExtraOk(sheet: Sheet, text: string) {
    sheet.Keys == {"A1"} && sheet["A1"].value == Some(Text(text)) && sheet["A1"].formula == None
  }

  ghost predicate RowsOk(round: Rounding, data: Sheet, rows: seq<Clean>) {
    forall i :: 0 <= i < |rows| ==> RowOk(round, data, rows[i], i + 2)
  }

  ghost predicate DataOk(round: Rounding, data: Sheet, rows: seq<Clean>) {
    Extent(data) == Addresses(|rows|) && HeadersOk(data) && RowsOk(round, data, rows)
  }

  ghost predicate ExtrasOk(book: Book, extras: map<string, string>) {
    forall name :: name in extras ==> name in book && ExtraOk(book[name], extras[name])
  }

  ghost predicate SheetsOk(book: Book, extras: map<string, string>) {
    book.Keys == {"Data", "Summary"} + extras.Keys
  }

  ghost predicate Matches(round: Rounding, book: Book, rows: seq<Clean>, extras: map<string, string>) {
    && SheetsOk(book, extras)
    && DataOk(round, book["Data"], rows)
    && SummaryOk(round, book["Summary"], rows)
    && ExtrasOk(book, extras)
  }

  // ---------------------------------------------------------------------------------------------
  // The workbook grader
  // ---------------------------------------------------------------------------------------------

  lemma AddressInExtent(data: Sheet, n: nat, c: char, r: nat)
    requires Extent(data) == Addresses(n) && c in COLUMNS && 1 <= r <= n + 1
    ensures Address(c, r) in data
  {
    assert Address(c, r) in Addresses(n);
    assert Address(c, r) in Extent(data);
  }

  method CheckHeaders(data: Sheet) returns (ok: bool)
    ensures ok <==> HeadersOk(data)
  {
    for k := 0 to 5
      invariant forall j :: 0 <= j < k ==> HeaderOk(data, j)
    {
      if !HeaderOk(data, k) {
        return false;
      }
    }
    return true;
  }

  /** One row: the first thing that is wrong with it. */
  method CheckRow(round: Rounding, data: Sheet, row: Clean, r: nat, n: nat) returns (code: Code, product: int)
    requires Extent(data) == Addresses(n) && 1 <= r <= n + 1
    ensures code == RowCode(round, data, row, r)
    ensures code == Accepted ==> product == round(row.quantity * row.price)
  {
    product := 0;
    AddressInExtent(data, n, 'A', r);
    AddressInExtent(data, n, 'B', r);
    AddressInExtent(data, n, 'C', r);
    AddressInExtent(data, n, 'D', r);
    AddressInExtent(data, n, 'E', r);
    if data[Address('A', r)].value != Some(Text(row.id)) || data[Address('B', r)].value != Some(Text(row.date))
      || data[Address('C', r)].value != Some(Number(row.quantity)) || data[Address('D', r)].value != Some(Number(row.price)) {
      return CellValue, 0;
    }
    if data[Address('E', r)].value != Some(Number(row.amount)) {
      return FormulaCache, 0;
    }
    if data[Address('E', r)].formula != Some(ProductFormula(r)) {
      return RowFormula, 0;
    }
    product := round(data[Address('C', r)].value.value.n * data[Address('D', r)].value.value.n);
    if data[Address('E', r)].value != Some(Number(product)) {
      return FormulaCache, 0;
    }
    code := Accepted;
  }

  method CheckSummary(round: Rounding, summary: Sheet, rows: seq<Clean>, recomputed: int) returns (code: Code)
    requires recomputed == Recomputed(round, rows, |rows|)
    ensures code == Accepted <==> SummaryOk(round, summary, rows)
    ensures code.Accepted? || code.SummaryWrong? || code.InvalidWorkbook?
    ensures code.InvalidWorkbook? <==> "A1" !in summary || (Holds(summary, "A1", Text("Total")) && "B1" !in summary)
  {
    if "A1" !in summary {
      return InvalidWorkbook;
    }
    if summary["A1"].value != Some(Text("Total")) {
      return SummaryWrong;
    }
    if "B1" !in summary {
      return InvalidWorkbook;
    }
    if summary["B1"].value != Some(Number(recomputed)) || summary["B1"].formula != Some(SumFormula(|rows|)) {
      return SummaryWrong;
    }
    return Accepted;
  }

  lemma FaultRefuses(round: Rounding, data: Sheet, rows: seq<Clean>, i: nat, code: Code)
    requires FaultAt(round, data, rows, i, code)
    ensures FirstFault(round, data, rows, code) && !RowsOk(round, data, rows)
  {
    assert !RowOk(round, data, rows[i], i + 2);
  }

  lemma OneMoreRow(round: Rounding, data: Sheet, rows: seq<Clean>, i: nat)
    requires i < |rows| && RightUpTo(round, data, rows, i) && RowCode(round, data, rows[i], i + 2) == Accepted
    ensures RightUpTo(round, data, rows, i + 1)
    ensures Recomputed(round, rows, i + 1)
         == round(Recomputed(round, rows, i) + round(rows[i].quantity * rows[i].price))
  {
  }

  /** The loop over the expected rows. */
  method CheckRows(round: Rounding, data: Sheet, rows: seq<Clean>) returns (code: Code, recomputed: int)
    requires Extent(data) == Addresses(|rows|)
    ensures code == Accepted ==> RowsOk(round, data, rows) && recomputed == Recomputed(round, rows, |rows|)
    ensures code != Accepted ==> FirstFault(round, data, rows, code) && !RowsOk(round, data, rows)
  {
    recomputed := 0;
    for i := 0 to |rows|
      invariant recomputed == Recomputed(round, rows, i)
      invariant RightUpTo(round, data, rows, i)
    {
      var row := rows[i];
      var rowCode, product := CheckRow(round, data, row, i + 2, |rows|);
      if rowCode != Accepted {
        FaultRefuses(round, data, rows, i, rowCode);
        return rowCode, 0;
      }
      OneMoreRow(round, data, rows, i);
      recomputed := round(recomputed + product);
    }
    RightUpToIff(round, data, rows, |rows|);
    code := Accepted;
  }

  /** The checks of the Data sheet. */
  method CheckData(round: Rounding, data: Sheet, rows: seq<Clean>) returns (code: Code, recomputed: int)
    ensures code == Accepted ==> DataOk(round, data, rows) && recomputed == Recomputed(round, rows, |rows|)
    ensures code != Accepted ==> DataFault(round, data, rows, code) && !DataOk(round, data, rows)
    ensures DataCode(code)
  {
    if Extent(data) != Addresses(|rows|) {
      return DataExtent, 0;
    }
    var headers := CheckHeaders(data);
    if !headers {
      return HeaderFormat, 0;
    }
    code, recomputed := CheckRows(round, data, rows);
  }

  /** The Data sheet first, then the Summary sheet. */
  method CheckFixedSheets(round: Rounding, data: Sheet, summary: Sheet, rows: seq<Clean>) returns (code: Code)
    ensures code == Accepted <==> DataOk(round, data, rows) && SummaryOk(round, summary, rows)
    ensures code != Accepted && DataCode(code) <==> !DataOk(round, data, rows)
    ensures code != Accepted && DataCode(code) ==> DataFault(round, data, rows, code)
    ensures DataCode(code) || code == SummaryWrong || code == InvalidWorkbook
  {
    var dataCode, recomputed := CheckData(round, data, rows);
    if dataCode != Accepted {
      return dataCode;
    }
    code := CheckSummary(round, summary, rows, recomputed);
  }

  /** `failure_code` on an inspected workbook: it accepts exactly the matching ones, and otherwise
      names the first check that fails. */
  method FailureCode(round: Rounding, book: Book, rows: seq<Clean>, extras: map<string, string>) returns (code: Code)
    ensures code == Accepted <==> Matches(round, book, rows, extras)
    ensures code == SheetSet <==> !SheetsOk(book, extras)
    ensures code != Accepted && DataCode(code) <==> SheetsOk(book, extras) && !DataOk(round, book["Data"], rows)
    ensures code != Accepted && DataCode(code) ==> DataFault(round, book["Data"], rows, code)
    ensures code == SummaryWrong || code == InvalidWorkbook <==>
      SheetsOk(book, extras) && DataOk(round, book["Data"], rows) && !SummaryOk(round, book["Summary"], rows)
    ensures code == PreservedSheets <==>
      && SheetsOk(book, extras) && DataOk(round, book["Data"], rows) && SummaryOk(round, book["Summary"], rows)
      && !ExtrasOk(book, extras)
  {
    if book.Keys != {"Data", "Summary"} + extras.Keys {
      return SheetSet;
    }
    assert SheetsOk(book, extras);
    code := CheckFixedSheets(round, book["Data"], book["Summary"], rows);
    if code != Accepted {
      return;
    }
    code := if forall name :: name in extras ==> ExtraOk(book[name], extras[name]) then Accepted else PreservedSheets;
  }

  // ---------------------------------------------------------------------------------------------
  // The reference against the workbook grader
  // ---------------------------------------------------------------------------------------------

  predicate PlainIds(rows: seq<Clean>) {
    forall i :: 0 <= i < |rows| ==> !FormulaLike(rows[i].id)
  }

  predicate PlainExtras(extras: map<string, string>) {
    forall name :: name in extras ==> !FormulaLike(extras[name])
  }

  predicate ProductsExact(round: Rounding, rows: seq<Clean>) {
    forall i :: 0 <= i < |rows| ==> round(rows[i].amount) == rows[i].amount
  }

  /** Rows as `clean` makes them: own products, and normalised dates. */
  predicate Proper(rows: seq<Clean>) {
    forall i :: 0 <= i < |rows| ==> rows[i].amount == rows[i].quantity * rows[i].price && !FormulaLike(rows[i].date)
  }

  lemma FilledCell(rows: seq<Clean>, data: Sheet, c: char, r: nat)
    requires IsData(data, rows, |rows|) && Fillable(rows, data) && c in COLUMNS && 1 <= r <= |rows| + 1
    ensures var a := Address(c, r);
      && a in Fill(rows, data) && a != ""
      && FillCell(rows, a, DataCell(rows, c, r)) == Some(Fill(rows, data)[a])
  {
    assert data[Address(c, r)] == DataCell(rows, c, r);
  }

  lemma FilledHeader(rows: seq<Clean>, data: Sheet)
    requires IsData(data, rows, |rows|) && Fillable(rows, data)
    ensures HeadersOk(Fill(rows, data))
  {
    forall k | 0 <= k < 5
      ensures HeaderOk(Fill(rows, data), k)
    {
      assert COLUMNS[k] in COLUMNS;
      FilledCell(rows, data, COLUMNS[k], 1);
    }
  }

  lemma {:induction false} FilledExtent(rows: seq<Clean>, data: Sheet)
    requires IsData(data, rows, |rows|) && Fillable(rows, data)
    ensures Extent(Fill(rows, data)) == Addresses(|rows|)
  {
    var filled := Fill(rows, data);
    forall a | a in Addresses(|rows|)
      ensures NonEmpty(filled[a])
    {
      var c, r :| c in COLUMNS && 1 <= r <= |rows| + 1 && a == Address(c, r);
      FilledCell(rows, data, c, r);
    }
  }

  /** A text cell keeps its text exactly when the text is plain. */
  lemma FilledText(rows: seq<Clean>, address: string, text: string)
    requires address != "" && FillCell(rows, address, TextCell(text)).Some?
    ensures FillCell(rows, address, TextCell(text)).value.value == Some(Text(text)) <==> !FormulaLike(text)
  {
  }

  lemma FilledAmount(rows: seq<Clean>, i: nat)
    requires i < |rows|
    ensures var a := Address('E', i + 2);
      a != "" && FillCell(rows, a, FormulaCell(ProductFormula(i + 2)))
              == Some(Cell(Some(Number(rows[i].amount)), Some(ProductFormula(i + 2)), false))
  {
    RowOfAddress('E', i + 2);
    assert ProductFormula(i + 2)[0] == 'C';
  }

  /** The two text columns keep their texts exactly when these are plain. */
  lemma FilledTexts(rows: seq<Clean>, data: Sheet, i: nat)
    requires IsData(data, rows, |rows|) && Fillable(rows, data) && i < |rows|
    ensures Holds(Fill(rows, data), Address('A', i + 2), Text(rows[i].id)) <==> !FormulaLike(rows[i].id)
    ensures Holds(Fill(rows, data), Address('B', i + 2), Text(rows[i].date)) <==> !FormulaLike(rows[i].date)
  {
    FilledCell(rows, data, 'A', i + 2);
    FilledText(rows, Address('A', i + 2), rows[i].id);
    FilledCell(rows, data, 'B', i + 2);
    FilledText(rows, Address('B', i + 2), rows[i].date);
  }

  lemma FilledNumbers(rows: seq<Clean>, data: Sheet, i: nat)
    requires IsData(data, rows, |rows|) && Fillable(rows, data) && i < |rows|
    ensures Holds(Fill(rows, data), Address('C', i + 2), Number(rows[i].quantity))
    ensures Holds(Fill(rows, data), Address('D', i + 2), Number(rows[i].price))
  {
    FilledCell(rows, data, 'C', i + 2);
    FilledCell(rows, data, 'D', i + 2);
  }

  lemma {:induction false} FilledFormula(rows: seq<Clean>, data: Sheet, i: nat)
    requires IsData(data, rows, |rows|) && Fillable(rows, data) && i < |rows|
    ensures Holds(Fill(rows, data), Address('E', i + 2), Number(rows[i].amount))
    ensures Fill(rows, data)[Address('E', i + 2)].formula == Some(ProductFormula(i + 2))
  {
    FilledCell(rows, data, 'E', i + 2);
    FilledAmount(rows, i);
  }

  lemma FilledRow(round: Rounding, rows: seq<Clean>, data: Sheet, i: nat)
    requires IsData(data, rows, |rows|) && Fillable(rows, data) && i < |rows| && Proper(rows)
    ensures RowOk(round, Fill(rows, data), rows[i], i + 2)
       <==> !FormulaLike(rows[i].id) && round(rows[i].amount) == rows[i].amount
  {
    FilledTexts(rows, data, i);
    FilledNumbers(rows, data, i);
    FilledFormula(rows, data, i);
  }

  /** A sheet of one plain text and one SUM formula, wherever they stand. */
  lemma FilledTotal(rows: seq<Clean>, a: string, b: string, text: string, formula: string)
    requires a != b && !FormulaLike(text) && StartsWith(formula, "SUM(")
    requires Fillable(rows, map[a := TextCell(text), b := FormulaCell(formula)])
    ensures var filled := Fill(rows, map[a := TextCell(text), b := FormulaCell(formula)]);
      && Holds(filled, a, Text(text)) && Holds(filled, b, Number(Total(rows, |rows|)))
      && filled[b].formula == Some(formula)
  {
    FillTwo(rows, a, b, TextCell(text), FormulaCell(formula));
  }

  lemma FilledSummaryCells(rows: seq<Clean>)
    requires Fillable(rows, SummarySheet(|rows|))
    ensures var filled := Fill(rows, SummarySheet(|rows|));
      && Holds(filled, "A1", Text("Total")) && Holds(filled, "B1", Number(Total(rows, |rows|)))
      && filled["B1"].formula == Some(SumFormula(|rows|))
  {
    assert "A1"[0] != "B1"[0] && "Total"[0] == 'T';
    SumIsSum(|rows|);
    FilledTotal(rows, "A1", "B1", "Total", SumFormula(|rows|));
  }

  lemma FillTwo(rows: seq<Clean>, a: string, b: string, x: Cell, y: Cell)
    requires a != b && Fillable(rows, map[a := x, b := y])
    ensures a != "" && FillCell(rows, a, x) == Some(Fill(rows, map[a := x, b := y])[a])
    ensures b != "" && FillCell(rows, b, y) == Some(Fill(rows, map[a := x, b := y])[b])
  {
    var sheet := map[a := x, b := y];
    assert sheet[a] == x && sheet[b] == y;
  }

  lemma FilledSummary(round: Rounding, rows: seq<Clean>)
    requires Fillable(rows, SummarySheet(|rows|))
    ensures SummaryOk(round, Fill(rows, SummarySheet(|rows|)), rows)
       <==> Recomputed(round, rows, |rows|) == Total(rows, |rows|)
  {
    FilledSummaryCells(rows);
  }

  lemma SumIsSum(n: nat)
    ensures StartsWith(SumFormula(n), "SUM(")
  {
    assert SumFormula(n)[..4] == "SUM(";
  }

  lemma FilledExtra(rows: seq<Clean>, text: string)
    requires Fillable(rows, ExtraSheet(text))
    ensures ExtraOk(Fill(rows, ExtraSheet(text)), text) <==> !FormulaLike(text)
  {
  }

  /** The Data sheet of the reference. */
  lemma FilledData(round: Rounding, rows: seq<Clean>, data: Sheet)
    requires IsData(data, rows, |rows|) && Fillable(rows, data) && Proper(rows)
    ensures DataOk(round, Fill(rows, data), rows) <==> PlainIds(rows) && ProductsExact(round, rows)
  {
    FilledExtent(rows, data);
    FilledHeader(rows, data);
    forall i | 0 <= i < |rows|
      ensures RowOk(round, Fill(rows, data), rows[i], i + 2)
         <==> !FormulaLike(rows[i].id) && round(rows[i].amount) == rows[i].amount
    {
      FilledRow(round, rows, data, i);
    }
  }

  lemma SummaryIsNoExtra(rows: seq<Clean>, text: string)
    requires Fillable(rows, SummarySheet(|rows|))
    ensures !ExtraOk(Fill(rows, SummarySheet(|rows|)), text)
  {
    assert "B1" in Fill(rows, SummarySheet(|rows|));
    assert "B1"[0] != "A1"[0];
  }

  lemma {:induction false} FilledExtras(book: Book, rows: seq<Clean>, extras: map<string, string>)
    requires IsReference(book, rows, extras) && "Data" !in extras
    ensures ExtrasOk(book, extras) <==> "Summary" !in extras && PlainExtras(extras)
  {
    if "Summary" in extras {
      SummaryIsNoExtra(rows, extras["Summary"]);
    }
    forall name | name in extras && name != "Summary"
      ensures name in book && (ExtraOk(book[name], extras[name]) <==> !FormulaLike(extras[name]))
    {
      FilledExtra(rows, extras[name]);
    }
  }

  /**
   Round trip of the two programs, for any rounding: the workbook grader accepts the reference's output,
   against the cleaned rows as truth, exactly when no extra sheet is called Summary, every kept identity and every extra text is
   plain and the recomputation gives the exact products and the exact total.
   */
  lemma {:induction false} ReferenceAcceptedIff(round: Rounding, book: Book, rows: seq<Clean>, extras: map<string, string>)
    requires IsReference(book, rows, extras) && Proper(rows) && "Data" !in extras
    ensures Matches(round, book, rows, extras) <==>
      && "Summary" !in extras && PlainIds(rows) && PlainExtras(extras) && ProductsExact(round, rows)
      && Recomputed(round, rows, |rows|) == Total(rows, |rows|)
  {
    var data :| IsData(data, rows, |rows|) && Fillable(rows, data) && book["Data"] == Fill(rows, data);
    assert DataOk(round, book["Data"], rows) <==> PlainIds(rows) && ProductsExact(round, rows) by {
      FilledData(round, rows, data);
    }
    assert SummaryOk(round, book["Summary"], rows) <==> Recomputed(round, rows, |rows|) == Total(rows, |rows|) by {
      FilledSummary(round, rows);
    }
    FilledExtras(book, rows, extras);
  }

  // ---------------------------------------------------------------------------------------------
  // In 28-digit arithmetic
  // ---------------------------------------------------------------------------------------------

  ghost predicate Small(rows: seq<Clean>) {
    forall k :: 0 <= k < |rows| ==> -LIMIT < rows[k].amount < LIMIT && -LIMIT < Total(rows, k + 1) < LIMIT
  }

  /** A rounding that leaves numbers below the limit alone sums small rows exactly. */
  lemma {:induction false} SmallSumsAreExact(round: Rounding, rows: seq<Clean>, k: nat)
    requires k <= |rows| && Small(rows) && Proper(rows)
    requires forall n :: -LIMIT < n < LIMIT ==> round(n) == n
    ensures Recomputed(round, rows, k) == Total(rows, k)
  {
    if k > 0 {
      SmallSumsAreExact(round, rows, k - 1);
      assert Total(rows, k) == Total(rows, k - 1) + rows[k - 1].amount;
    }
  }

  lemma SmallNumbersStay()
    ensures forall n :: -LIMIT < n < LIMIT ==> Round28(n) == n
  {
    forall n | -LIMIT < n < LIMIT
      ensures Round28(n) == n
    {
      SmallFits(n);
      RoundExactly(n);
    }
  }

  /** The whole path for ordinary inputs: any rows whose kept identities are plain and whose sums
      stay below 10^28, with any plain extra sheets. */
  lemma {:induction false} RoundTrip(p: Parsers, raw: seq<Row>, extras: map<string, string>, book: Book)
    requires forall r :: p.date(r).Some? ==> !FormulaLike(p.date(r).value)
    requires "Data" !in extras && "Summary" !in extras && PlainExtras(extras)
    requires var rows := Cleaned(p, raw, |raw|);
      PlainIds(rows) && Small(rows) && IsReference(book, rows, extras)
    ensures Matches(Round28, book, Cleaned(p, raw, |raw|), extras)
  {
    CleanedProper(p, raw);
    SmallNumbersStay();
    SmallRowsAccepted(Round28, book, Cleaned(p, raw, |raw|), extras);
  }

  lemma {:induction false} SmallRowsAccepted(round: Rounding, book: Book, rows: seq<Clean>, extras: map<string, string>)
    requires forall n :: -LIMIT < n < LIMIT ==> round(n) == n
    requires "Data" !in extras && "Summary" !in extras && PlainExtras(extras)
    requires PlainIds(rows) && Small(rows) && Proper(rows) && IsReference(book, rows, extras)
    ensures Matches(round, book, rows, extras)
  {
    SmallSumsAreExact(round, rows, |rows|);
    ReferenceAcceptedIff(round, book, rows, extras);
  }

  lemma {:induction false} CleanedProper(p: Parsers, raw: seq<Row>)
    requires forall r :: p.date(r).Some? ==> !FormulaLike(p.date(r).value)
    ensures Proper(Cleaned(p, raw, |raw|))
  {
    var rows := Cleaned(p, raw, |raw|);
    forall i | 0 <= i < |rows|
      ensures rows[i].amount == rows[i].quantity * rows[i].price && !FormulaLike(rows[i].date)
    {
      assert rows[i] in rows;
      KeptExactly(p, raw, |raw|, rows[i]);
    }
  }

  /** A correct product that does not fit 28 digits is refused: with quantity 10^14 + 1 and price
      10^14 + 1 the exact product has 29 digits and does not end in 0. */
  lemma {:induction false} LongProductIsRefused(book: Book, extras: map<string, string>)
    requires var n := 100_000_000_000_001;
      var rows := [Clean("id", "2026-09-01", n, n, n * n)];
      IsReference(book, rows, extras) && "Data" !in extras
    ensures var n := 100_000_000_000_001;
      !Matches(Round28, book, [Clean("id", "2026-09-01", n, n, n * n)], extras)
  {
    var n := 100_000_000_000_001;
    var rows := [Clean("id", "2026-09-01", n, n, n * n)];
    LongProductRounds();
    ReferenceAcceptedIff(Round28, book, rows, extras);
  }

  lemma LongProductRounds()
    ensures var n := 100_000_000_000_001; Round28(n * n) != n * n
  {
    var m := 10_000_000_000_000_200_000_000_000_001;
    assert Excess(m) == 1 + Excess(m / 10) && Excess(m / 10) == 0;
    assert Pow10(1) == 10 * Pow10(0);
    assert m % 10 == 1;
    RoundExactly(m);
  }

  // ---------------------------------------------------------------------------------------------
  // What acceptance determines
  // ---------------------------------------------------------------------------------------------

  /** Two books show the same Data sheet: values everywhere, formulas in the Amount column, a bold header. */
  ghost predicate SameData(a: Sheet, b: Sheet, n: nat) {
    && Extent(a) == Extent(b)
    && (forall c, r :: c in COLUMNS && 1 <= r <= n + 1 ==>
          Address(c, r) in a && Address(c, r) in b && a[Address(c, r)].value == b[Address(c, r)].value)
    && (forall c :: c in COLUMNS ==> Address(c, 1) in a && Address(c, 1) in b && a[Address(c, 1)].bold && b[Address(c, 1)].bold)
    && (forall r :: 2 <= r <= n + 1 ==>
          Address('E', r) in a && Address('E', r) in b && a[Address('E', r)].formula == b[Address('E', r)].formula)
  }

  lemma {:induction false} RightRowsAgree(round: Rounding, a: Sheet, b: Sheet, row: Clean, r: nat, c: char)
    requires RowOk(round, a, row, r) && RowOk(round, b, row, r) && c in COLUMNS
    ensures Address(c, r) in a && Address(c, r) in b && a[Address(c, r)].value == b[Address(c, r)].value
    ensures c == 'E' ==> a[Address(c, r)].formula == b[Address(c, r)].formula
  {
  }

  lemma {:induction false} RightHeadersAgree(a: Sheet, b: Sheet, c: char)
    requires HeadersOk(a) && HeadersOk(b) && c in COLUMNS
    ensures Address(c, 1) in a && Address(c, 1) in b && a[Address(c, 1)].value == b[Address(c, 1)].value
    ensures a[Address(c, 1)].bold && b[Address(c, 1)].bold
  {
    var k :| 0 <= k < 5 && COLUMNS[k] == c;
    assert HeaderOk(a, k) && HeaderOk(b, k);
  }

  lemma {:induction false} AcceptedDataAgree(round: Rounding, a: Sheet, b: Sheet, rows: seq<Clean>)
    requires DataOk(round, a, rows) && DataOk(round, b, rows)
    ensures SameData(a, b, |rows|)
  {
    forall c, r | c in COLUMNS && 1 <= r <= |rows| + 1
      ensures Address(c, r) in a && Address(c, r) in b && a[Address(c, r)].value == b[Address(c, r)].value
      ensures r == 1 ==> a[Address(c, r)].bold && b[Address(c, r)].bold
      ensures r > 1 && c == 'E' ==> a[Address(c, r)].formula == b[Address(c, r)].formula
    {
      if r == 1 {
        RightHeadersAgree(a, b, c);
      } else {
        RightRowsAgree(round, a, b, rows[r - 2], r, c);
      }
    }
  }

  /** The workbook grader leaves no choice: any two books accepted against the same truth have the same
      sheets, the same Data sheet, the same total with the same formula and the same extra texts.  So every
      accepted book agrees with the reference's own, where that one is accepted. */
  lemma {:induction false} AcceptedBooksAgree(round: Rounding, a: Book, b: Book, rows: seq<Clean>, extras: map<string, string>)
    requires Matches(round, a, rows, extras) && Matches(round, b, rows, extras)
    ensures a.Keys == b.Keys && SameData(a["Data"], b["Data"], |rows|)
    ensures forall address :: address == "A1" || address == "B1" ==>
      address in a["Summary"] && address in b["Summary"] && a["Summary"][address].value == b["Summary"][address].value
    ensures a["Summary"]["B1"].formula == b["Summary"]["B1"].formula
    ensures forall name :: name in extras ==>
      a[name].Keys == b[name].Keys == {"A1"} && a[name]["A1"].value == b[name]["A1"].value && a[name]["A1"].formula == b[name]["A1"].formula
  {
    AcceptedDataAgree(round, a["Data"], b["Data"], rows);
  }
}
