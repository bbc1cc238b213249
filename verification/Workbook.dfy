/**
 The workbook reference program and its independent grader.

 The reference cleans rows, rewrites the Data sheet with relative formulas, adds the Summary sheet
 and fills the formula caches; the workbook grader checks cells by address, recomputing the products and the
 sum in 28-digit decimal arithmetic.  The module proves what each of them does and exactly when the
 grader accepts the reference's own output.
 */
module Workbook {
  import opened Wrappers
  import opened Decimal

  // ---------------------------------------------------------------------------------------------
  // Cleaning
  // ---------------------------------------------------------------------------------------------

  /** A cell value as loaded from the sheet. */
  datatype Raw = Null | Str(s: string) | Int(n: int) | Date(iso: string)

  datatype Row = Row(identity: Raw, date: Raw, quantity: Raw, price: Raw)

  datatype Clean = Clean(id: string, date: string, quantity: int, price: int, amount: int)

  /** `int(x or 0)`, the date normalisation and `str`; None stands for TypeError or ValueError. */
  datatype Parsers = Parsers(number: Raw -> Option<int>, date: Raw -> Option<string>, show: Raw -> string)

  function Parse(p: Parsers, row: Row): Option<Clean> {
    var quantity, price, date := p.number(row.quantity), p.number(row.price), p.date(row.date);
    if quantity.None? || price.None? || date.None? then None
    else Some(Clean(p.show(row.identity), date.value, quantity.value, price.value, quantity.value * price.value))
  }

  /** Row `i` is the first row of its identity, which is not null. */
  ghost predicate FirstOfItsKind(rows: seq<Row>, i: nat)
    requires i < |rows|
  {
    rows[i].identity != Null && forall j :: 0 <= j < i ==> rows[j].identity != rows[i].identity
  }

  /** The first `k` rows, cleaned: in order, exactly the first occurrence of each identity, if it
      parses; a later duplicate never stands in for a first row that does not. */
  ghost function Cleaned(p: Parsers, rows: seq<Row>, k: nat): seq<Clean>
    requires k <= |rows|
  {
    if k == 0 then []
    else
      Cleaned(p, rows, k - 1) +
      (if FirstOfItsKind(rows, k - 1) && Parse(p, rows[k - 1]).Some? then [Parse(p, rows[k - 1]).value] else [])
  }

  /** `c` is what the row says: its identity shown, its date normalised, its own quantity and price in
      their places, and their product. */
  ghost predicate Says(p: Parsers, row: Row, c: Clean) {
    && p.show(row.identity) == c.id && p.date(row.date) == Some(c.date)
    && p.number(row.quantity) == Some(c.quantity) && p.number(row.price) == Some(c.price)
    && c.amount == c.quantity * c.price
  }

  ghost predicate Readable(p: Parsers, row: Row) {
    p.number(row.quantity).Some? && p.number(row.price).Some? && p.date(row.date).Some?
  }

  lemma {:induction false} ParseSays(p: Parsers, row: Row)
    ensures Parse(p, row).Some? <==> Readable(p, row)
    ensures Parse(p, row).Some? ==> Says(p, row, Parse(p, row).value)
    ensures forall c :: Says(p, row, c) ==> Parse(p, row) == Some(c)
  {
  }

  /** The entries stand for the rows `at`, in ascending order: first occurrences, and among the first `k`
      rows all of them whose numbers and date parse. */
  ghost predicate StandFor(p: Parsers, rows: seq<Row>, k: nat, entries: seq<Clean>, at: seq<nat>)
    requires k <= |rows|
  {
    && |at| == |entries|
    && (forall j :: 0 <= j < |at| ==> at[j] < k && FirstOfItsKind(rows, at[j]) && Says(p, rows[at[j]], entries[j]))
    && (forall i, j :: 0 <= i < j < |at| ==> at[i] < at[j])
    && (forall i :: 0 <= i < k && FirstOfItsKind(rows, i) && Readable(p, rows[i]) ==> i in at)
  }

  ghost predicate IsCleaned(p: Parsers, rows: seq<Row>, entries: seq<Clean>) {
    exists at :: StandFor(p, rows, |rows|, entries, at)
  }

  lemma {:induction false} OneMoreEntry(p: Parsers, rows: seq<Row>, k: nat, entries: seq<Clean>, at: seq<nat>, c: Clean)
    requires k < |rows| && StandFor(p, rows, k, entries, at) && FirstOfItsKind(rows, k) && Says(p, rows[k], c)
    ensures StandFor(p, rows, k + 1, entries + [c], at + [k])
  {
    assert (at + [k])[|at|] == k;
  }

  lemma {:induction false} RowSkipped(p: Parsers, rows: seq<Row>, k: nat, entries: seq<Clean>, at: seq<nat>)
    requires k < |rows| && StandFor(p, rows, k, entries, at) && !(FirstOfItsKind(rows, k) && Readable(p, rows[k]))
    ensures StandFor(p, rows, k + 1, entries, at)
  {
  }

  lemma {:induction false} CleanedNext(p: Parsers, rows: seq<Row>, k: nat)
    requires k < |rows|
    ensures FirstOfItsKind(rows, k) && Readable(p, rows[k]) ==>
      && Parse(p, rows[k]).Some? && Says(p, rows[k], Parse(p, rows[k]).value)
      && Cleaned(p, rows, k + 1) == Cleaned(p, rows, k) + [Parse(p, rows[k]).value]
    ensures !(FirstOfItsKind(rows, k) && Readable(p, rows[k])) ==> Cleaned(p, rows, k + 1) == Cleaned(p, rows, k)
  {
    ParseSays(p, rows[k]);
  }

  lemma {:induction false} CleanedStandFor(p: Parsers, rows: seq<Row>, k: nat) returns (at: seq<nat>)
    requires k <= |rows|
    ensures StandFor(p, rows, k, Cleaned(p, rows, k), at)
  {
    at := [];
    if k > 0 {
      at := CleanedStandFor(p, rows, k - 1);
      at := StandForNext(p, rows, k - 1, Cleaned(p, rows, k - 1), at, Cleaned(p, rows, k));
    }
  }

  lemma {:induction false} StandForNext(p: Parsers, rows: seq<Row>, k: nat, before: seq<Clean>, at: seq<nat>, now: seq<Clean>)
    returns (next: seq<nat>)
    requires k < |rows| && StandFor(p, rows, k, before, at)
    requires before == Cleaned(p, rows, k) && now == Cleaned(p, rows, k + 1)
    ensures StandFor(p, rows, k + 1, now, next)
  {
    CleanedNext(p, rows, k);
    if FirstOfItsKind(rows, k) && Readable(p, rows[k]) {
      OneMoreEntry(p, rows, k, before, at, Parse(p, rows[k]).value);
      next := at + [k];
    } else {
      RowSkipped(p, rows, k, before, at);
      next := at;
    }
  }

  method CleanRows(p: Parsers, rows: seq<Row>) returns (result: seq<Clean>)
    ensures IsCleaned(p, rows, result)
    ensures result == Cleaned(p, rows, |rows|)
  {
    result := [];
    var seen := {};
    for i := 0 to |rows|
      invariant result == Cleaned(p, rows, i)
      invariant forall x :: x in seen <==> x != Null && exists j :: 0 <= j < i && rows[j].identity == x
    {
      var identity := rows[i].identity;
      if identity == Null || identity in seen {
        continue;
      }
      seen := seen + {identity};
      var parsed := Parse(p, rows[i]);
      if parsed.None? {
        continue;
      }
      result := result + [parsed.value];
    }
    ghost var at := CleanedStandFor(p, rows, |rows|);
  }

  /** Each cleaned row carries the product of its own numbers. */
  lemma {:induction false} CleanedAmounts(p: Parsers, rows: seq<Row>, k: nat)
    requires k <= |rows|
    ensures forall c :: c in Cleaned(p, rows, k) ==> c.amount == c.quantity * c.price
  {
    if k != 0 {
      CleanedAmounts(p, rows, k - 1);
    }
  }

  /** A row is kept exactly when it is a first occurrence that parses. */
  lemma {:induction false} KeptExactly(p: Parsers, rows: seq<Row>, k: nat, c: Clean)
    requires k <= |rows|
    ensures c in Cleaned(p, rows, k) <==>
      exists i :: 0 <= i < k && FirstOfItsKind(rows, i) && Says(p, rows[i], c)
  {
    if k != 0 {
      KeptExactly(p, rows, k - 1, c);
    }
  }

  // ---------------------------------------------------------------------------------------------
  // Sheets
  // ---------------------------------------------------------------------------------------------

  /** A number that is not an integer is kept as its text: it equals no integer. */
  datatype Value = Text(s: string) | Number(n: int) | NonInteger(text: string)

  datatype Cell = Cell(value: Option<Value>, formula: Option<string>, bold: bool)

  type Sheet = map<string, Cell>

  type Book = map<string, Sheet>

  const COLUMNS := "ABCDE"
  const HEADERS := ["ID", "Date", "Quantity", "Price", "Amount"]

  function Address(column: char, row: nat): string { [column] + Numeral(row) }

  lemma {:induction false} AddressInjective(c: char, m: nat, d: char, n: nat)
    requires Address(c, m) == Address(d, n)
    ensures c == d && m == n
  {
    assert Address(c, m)[0] == c && Address(d, n)[0] == d;
    assert Address(c, m)[1..] == Numeral(m) && Address(d, n)[1..] == Numeral(n);
    NumeralInjective(m, n);
  }

  function Addresses(rows: nat): set<string> {
    set c, r | c in COLUMNS && 1 <= r <= rows + 1 :: Address(c, r)
  }

  /** Text that begins with "=" becomes a formula when it is put into a cell. */
  predicate FormulaLike(s: string) { |s| > 1 && s[0] == '=' }

  function TextCell(s: string): Cell {
    if FormulaLike(s) then Cell(None, Some(s[1..]), false) else Cell(Some(Text(s)), None, false)
  }

  function NumberCell(n: int): Cell { Cell(Some(Number(n)), None, false) }

  function FormulaCell(formula: string): Cell { Cell(None, Some(formula), false) }

  function ProductFormula(row: nat): string { "C" + Numeral(row) + "*D" + Numeral(row) }

  function SumFormula(rows: nat): string { "SUM(Data!E2:E" + Numeral(rows + 1) + ")" }

  // ---------------------------------------------------------------------------------------------
  // The reference
  // ---------------------------------------------------------------------------------------------

  /** The cell of the rewritten Data sheet at a column and a row. */
  function DataCell(rows: seq<Clean>, column: char, r: nat): Cell
    requires 1 <= r <= |rows| + 1
  {
    if r == 1 then
      Cell(Some(Text(if column == 'A' then HEADERS[0] else if column == 'B' then HEADERS[1]
                     else if column == 'C' then HEADERS[2] else if column == 'D' then HEADERS[3] else HEADERS[4])), None, true)
    else
      var row := rows[r - 2];
      if column == 'A' then TextCell(row.id)
      else if column == 'B' then TextCell(row.date)
      else if column == 'C' then NumberCell(row.quantity)
      else if column == 'D' then NumberCell(row.price)
      else FormulaCell(ProductFormula(r))
  }

  /** `sheet` is the rewritten Data sheet for the first `k` rows. */
  ghost predicate IsData(sheet: Sheet, rows: seq<Clean>, k: nat)
    requires k <= |rows|
  {
    && sheet.Keys == Addresses(k)
    && forall c, r :: c in COLUMNS && 1 <= r <= k + 1 ==> Address(c, r) in sheet && sheet[Address(c, r)] == DataCell(rows, c, r)
  }

  function RowAddresses(r: nat): set<string> {
    set c | c in COLUMNS :: Address(c, r)
  }

  lemma AddressesGrow(k: nat)
    ensures Addresses(k + 1) == Addresses(k) + RowAddresses(k + 2)
  {
    forall a | a in Addresses(k + 1)
      ensures a in Addresses(k) || a in RowAddresses(k + 2)
    {
      var c, r :| c in COLUMNS && 1 <= r <= k + 2 && a == Address(c, r);
    }
  }

  /** The five cells of one row. */
  function RowCells(rows: seq<Clean>, r: nat): Sheet
    requires 1 <= r <= |rows| + 1
  {
    map a | a in RowAddresses(r) :: DataCell(rows, a[0], r)
  }

  lemma RowCellsAt(rows: seq<Clean>, r: nat)
    requires 1 <= r <= |rows| + 1
    ensures RowCells(rows, r).Keys == RowAddresses(r)
    ensures forall c :: c in COLUMNS ==> Address(c, r) in RowCells(rows, r) && RowCells(rows, r)[Address(c, r)] == DataCell(rows, c, r)
  {
    forall c | c in COLUMNS
      ensures Address(c, r) in RowAddresses(r) && Address(c, r)[0] == c
    {
    }
  }

  predicate InFirstRow(address: string) {
    |address| > 1 && address[1..] == Numeral(1)
  }

  /** What `delete_rows` from row 2 on leaves of a sheet. */
  function FirstRow(sheet: Sheet): Sheet {
    map a | a in sheet && InFirstRow(a) :: sheet[a]
  }

  /** The first row is the header that `render` writes: five bold texts and nothing else. */
  predicate Headed(sheet: Sheet) {
    FirstRow(sheet) == RowCells([], 1)
  }

  /** The rows after the header are deleted, whatever they hold; the header row stays as it came, and
      each cleaned row is then appended at the next index. */
  method RewriteData(input: Sheet, rows: seq<Clean>) returns (sheet: Sheet)
    requires Headed(input)
    ensures IsData(sheet, rows, |rows|)
  {
    sheet := FirstRow(input);
    assert sheet == RowCells(rows, 1);
    HeaderIsData(sheet, rows);
    for i := 0 to |rows|
      invariant IsData(sheet, rows, i)
    {
      var more := RowCells(rows, i + 2);
      AppendIsData(sheet, rows, i);
      sheet := sheet + more;
    }
  }

  lemma HeaderIsData(sheet: Sheet, rows: seq<Clean>)
    requires sheet == RowCells(rows, 1)
    ensures IsData(sheet, rows, 0)
  {
    RowCellsAt(rows, 1);
    forall a | a in Addresses(0)
      ensures a in sheet
    {
      var c, r :| c in COLUMNS && 1 <= r <= 1 && a == Address(c, r);
    }
  }

  lemma AppendIsData(sheet: Sheet, rows: seq<Clean>, k: nat)
    requires k < |rows| && IsData(sheet, rows, k)
    ensures IsData(sheet + RowCells(rows, k + 2), rows, k + 1)
  {
    RowCellsAt(rows, k + 2);
    AddressesGrow(k);
    var more := RowCells(rows, k + 2);
    forall c, r | c in COLUMNS && 1 <= r <= k + 2
      ensures Address(c, r) in sheet + more && (sheet + more)[Address(c, r)] == DataCell(rows, c, r)
    {
      if r <= k + 1 {
        NotInLaterRow(rows, c, r, k + 2);
      }
    }
  }

  lemma NotInLaterRow(rows: seq<Clean>, c: char, r: nat, later: nat)
    requires 1 <= later <= |rows| + 1 && r != later
    ensures Address(c, r) !in RowCells(rows, later)
  {
    RowCellsAt(rows, later);
    if Address(c, r) in RowCells(rows, later) {
      var d :| d in COLUMNS && Address(d, later) == Address(c, r);
      AddressInjective(d, later, c, r);
    }
  }

  function Total(rows: seq<Clean>, k: nat): int
    requires k <= |rows|
  {
    if k == 0 then 0 else Total(rows, k - 1) + rows[k - 1].amount
  }

  predicate StartsWith(s: string, prefix: string) {
    |prefix| <= |s| && s[..|prefix|] == prefix
  }

  /** The cache written into a formula cell.  The row index may be negative, in which case it counts
      from the end as Python's indices do; None stands for an IndexError. */
  function CacheOf(rows: seq<Clean>, address: string, formula: string): Option<int>
    requires address != ""
  {
    if StartsWith(formula, "SUM(") then Some(Total(rows, |rows|))
    else
      var i := NumeralValue(address[1..]) - 2;
      if 0 <= i < |rows| then Some(rows[i].amount)
      else if -|rows| <= i < 0 then Some(rows[i + |rows|].amount)
      else None
  }

  function FillCell(rows: seq<Clean>, address: string, cell: Cell): Option<Cell>
    requires address != ""
  {
    if cell.formula.None? then Some(cell)
    else
      var cache := CacheOf(rows, address, cell.formula.value);
      if cache.None? then None else Some(cell.(value := Some(Number(cache.value))))
  }

  predicate Fillable(rows: seq<Clean>, sheet: Sheet) {
    forall a :: a in sheet ==> a != "" && FillCell(rows, a, sheet[a]).Some?
  }

  function Fill(rows: seq<Clean>, sheet: Sheet): Sheet
    requires Fillable(rows, sheet)
  {
    map a | a in sheet :: FillCell(rows, a, sheet[a]).value
  }

  function SummarySheet(rows: nat): Sheet {
    map["A1" := TextCell("Total"), "B1" := FormulaCell(SumFormula(rows))]
  }

  function ExtraSheet(text: string): Sheet {
    map["A1" := TextCell(text)]
  }

  ghost predicate ExtraFails(rows: seq<Clean>, extras: map<string, string>) {
    exists name :: name in extras && name != "Summary" && !Fillable(rows, ExtraSheet(extras[name]))
  }

  /** The other sheets with their caches; None stands for an IndexError. */
  method FillExtras(rows: seq<Clean>, extras: map<string, string>) returns (others: Option<Book>)
    ensures others.None? <==> ExtraFails(rows, extras)
    ensures others.Some? ==>
      && others.value.Keys == extras.Keys - {"Summary"}
      && forall name :: name in others.value ==>
           Fillable(rows, ExtraSheet(extras[name])) && others.value[name] == Fill(rows, ExtraSheet(extras[name]))
  {
    if exists name :: name in extras && name != "Summary" && !Fillable(rows, ExtraSheet(extras[name])) {
      return None;
    }
    return Some(map name | name in extras && name != "Summary" :: Fill(rows, ExtraSheet(extras[name])));
  }

  /** The reference from the cleaned rows on; None stands for an IndexError.  A sheet that is
      already called Summary is overwritten. */
  method Reference(input: Sheet, rows: seq<Clean>, extras: map<string, string>) returns (book: Option<Book>)
    requires Headed(input) && "Data" !in extras
    ensures book.None? <==> ExtraFails(rows, extras)
    ensures book.Some? ==> IsReference(book.value, rows, extras)
  {
    var data := RewriteData(input, rows);
    DataFillable(data, rows);
    SummaryFillable(rows);
    var others := FillExtras(rows, extras);
    if others.None? {
      return None;
    }
    var result := Assemble(others.value, Fill(rows, data), Fill(rows, SummarySheet(|rows|)));
    book := Some(result);
  }

  method Assemble(others: Book, data: Sheet, summary: Sheet) returns (book: Book)
    ensures book.Keys == {"Data", "Summary"} + others.Keys
    ensures book["Data"] == data && book["Summary"] == summary
    ensures forall name :: name in others && name != "Data" && name != "Summary" ==> book[name] == others[name]
  {
    assert "Data"[0] != "Summary"[0];
    book := others["Data" := data]["Summary" := summary];
  }

  ghost predicate IsReference(book: Book, rows: seq<Clean>, extras: map<string, string>) {
    && book.Keys == {"Data", "Summary"} + extras.Keys
    && (exists data :: IsData(data, rows, |rows|) && Fillable(rows, data) && book["Data"] == Fill(rows, data))
    && Fillable(rows, SummarySheet(|rows|)) && book["Summary"] == Fill(rows, SummarySheet(|rows|))
    && forall name :: name in extras && name != "Data" && name != "Summary" ==>
         Fillable(rows, ExtraSheet(extras[name])) && book[name] == Fill(rows, ExtraSheet(extras[name]))
  }

  lemma RowOfAddress(c: char, r: nat)
    ensures Address(c, r) != "" && NumeralValue(Address(c, r)[1..]) == r
  {
    assert Address(c, r)[1..] == Numeral(r);
    NumeralValueOf(r);
  }

  lemma DataFillable(data: Sheet, rows: seq<Clean>)
    requires IsData(data, rows, |rows|)
    ensures Fillable(rows, data)
  {
    forall a | a in data
      ensures a != "" && FillCell(rows, a, data[a]).Some?
    {
      assert a in Addresses(|rows|);
      var c, r :| c in COLUMNS && 1 <= r <= |rows| + 1 && a == Address(c, r);
      RowOfAddress(c, r);
      assert data[a] == DataCell(rows, c, r);
    }
  }

  lemma SummaryFillable(rows: seq<Clean>)
    ensures Fillable(rows, SummarySheet(|rows|))
  {
    assert SumFormula(|rows|)[..4] == "SUM(";
  }

  // ---------------------------------------------------------------------------------------------
  // The formulas
  // ---------------------------------------------------------------------------------------------

  /** A row's formula multiplies the quantity and the price cell of that row, and the total sums the
      amount cells from the first row to the last. */
  lemma {:induction false} FormulasCiteTheirCells(r: nat, n: nat)
    ensures ProductFormula(r) == Address('C', r) + "*" + Address('D', r)
    ensures SumFormula(n) == "SUM(Data!" + Address('E', 2) + ":" + Address('E', n + 1) + ")"
  {
    assert Numeral(2) == "2";
    assert "SUM(Data!" + Address('E', 2) + ":" == "SUM(Data!E2:";
    assert "SUM(Data!E2:" + Address('E', n + 1) == "SUM(Data!E2:E" + Numeral(n + 1);
  }
}
