/**
 * The CSV importer: maps the rows of the file the CSV exporter writes to a snapshot.
 * Rows arrive already split into fields; reading and tokenising the file is not part of
 * this model.
 */
module CsvImport {
  import opened Models

  /** Rows shorter than this are skipped. */
  const MIN_FIELDS: nat := 10

  const ACCOUNT_ROW: string := "account"
  const CATEGORY_ROW: string := "category"
  const OPERATION_ROW: string := "operation"

  /** A row of the given kind that has every column. */
  predicate IsRowOf(row: seq<string>, kind: string) {
    |row| >= MIN_FIELDS && row[0] == kind
  }

  /** Columns: id 1, name 2, balance 4. */
  function AccountRow(row: seq<string>, p: Parsers): BankAccount
    requires |row| >= MIN_FIELDS
  {
    BankAccount(row[1], row[2], NumberOr0(p, row[4]))
  }

  /** Columns: id 1, name 2, type 3. */
  function CategoryRow(row: seq<string>): Category
    requires |row| >= MIN_FIELDS
  {
    Category(row[1], row[3], row[2])
  }

  /** Columns: id 1, type 3, account 5, category 6, amount 7, date 8, description 9. */
  function OperationRow(row: seq<string>, p: Parsers): Operation
    requires |row| >= MIN_FIELDS
  {
    Operation(row[1], row[3], row[5], NumberOr0(p, row[7]), TimeOr0(p, row[8]), row[9], row[6])
  }

  /** The rows of one kind, in order. */
  function RowsOf(rows: seq<seq<string>>, kind: string): (r: seq<seq<string>>)
    ensures |r| <= |rows|
    ensures forall i :: 0 <= i < |r| ==> IsRowOf(r[i], kind)
  {
    if rows == [] then []
    else
      var last := rows[|rows| - 1];
      RowsOf(rows[..|rows| - 1], kind) + (if IsRowOf(last, kind) then [last] else [])
  }

  /** Filtering two runs of rows one after the other concatenates what each keeps, so
      the kept rows stay in row order. */
  lemma {:induction false} RowsOfConcat(a: seq<seq<string>>, b: seq<seq<string>>, kind: string)
    ensures RowsOf(a + b, kind) == RowsOf(a, kind) + RowsOf(b, kind)
    decreases |b|
  {
    if b == [] {
      assert a + b == a;
    } else {
      var b' := b[..|b| - 1];
      assert (a + b)[..|a + b| - 1] == a + b';
      assert (a + b)[|a + b| - 1] == b[|b| - 1];
      RowsOfConcat(a, b', kind);
    }
  }

  /** A single row is kept exactly when it is of the kind and has every column. */
  lemma RowsOfSingle(row: seq<string>, kind: string)
    ensures RowsOf([row], kind) == if IsRowOf(row, kind) then [row] else []
  {
    assert [row][..0] == [];
  }

  /** Every row of the kind that has every column is kept. */
  lemma {:induction false} RowsOfKeeps(rows: seq<seq<string>>, i: nat, kind: string)
    requires i < |rows| && IsRowOf(rows[i], kind)
    ensures rows[i] in RowsOf(rows, kind)
  {
    assert rows == rows[..i] + [rows[i]] + rows[i + 1..];
    RowsOfConcat(rows[..i] + [rows[i]], rows[i + 1..], kind);
    RowsOfConcat(rows[..i], [rows[i]], kind);
    RowsOfSingle(rows[i], kind);
  }

  /** The accounts a run of data rows yields: one per account row, in row order. */
  function AccountsOf(rows: seq<seq<string>>, p: Parsers): (r: seq<BankAccount>)
    ensures |r| == |RowsOf(rows, ACCOUNT_ROW)|
    ensures forall i :: 0 <= i < |r| ==> r[i] == AccountRow(RowsOf(rows, ACCOUNT_ROW)[i], p)
  {
    if rows == [] then []
    else
      var last := rows[|rows| - 1];
      AccountsOf(rows[..|rows| - 1], p) + (if IsRowOf(last, ACCOUNT_ROW) then [AccountRow(last, p)] else [])
  }

  /** The categories a run of data rows yields: one per category row, in row order. */
  function CategoriesOf(rows: seq<seq<string>>): (r: seq<Category>)
    ensures |r| == |RowsOf(rows, CATEGORY_ROW)|
    ensures forall i :: 0 <= i < |r| ==> r[i] == CategoryRow(RowsOf(rows, CATEGORY_ROW)[i])
  {
    if rows == [] then []
    else
      var last := rows[|rows| - 1];
      CategoriesOf(rows[..|rows| - 1]) + (if IsRowOf(last, CATEGORY_ROW) then [CategoryRow(last)] else [])
  }

  /** The operations a run of data rows yields: one per operation row, in row order. */
  function OperationsOf(rows: seq<seq<string>>, p: Parsers): (r: seq<Operation>)
    ensures |r| == |RowsOf(rows, OPERATION_ROW)|
    ensures forall i :: 0 <= i < |r| ==> r[i] == OperationRow(RowsOf(rows, OPERATION_ROW)[i], p)
  {
    if rows == [] then []
    else
      var last := rows[|rows| - 1];
      OperationsOf(rows[..|rows| - 1], p) + (if IsRowOf(last, OPERATION_ROW) then [OperationRow(last, p)] else [])
  }

  /** What Import returns: nothing for no rows, otherwise the data rows after the header. */
  function ImportCsv(rows: seq<seq<string>>, p: Parsers): StorageData {
    if rows == [] then EMPTY
    else
      var body := rows[1..];
      StorageData(AccountsOf(body, p), CategoriesOf(body), OperationsOf(body, p))
  }

  /** CSVImporter.Import on the rows the file holds. */
  method Import(rows: seq<seq<string>>, p: Parsers) returns (data: StorageData)
    ensures data == ImportCsv(rows, p)
  {
    if |rows| == 0 {
      return EMPTY;
    }
    var body := rows[1..];
    data := EMPTY;
    for i := 0 to |body|
      invariant data == StorageData(AccountsOf(body[..i], p), CategoriesOf(body[..i]), OperationsOf(body[..i], p))
    {
      assert body[..i + 1][..i] == body[..i];
      var row := body[i];
      if |row| < MIN_FIELDS {
        continue;
      }
      var entity := row[0];
      if entity == ACCOUNT_ROW {
        data := data.(accounts := data.accounts + [AccountRow(row, p)]);
      } else if entity == CATEGORY_ROW {
        data := data.(categories := data.categories + [CategoryRow(row)]);
      } else if entity == OPERATION_ROW {
        data := data.(operations := data.operations + [OperationRow(row, p)]);
      }
    }
    assert body[..|body|] == body;
  }

  /** Importing two runs of data rows one after the other concatenates what each yields. */
  lemma {:induction false} ImportConcat(a: seq<seq<string>>, b: seq<seq<string>>, p: Parsers)
    ensures AccountsOf(a + b, p) == AccountsOf(a, p) + AccountsOf(b, p)
    ensures CategoriesOf(a + b) == CategoriesOf(a) + CategoriesOf(b)
    ensures OperationsOf(a + b, p) == OperationsOf(a, p) + OperationsOf(b, p)
    decreases |b|
  {
    if b == [] {
      assert a + b == a;
    } else {
      var b' := b[..|b| - 1];
      assert (a + b)[..|a + b| - 1] == a + b';
      assert (a + b)[|a + b| - 1] == b[|b| - 1];
      ImportConcat(a, b', p);
    }
  }

  /** The header row is never read: any header gives the same snapshot. */
  lemma HeaderIgnored(h1: seq<string>, h2: seq<string>, body: seq<seq<string>>, p: Parsers)
    ensures ImportCsv([h1] + body, p) == ImportCsv([h2] + body, p)
  {
    assert ([h1] + body)[1..] == body;
    assert ([h2] + body)[1..] == body;
  }

  /** A data row that is short or of no known kind adds nothing. */
  lemma {:induction false} OtherRowsIgnored(rows: seq<seq<string>>, row: seq<string>, p: Parsers)
    requires rows != []
    requires |row| < MIN_FIELDS || (row[0] != ACCOUNT_ROW && row[0] != CATEGORY_ROW && row[0] != OPERATION_ROW)
    ensures ImportCsv(rows + [row], p) == ImportCsv(rows, p)
  {
    var body := rows[1..];
    assert (rows + [row])[1..] == body + [row];
    ImportConcat(body, [row], p);
    assert [row][..0] == [];
  }
}
