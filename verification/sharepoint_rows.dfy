/**
 * How the reminder engine reads one sheet row: Excel column letters, the
 * cell address a notification points at, and the reasons a row is reported
 * for (automation/reminders/sharepoint_client.py).
 *
 * A cell is `None` when pandas reads it as NaN, which for this workbook is
 * exactly an empty cell. A date cell is reported through `days`, the whole
 * days from today to the date the cell parses to, or `None` when it does not
 * parse.
 */
module SharePointRows {
  import opened Wrappers
  import opened Text
  import opened ReminderModels

  predicate IsLetter(c: char) {
    'A' <= c <= 'Z'
  }

  predicate AllLetters(s: string) {
    forall i :: 0 <= i < |s| ==> IsLetter(s[i])
  }

  /** `get_column_letter(n)`: column `n`, counting from 1, in bijective base 26 (A..Z, AA..ZZ, AAA..). */
  function Letters(n: nat): (s: string)
    requires n >= 1
    ensures s != [] && AllLetters(s)
    decreases n
  {
    var c := ('A' as int + (n - 1) % 26) as char;
    if (n - 1) / 26 == 0 then [c] else Letters((n - 1) / 26) + [c]
  }

  /** The column number a run of letters names. */
  function ColumnIndex(s: string): (n: nat)
    requires AllLetters(s)
    ensures n >= |s|
  {
    if s == [] then 0 else ColumnIndex(s[..|s| - 1]) * 26 + (s[|s| - 1] as int - 'A' as int + 1)
  }

  /** The letters of a column name it again. */
  lemma {:induction false} LettersRoundTrip(n: nat)
    requires n >= 1
    ensures ColumnIndex(Letters(n)) == n
    decreases n
  {
    var s := Letters(n);
    var q := (n - 1) / 26;
    if q != 0 {
      LettersRoundTrip(q);
      assert s[..|s| - 1] == Letters(q);
    } else {
      assert s[..|s| - 1] == [];
    }
  }

  /** Every non-empty run of letters is the name of exactly the column it reads as. */
  lemma {:induction false} IndexRoundTrip(s: string)
    requires s != [] && AllLetters(s)
    ensures ColumnIndex(s) >= 1 && Letters(ColumnIndex(s)) == s
    decreases |s|
  {
    var init := s[..|s| - 1];
    var k := ColumnIndex(init);
    var d := s[|s| - 1] as int - 'A' as int;
    var n := ColumnIndex(s);
    assert n - 1 == k * 26 + d;
    assert (n - 1) / 26 == k && (n - 1) % 26 == d;
    if init == [] {
      assert s == [s[0]];
    } else {
      IndexRoundTrip(init);
      assert s == init + [s[|s| - 1]];
    }
  }

  /** The last column `get_column_letter` names, "ZZZ"; it refuses any index past it. */
  const MaxColumn := 18278

  /** `get_excel_col(i)`: the letters of column `i + 1`, or nothing where `get_column_letter` raises. */
  function ExcelCol(zeroBased: int): (r: Option<string>)
    ensures r.Some? <==> 0 <= zeroBased < MaxColumn
  {
    if 0 <= zeroBased && zeroBased + 1 <= MaxColumn then Some(Letters(zeroBased + 1)) else None
  }

  /** `get_excel_col` names column `i + 1`, and only indexes from 0 to MaxColumn - 1 have a name. */
  lemma ExcelColRoundTrip(zeroBased: int)
    requires 0 <= zeroBased < MaxColumn
    ensures ExcelCol(zeroBased).Some? && ColumnIndex(ExcelCol(zeroBased).value) == zeroBased + 1
  {
    LettersRoundTrip(zeroBased + 1);
  }

  // The template's columns, counting from 0 (`col_tag`).
  const StatusColumn := 3
  const TaskColumn := 4
  const OwnerColumn := 5
  const StartColumn := 6
  const DueColumn := 9
  const GroupColumn := 12

  /** The template's status, task, owner, start and due columns are D, E, F, G and J, and the group name is in M. */
  lemma TemplateLetters()
    ensures ExcelCol(StatusColumn) == Some("D") && ExcelCol(TaskColumn) == Some("E")
    ensures ExcelCol(OwnerColumn) == Some("F") && ExcelCol(StartColumn) == Some("G")
    ensures ExcelCol(DueColumn) == Some("J") && ExcelCol(GroupColumn) == Some("M")
  {
  }

  /** One data row of the template: the cells the engine reads. */
  datatype Row = Row(status: Option<string>, task: Option<string>, owner: Option<string>,
                     start: Option<string>, due: Option<string>, group: Option<string>)

  /** The status says the task needs no reminder: "done" or "n/a" in any case. */
  predicate Closed(status: Option<string>) {
    status.Some? && (Lower(status.value) == "done" || Lower(status.value) == "n/a")
  }

  /** A date check: a missing date is reported, and so is a date exactly one day away. */
  function DateReasons(cell: Option<string>, days: string -> Option<int>, missing: Reason, near: Reason): seq<Reason> {
    if cell.None? then [missing]
    else
      match days(cell.value)
      case Some(d) => if d == 1 || d == -1 then [near] else []
      case None => []
  }

  /**
   * `_process_row`: the reasons a data row (0-based `rowIdx`) is reported
   * for, in the order the notifications are written. An owner problem is
   * reported alone; otherwise the start and the due date are checked in turn.
   */
  function RowReasons(row: Row, rowIdx: nat, days: string -> Option<int>): seq<Reason> {
    if rowIdx == 0 || row.task.None? || Closed(row.status) then []
    else if row.owner.None? then [OwnerMissing]
    else if '@' !in row.owner.value then [OwnerInvalid]
    else DateReasons(row.start, days, StartMissing, StartNear) + DateReasons(row.due, days, DueMissing, DueNear)
  }

  /** The row is one the engine checks: not the first data row, with a task, and not closed. */
  predicate Open(row: Row, rowIdx: nat) {
    rowIdx != 0 && row.task.Some? && !Closed(row.status)
  }

  /** The owner cell holds something with an '@'. */
  predicate OwnerLooksValid(row: Row) {
    row.owner.Some? && '@' in row.owner.value
  }

  /** The date cell parses to a day exactly one day before or after today. */
  predicate OneDayAway(cell: Option<string>, days: string -> Option<int>) {
    cell.Some? && days(cell.value).Some? && (days(cell.value).value == 1 || days(cell.value).value == -1)
  }

  /** When the row deserves a reminder for `r`, reason by reason. */
  predicate Flagged(row: Row, rowIdx: nat, days: string -> Option<int>, r: Reason) {
    Open(row, rowIdx) &&
    match r
    case OwnerMissing => row.owner.None?
    case OwnerInvalid => row.owner.Some? && !OwnerLooksValid(row)
    case StartMissing => OwnerLooksValid(row) && row.start.None?
    case StartNear => OwnerLooksValid(row) && OneDayAway(row.start, days)
    case DueMissing => OwnerLooksValid(row) && row.due.None?
    case DueNear => OwnerLooksValid(row) && OneDayAway(row.due, days)
  }

  /**
   * A row is reported for a reason exactly when it deserves a reminder for
   * it, each reason at most once; an owner problem is the only reason
   * reported, and a row is reported for at most one reason per date.
   */
  lemma RowReasonsExactly(row: Row, rowIdx: nat, days: string -> Option<int>)
    ensures forall r :: r in RowReasons(row, rowIdx, days) <==> Flagged(row, rowIdx, days, r)
    ensures var rs := RowReasons(row, rowIdx, days);
            && (forall i, j :: 0 <= i < j < |rs| ==> rs[i] != rs[j])
            && (OwnerMissing in rs || OwnerInvalid in rs ==> |rs| == 1)
            && |rs| <= 2
  {
  }

  /** The cell a reason points at: the owner, start or due column. */
  function ReasonColumn(r: Reason): nat {
    match r
    case OwnerMissing => OwnerColumn
    case OwnerInvalid => OwnerColumn
    case StartMissing => StartColumn
    case StartNear => StartColumn
    case DueMissing => DueColumn
    case DueNear => DueColumn
  }

  /** The row number a notification stores for a data row: its row in the sheet. */
  function StoredRow(rowIdx: nat): nat {
    rowIdx + 2
  }

  /** The `field_address` of a notification: the reason's column letters followed by the 0-based data row index. */
  function FieldAddress(r: Reason, rowIdx: nat): string {
    Letters(ReasonColumn(r) + 1) + NatToString(rowIdx)
  }

  /** The number of letters an address starts with. */
  function LetterCount(s: string): (k: nat)
    ensures k <= |s| && AllLetters(s[..k])
    ensures k < |s| ==> !IsLetter(s[k])
  {
    if s != [] && IsLetter(s[0]) then
      var k := LetterCount(s[1..]);
      k + 1
    else 0
  }

  /** Reads an A1-style address into its column and row numbers. */
  function ParseAddress(a: string): Option<(nat, nat)> {
    var k := LetterCount(a);
    if k != 0 && k < |a| && AllDigits(a[k..]) then Some((ColumnIndex(a[..k]), ParseDecimal(a[k..]))) else None
  }

  lemma {:induction false} LetterCountOf(l: string, d: string)
    requires AllLetters(l) && (d == [] || !IsLetter(d[0]))
    ensures LetterCount(l + d) == |l|
    decreases |l|
  {
    if l != [] {
      assert (l + d)[1..] == l[1..] + d;
      LetterCountOf(l[1..], d);
    } else {
      assert l + d == d;
    }
  }

  /** An address made of a column's letters and a row number reads back as that column and row. */
  lemma AddressRoundTrip(column: nat, row: nat)
    requires column >= 1
    ensures ParseAddress(Letters(column) + NatToString(row)) == Some((column, row))
  {
    var l := Letters(column);
    var d := NatToString(row);
    var a := l + d;
    LetterCountOf(l, d);
    assert a[..|l|] == l && a[|l|..] == d;
    LettersRoundTrip(column);
    ParseNatToString(row);
  }

  /**
   * The cell a notification points at lies in the reason's column but two
   * rows above the row the notification stores.
   */
  lemma FieldAddressRowLag(r: Reason, rowIdx: nat)
    ensures ParseAddress(FieldAddress(r, rowIdx)) == Some((ReasonColumn(r) + 1, StoredRow(rowIdx) - 2))
  {
    AddressRoundTrip(ReasonColumn(r) + 1, rowIdx);
  }
}
