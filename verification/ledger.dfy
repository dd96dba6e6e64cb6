/** The order ledger: the 'Commandes' sheet as a sequence of rows behind a
    header row, the row an intake appends, and the manual settlement that
    marks an order paid. */
module Ledger {
  import opened Js
  import opened Order
  import opened Billing
  import opened Labels

  /** What one spreadsheet cell holds. */
  datatype Cell = Text(text: string) | Amount(value: int) | Instant(ms: int)

  type Row = seq<Cell>
  type Sheet = seq<Row>

  /** The 'Commandes' tab, or `None` while it does not exist yet. */
  type Book = Option<Sheet>

  const Blank: Cell := Text("")

  /** Column layout of an order row (zero-based). */
  const Width: nat := 18
  const DateCol: nat := 0
  const RefCol: nat := 1
  const StatusCol: nat := 2
  const FirstNameCol: nat := 3
  const LastNameCol: nat := 4
  const EmailCol: nat := 5
  const PhoneCol: nat := 6
  const CompanyCol: nat := 7
  const PlanCol: nat := 8
  const MethodCol: nat := 9
  const CurrencyCol: nat := 10
  const FirstAmountCol: nat := 11
  const FirstPaidCol: nat := 14
  const NotesCol: nat := 17

  /** The header row written when the tab is created. */
  const Header: Row := [
    Text("Date"), Text("Référence"), Text("Statut"), Text("Prénom"), Text("Nom"),
    Text("Email"), Text("Téléphone"), Text("Entreprise"), Text("Plan"),
    Text("Méthode"), Text("Devise"), Text("Montant 1"), Text("Montant 2"),
    Text("Montant 3"), Text("Date Paiement 1"), Text("Date Paiement 2"),
    Text("Date Paiement 3"), Text("Notes")
  ]

  /** Status texts. */
  const Paid: string := "Payé"

  /** The two versions of the script differ in the status and notes they
      give a new row. */
  datatype Version = Original | Optimised

  /** A new row is never born paid, and the two versions label it apart. */
  function IntakeStatus(v: Version): (r: string)
    ensures r != Paid
    ensures r == "En attente" <==> v == Original
    ensures v == Optimised ==> r == "En attente de vérification"
  {
    match v
    case Original => "En attente"
    case Optimised => "En attente de vérification"
  }

  /** The optimised version notes when the customer declared the payment;
      `stamp` is the clock formatted in the fr-FR locale. */
  function IntakeNotes(v: Version, stamp: string): (r: string)
    ensures v == Original ==> r == ""
    ensures v == Optimised ==> |r| > |stamp| && r[|r| - |stamp|..] == stamp
  {
    match v
    case Original => ""
    case Optimised => "Client a cliqué \"J'ai payé\" le " + stamp
  }

  // ---------------------------------------------------------------------
  // Cells
  // ---------------------------------------------------------------------

  /** A cell as the sheet's data range reports it: past the end of a row
      the range is padded with empty cells. */
  function CellAt(row: Row, c: nat): Cell {
    if c < |row| then row[c] else Blank
  }

  function Blanks(n: nat): (r: seq<Cell>)
    ensures |r| == n
    ensures forall k :: 0 <= k < n ==> r[k] == Blank
  {
    seq(n, _ => Blank)
  }

  /** Writing one cell: a write past the end of a row widens it. */
  function PutCell(row: Row, c: nat, v: Cell): (r: Row)
    ensures |r| == if c < |row| then |row| else c + 1
    ensures CellAt(r, c) == v
    ensures forall k: nat :: k != c ==> CellAt(r, k) == CellAt(row, k)
  {
    if c < |row| then row[c := v] else row + Blanks(c - |row|) + [v]
  }

  /** A second write of the same value to the same cell changes nothing. */
  lemma PutCellTwice(row: Row, c: nat, v: Cell)
    ensures PutCell(PutCell(row, c, v), c, v) == PutCell(row, c, v)
  {
  }

  // ---------------------------------------------------------------------
  // Intake: building and appending the order row
  // ---------------------------------------------------------------------

  /** The three amount cells of a row. */
  function AmountCells(amounts: seq<int>): (r: seq<Cell>)
    requires |amounts| == 3
    ensures |r| == 3
    ensures forall k :: 0 <= k < 3 ==> r[k] == Amount(amounts[k])
  {
    [Amount(amounts[0]), Amount(amounts[1]), Amount(amounts[2])]
  }

  /** The contact cells of a row, columns 3 to 7: first name, last name,
      e-mail, phone and company; an absent company reads as empty, just as
      `data.company || ''` does. */
  function ContactCells(data: Submission): (r: seq<Cell>)
    ensures |r| == 5
    ensures r[FirstNameCol - 3] == Text(FieldText(data.firstName))
    ensures r[LastNameCol - 3] == Text(FieldText(data.lastName))
    ensures r[EmailCol - 3] == Text(FieldText(data.email))
    ensures r[PhoneCol - 3] == Text(FieldText(data.phone))
    ensures r[CompanyCol - 3] == Text(FieldText(data.company))
  {
    [Text(FieldText(data.firstName)), Text(FieldText(data.lastName)), Text(FieldText(data.email)),
     Text(FieldText(data.phone)), Text(FieldText(data.company))]
  }

  /** The row `saveToSheet` / `saveToSheetAsync` appends, or `None` when
      building it throws: `data.currency.toUpperCase()` fails on an absent
      currency. */
  function BuildRow(v: Version, data: Submission, now: int, stamp: string): (r: Option<Row>)
    ensures r.None? <==> data.currency.None?
    ensures r.Some? ==> |r.value| == Width == |Header|
    ensures r.Some? ==> r.value[DateCol] == Instant(now)
    ensures r.Some? ==> r.value[RefCol] == Text(FieldText(data.reference))
    ensures r.Some? ==> r.value[StatusCol] == Text(IntakeStatus(v))
    ensures r.Some? ==> r.value[FirstNameCol] == Text(FieldText(data.firstName))
    ensures r.Some? ==> r.value[LastNameCol] == Text(FieldText(data.lastName))
    ensures r.Some? ==> r.value[EmailCol] == Text(FieldText(data.email))
    ensures r.Some? ==> r.value[PhoneCol] == Text(FieldText(data.phone))
    ensures r.Some? ==> r.value[CompanyCol] == Text(FieldText(data.company))
    ensures r.Some? ==> r.value[PlanCol] == Text(PlanLabel(PlanOf(data.paymentPlan)))
    ensures r.Some? ==> r.value[MethodCol] == Text(FieldText(MethodName(data.paymentMethod)))
    ensures r.Some? ==> r.value[CurrencyCol] == Text(ToUpper(data.currency.value))
    ensures r.Some? ==> r.value[FirstAmountCol..FirstAmountCol + 3] == AmountCells(CalculateAmounts(data))
    ensures r.Some? ==> r.value[FirstPaidCol..FirstPaidCol + 3] == [Blank, Blank, Blank]
    ensures r.Some? ==> r.value[NotesCol] == Text(IntakeNotes(v, stamp))
  {
    match data.currency
    case None => None
    case Some(currency) =>
      var head := [Instant(now), Text(FieldText(data.reference)), Text(IntakeStatus(v))]
        + ContactCells(data)
        + [Text(PlanLabel(PlanOf(data.paymentPlan))),
           Text(FieldText(MethodName(data.paymentMethod))),
           Text(ToUpper(currency))];
      Some(head + AmountCells(CalculateAmounts(data)) + [Blank, Blank, Blank] + [Text(IntakeNotes(v, stamp))])
  }

  /** The columns the row is read back by carry the headings that name them. */
  lemma HeaderNamesColumns()
    ensures |Header| == Width
    ensures Header[RefCol] == Text("Référence") && Header[StatusCol] == Text("Statut")
    ensures Header[FirstNameCol] == Text("Prénom") && Header[LastNameCol] == Text("Nom")
    ensures Header[EmailCol] == Text("Email") && Header[PlanCol] == Text("Plan")
    ensures Header[PhoneCol] == Text("Téléphone") && Header[CompanyCol] == Text("Entreprise")
    ensures Header[MethodCol] == Text("Méthode") && Header[CurrencyCol] == Text("Devise")
    ensures Header[FirstAmountCol] == Text("Montant 1") && Header[FirstPaidCol] == Text("Date Paiement 1")
    ensures Header[NotesCol] == Text("Notes")
  {
  }

  /** The rows of the tab once it has been opened, creating it with its
      header row if it was missing. */
  function Opened(book: Book): (s: Sheet)
    ensures book.None? ==> s == [Header]
    ensures book.Some? ==> s == book.value
  {
    match book
    case None => [Header]
    case Some(rows) => rows
  }

  /** The state of the spreadsheet after a save, and whether the save threw. */
  datatype Saved = Saved(book: Book, failed: bool)

  /** `saveToSheet` / `saveToSheetAsync` (the try/catch of the latter is the
      caller's concern). `sheetDown` stands for the spreadsheet service
      throwing when the workbook is opened. */
  function SaveToSheet(v: Version, book: Book, data: Submission, now: int, stamp: string, sheetDown: bool): (r: Saved)
    ensures sheetDown ==> r.book == book && r.failed
    ensures !sheetDown ==> r.book.Some? && r.failed == data.currency.None?
    ensures !sheetDown && data.currency.None? ==> r.book.value == Opened(book)
    ensures !sheetDown && data.currency.Some? ==>
      && |r.book.value| == |Opened(book)| + 1
      && r.book.value[..|Opened(book)|] == Opened(book)
      && r.book.value[|Opened(book)|] == BuildRow(v, data, now, stamp).value
  {
    if sheetDown then Saved(book, true)
    else
      var rows := Opened(book);
      match BuildRow(v, data, now, stamp)
      case None => Saved(Some(rows), true)
      case Some(row) => Saved(Some(rows + [row]), false)
  }

  // ---------------------------------------------------------------------
  // Settlement: finding an order by reference and marking it paid
  // ---------------------------------------------------------------------

  /** The reference cell of a row equals `reference` (strict equality). A row
      too short to hold a reference reads as empty there, so it matches only
      the empty reference. */
  predicate Matches(row: Row, reference: string)
    ensures Matches(row, reference) && |row| <= RefCol ==> reference == ""
  {
    CellAt(row, RefCol) == Text(reference)
  }

  /** Row `i` is the first data row (below the header) with this reference. */
  predicate IsFirstMatch(sheet: Sheet, reference: string, i: int) {
    && 1 <= i < |sheet|
    && Matches(sheet[i], reference)
    && forall j :: 1 <= j < i ==> !Matches(sheet[j], reference)
  }

  /** Some data row carries this reference. */
  predicate HasReference(sheet: Sheet, reference: string) {
    exists i :: 1 <= i < |sheet| && Matches(sheet[i], reference)
  }

  /** The first row at or after `from` with this reference. */
  function FindFrom(sheet: Sheet, reference: string, from: nat): (r: Option<nat>)
    decreases |sheet| - from
    ensures r.Some? ==> from <= r.value < |sheet| && Matches(sheet[r.value], reference)
    ensures r.Some? ==> forall j :: from <= j < r.value ==> !Matches(sheet[j], reference)
    ensures r.None? ==> forall j :: from <= j < |sheet| ==> !Matches(sheet[j], reference)
  {
    if from >= |sheet| then None
    else if Matches(sheet[from], reference) then Some(from)
    else FindFrom(sheet, reference, from + 1)
  }

  /** The search from the first data row finds exactly the first match. */
  lemma FindIsFirstMatch(sheet: Sheet, reference: string, i: int)
    ensures FindFrom(sheet, reference, 1) == Some(i) <==> IsFirstMatch(sheet, reference, i)
  {
  }

  /** The row a settlement leaves behind: its status cell reads "Payé". */
  function MarkPaidRow(row: Row): (r: Row)
    ensures CellAt(r, StatusCol) == Text(Paid)
    ensures forall k: nat :: k != StatusCol ==> CellAt(r, k) == CellAt(row, k)
    ensures |r| >= |row|
  {
    PutCell(row, StatusCol, Text(Paid))
  }

  /** `markAsPaid(reference)` on the rows of the tab: the updated rows and
      whether an order was found. The header row is never searched. */
  function MarkAsPaid(sheet: Sheet, reference: string): (r: (Sheet, bool))
    ensures r.1 <==> HasReference(sheet, reference)
    ensures !r.1 ==> r.0 == sheet
    ensures r.1 ==> exists i ::
      && IsFirstMatch(sheet, reference, i)
      && r.0 == sheet[i := MarkPaidRow(sheet[i])]
  {
    match FindFrom(sheet, reference, 1)
    case None => (sheet, false)
    case Some(i) =>
      FindIsFirstMatch(sheet, reference, i);
      (sheet[i := MarkPaidRow(sheet[i])], true)
  }

  /** A settlement changes one cell: the status of the first matching row. */
  lemma MarkAsPaidTouchesOnlyStatus(sheet: Sheet, reference: string, i: int)
    requires IsFirstMatch(sheet, reference, i)
    ensures |MarkAsPaid(sheet, reference).0| == |sheet|
    ensures CellAt(MarkAsPaid(sheet, reference).0[i], StatusCol) == Text(Paid)
    ensures forall j, c: nat :: 0 <= j < |sheet| && (j != i || c != StatusCol) ==>
      CellAt(MarkAsPaid(sheet, reference).0[j], c) == CellAt(sheet[j], c)
  {
    FindIsFirstMatch(sheet, reference, i);
  }

  /** The search the script performs, one row at a time from the first row
      under the header. */
  method MarkAsPaidScan(sheet: Sheet, reference: string) returns (updated: Sheet, found: bool)
    ensures (updated, found) == MarkAsPaid(sheet, reference)
  {
    var i := 1;
    while i < |sheet|
      invariant 1 <= i
      invariant forall j :: 1 <= j < i && j < |sheet| ==> !Matches(sheet[j], reference)
    {
      if Matches(sheet[i], reference) {
        FindIsFirstMatch(sheet, reference, i);
        return sheet[i := MarkPaidRow(sheet[i])], true;
      }
      i := i + 1;
    }
    return sheet, false;
  }

  /** Settling again is harmless to the sheet: the first match is still the
      same row and its status is already "Payé". The call still reports
      success, since nothing checks the status first. */
  lemma MarkAsPaidIdempotent(sheet: Sheet, reference: string)
    ensures MarkAsPaid(MarkAsPaid(sheet, reference).0, reference) == MarkAsPaid(sheet, reference)
  {
    var (s1, f1) := MarkAsPaid(sheet, reference);
    if f1 {
      var i :| IsFirstMatch(sheet, reference, i) && s1 == sheet[i := MarkPaidRow(sheet[i])];
      assert CellAt(s1[i], RefCol) == CellAt(sheet[i], RefCol);
      assert forall j :: 1 <= j < i ==> s1[j] == sheet[j];
      assert IsFirstMatch(s1, reference, i);
      FindIsFirstMatch(s1, reference, i);
      PutCellTwice(sheet[i], StatusCol, Text(Paid));
      assert s1[i := MarkPaidRow(s1[i])] == s1;
    }
  }

  /** The confirmation e-mail a settlement sends: recipient, reference, first
      amount and method, read from the row as it was before the update. */
  datatype Confirmation = Confirmation(email: Cell, reference: string, amount: Cell, methodName: Cell)

  function ConfirmationMail(sheet: Sheet, reference: string): (m: Option<Confirmation>)
    ensures m.Some? <==> MarkAsPaid(sheet, reference).1
    ensures m.Some? ==> exists i ::
      && IsFirstMatch(sheet, reference, i)
      && m.value == Confirmation(CellAt(sheet[i], EmailCol), reference,
                                 CellAt(sheet[i], FirstAmountCol), CellAt(sheet[i], MethodCol))
  {
    match FindFrom(sheet, reference, 1)
    case None => None
    case Some(i) =>
      FindIsFirstMatch(sheet, reference, i);
      var row := sheet[i];
      Some(Confirmation(CellAt(row, EmailCol), reference, CellAt(row, FirstAmountCol), CellAt(row, MethodCol)))
  }

  /** What a settlement call ends with: the sheet it leaves behind and the
      value it returns, or `None` when it throws. */
  datatype Settlement = Settlement(sheet: Sheet, returned: Option<bool>)

  /** `markAsPaid` with the confirmation mail: the status is written before
      the mail is sent, so a throwing mail service (`mailDown`) leaves the
      row paid while the call throws instead of returning `true`. */
  function Settle(sheet: Sheet, reference: string, mailDown: bool): (r: Settlement)
    ensures r.sheet == MarkAsPaid(sheet, reference).0
    ensures r.returned.None? <==> mailDown && HasReference(sheet, reference)
    ensures r.returned.Some? ==> r.returned.value == HasReference(sheet, reference)
  {
    var (updated, found) := MarkAsPaid(sheet, reference);
    if found && mailDown then Settlement(updated, None) else Settlement(updated, Some(found))
  }

  /** Nothing guards against settling twice: the second call sends the
      same confirmation again. */
  lemma SecondSettlementMailsAgain(sheet: Sheet, reference: string)
    ensures ConfirmationMail(MarkAsPaid(sheet, reference).0, reference) == ConfirmationMail(sheet, reference)
  {
    var (s1, f1) := MarkAsPaid(sheet, reference);
    if f1 {
      var i :| IsFirstMatch(sheet, reference, i) && s1 == sheet[i := MarkPaidRow(sheet[i])];
      assert CellAt(s1[i], RefCol) == CellAt(sheet[i], RefCol);
      assert forall j :: 1 <= j < i ==> s1[j] == sheet[j];
      assert IsFirstMatch(s1, reference, i);
      FindIsFirstMatch(s1, reference, i);
      FindIsFirstMatch(sheet, reference, i);
    }
  }

  // ---------------------------------------------------------------------
  // Intake and settlement together: there is no upsert
  // ---------------------------------------------------------------------

  /** The rows below the header. */
  function DataRows(sheet: Sheet): Sheet {
    if sheet == [] then [] else sheet[1..]
  }

  /** How many of `rows` carry this reference. */
  function CountMatches(rows: Sheet, reference: string): nat {
    if rows == [] then 0
    else (if Matches(rows[0], reference) then 1 else 0) + CountMatches(rows[1..], reference)
  }

  lemma {:induction false} CountMatchesAppend(rows: Sheet, row: Row, reference: string)
    ensures CountMatches(rows + [row], reference)
         == CountMatches(rows, reference) + (if Matches(row, reference) then 1 else 0)
  {
    if rows != [] {
      assert (rows + [row])[1..] == rows[1..] + [row];
      CountMatchesAppend(rows[1..], row, reference);
    }
  }

  /** Intake never looks for an existing order: each accepted submission adds
      one more data row with its reference, duplicates included. (On an empty
      tab without a header the new row is not a data row; see below.) */
  lemma DuplicateIntakeAddsRow(v: Version, book: Book, data: Submission, now: int, stamp: string, reference: string)
    requires data.reference == Some(reference) && data.currency.Some?
    requires |Opened(book)| >= 1
    ensures var after := SaveToSheet(v, book, data, now, stamp, false).book.value;
      CountMatches(DataRows(after), reference) == CountMatches(DataRows(Opened(book)), reference) + 1
  {
    var before := Opened(book);
    var after := SaveToSheet(v, book, data, now, stamp, false).book.value;
    var row := BuildRow(v, data, now, stamp).value;
    assert after == before + [row];
    assert DataRows(after) == DataRows(before) + [row];
    CountMatchesAppend(DataRows(before), row, reference);
  }

  /** After a repeated submission the settlement still finds the oldest row:
      the freshly appended duplicate keeps its intake status. */
  lemma ResubmissionSettlesOldestRow(v: Version, book: Book, data: Submission, now: int, stamp: string, reference: string, i: int)
    requires data.currency.Some?
    requires IsFirstMatch(Opened(book), reference, i)
    ensures var after := SaveToSheet(v, book, data, now, stamp, false).book.value;
      && IsFirstMatch(after, reference, i)
      && MarkAsPaid(after, reference).0[|after| - 1] == after[|after| - 1]
      && CellAt(MarkAsPaid(after, reference).0[|after| - 1], StatusCol) == Text(IntakeStatus(v))
  {
  }

  /** The first order for a reference can be settled right after intake, and
      the settlement marks the row that intake appended. */
  lemma FreshIntakeIsSettleable(v: Version, book: Book, data: Submission, now: int, stamp: string, reference: string)
    requires data.reference == Some(reference) && data.currency.Some?
    requires |Opened(book)| >= 1 && !HasReference(Opened(book), reference)
    ensures var after := SaveToSheet(v, book, data, now, stamp, false).book.value;
      && MarkAsPaid(after, reference).1
      && MarkAsPaid(after, reference).0 == after[|after| - 1 := MarkPaidRow(after[|after| - 1])]
  {
  }

  /** A tab that exists but is empty gets no header, so the first order
      lands on the row the settlement skips and can never be marked paid. */
  lemma HeaderlessTabHidesFirstOrder(v: Version, data: Submission, now: int, stamp: string, reference: string)
    requires data.reference == Some(reference) && data.currency.Some?
    ensures var after := SaveToSheet(v, Some([]), data, now, stamp, false).book.value;
      |after| == 1 && Matches(after[0], reference) && !MarkAsPaid(after, reference).1
  {
  }
}
