/** The intake gate: `doPost` of both versions of the script, from a parsed
    submission to the response, the new spreadsheet state and the ordered
    list of side effects it started. */
module Intake {
  import opened Js
  import opened Order
  import opened Reminders
  import opened Ledger

  /** The outcome the webhook caller sees (the HTTP code is not observable:
      the response builder ignores it). */
  datatype Response = Accepted(reference: string) | BadRequest | ServerError

  /** A side effect `doPost` started, in the order it started them. */
  datatype Effect = SaveRow | InvoiceMail | AdminMail | ReminderPlan(triggers: seq<Trigger>)

  /** Which foreign services throw during this request. */
  datatype Faults = Faults(sheetDown: bool, mailDown: bool)

  datatype Reply = Reply(response: Response, book: Book, effects: seq<Effect>)

  /** The side effects of a full run of the original version, in order. */
  function OriginalPipeline(data: Submission, now: int): seq<Effect> {
    [SaveRow, InvoiceMail, ReminderPlan(ScheduleReminders(data, now))]
  }

  /** The side effects of a full run of the optimised version, in order. */
  const OptimisedPipeline: seq<Effect> := [SaveRow, InvoiceMail, AdminMail]

  /** `doPost` of the original script: validate, store, send the invoice,
      prepare the reminders. Every step runs outside any local try, so the
      first exception ends the request with the error response. */
  function DoPost(data: Submission, book: Book, now: int, faults: Faults): (r: Reply)
    ensures !Admissible(data) ==> r == Reply(BadRequest, book, [])
    ensures r.effects <= OriginalPipeline(data, now)
    ensures Admissible(data) ==>
      && |r.effects| >= 1
      && r.book == SaveToSheet(Original, book, data, now, "", faults.sheetDown).book
    ensures r.response.Accepted? <==>
      Admissible(data) && !faults.sheetDown && data.currency.Some? && !faults.mailDown
    ensures r.response.Accepted? ==>
      r.response.reference == data.reference.value && r.effects == OriginalPipeline(data, now)
    ensures r.response == BadRequest <==> !Admissible(data)
    ensures Admissible(data) && !r.response.Accepted? ==> r.response == ServerError
    ensures Admissible(data) && faults.sheetDown ==> r == Reply(ServerError, book, [SaveRow])
    ensures Admissible(data) && !faults.sheetDown && data.currency.None? ==>
      r.response == ServerError && r.effects == [SaveRow]
    ensures Admissible(data) && !faults.sheetDown && data.currency.Some? && faults.mailDown ==>
      r.response == ServerError && r.effects == [SaveRow, InvoiceMail]
  {
    if !Admissible(data) then Reply(BadRequest, book, [])
    else
      var saved := SaveToSheet(Original, book, data, now, "", faults.sheetDown);
      if saved.failed then
        Reply(ServerError, saved.book, [SaveRow])
      else if faults.mailDown then
        Reply(ServerError, saved.book, [SaveRow, InvoiceMail])
      else
        Reply(Accepted(data.reference.value), saved.book, OriginalPipeline(data, now))
  }

  /** `doPost` of the optimised script: validate, store (errors caught and
      logged), send the invoice and the admin notification (mail errors
      caught and logged). The admin message reads the upper-cased currency
      before its try, so an absent currency still ends in the error
      response, after the invoice went out. */
  function DoPostOptimised(data: Submission, book: Book, now: int, stamp: string, faults: Faults): (r: Reply)
    ensures !Admissible(data) ==> r == Reply(BadRequest, book, [])
    ensures r.effects <= OptimisedPipeline
    ensures Admissible(data) ==>
      && |r.effects| >= 2
      && r.book == SaveToSheet(Optimised, book, data, now, stamp, faults.sheetDown).book
    ensures r.response.Accepted? <==> Admissible(data) && data.currency.Some?
    ensures r.response.Accepted? ==>
      r.response.reference == data.reference.value && r.effects == OptimisedPipeline
    ensures r.response == BadRequest <==> !Admissible(data)
    ensures Admissible(data) && data.currency.None? ==>
      r.response == ServerError && r.effects == [SaveRow, InvoiceMail]
  {
    if !Admissible(data) then Reply(BadRequest, book, [])
    else
      var saved := SaveToSheet(Optimised, book, data, now, stamp, faults.sheetDown);
      if data.currency.None? then
        Reply(ServerError, saved.book, [SaveRow, InvoiceMail])
      else
        Reply(Accepted(data.reference.value), saved.book, OptimisedPipeline)
  }

  /** In the optimised version a failing spreadsheet or mail service never
      reaches the caller: the response and the effects are those of a run
      without faults; only the stored rows differ. */
  lemma OptimisedFaultsAreSwallowed(data: Submission, book: Book, now: int, stamp: string, faults: Faults)
    ensures DoPostOptimised(data, book, now, stamp, faults).response
         == DoPostOptimised(data, book, now, stamp, Faults(false, false)).response
    ensures DoPostOptimised(data, book, now, stamp, faults).effects
         == DoPostOptimised(data, book, now, stamp, Faults(false, false)).effects
  {
  }

  /** A store failure in the optimised version loses the order silently:
      the caller is told the order was recorded, yet the sheet is unchanged. */
  lemma OptimisedLostOrder(data: Submission, book: Book, now: int, stamp: string)
    requires Admissible(data) && data.currency.Some?
    ensures var r := DoPostOptimised(data, book, now, stamp, Faults(true, false));
      r.response.Accepted? && r.book == book
  {
  }

  /** The two versions store the same order row except for its status and
      notes cells. */
  lemma VersionsDifferInStatusAndNotes(data: Submission, now: int, stamp: string)
    requires data.currency.Some?
    ensures var a, b := BuildRow(Original, data, now, ""), BuildRow(Optimised, data, now, stamp);
      && a.Some? && b.Some? && |a.value| == |b.value|
      && forall c :: 0 <= c < |a.value| && c != StatusCol && c != NotesCol ==> a.value[c] == b.value[c]
  {
  }

  /** A worked intake: a four-week order in dollars on a fresh spreadsheet. */
  lemma SampleIntake(now: int)
    ensures var data := Submission(Some("A"), Some("B"), Some("a@b.com"), Some("1"), None,
                                   Some("4weeks"), Some("airtel"), Some("usd"), Some("R1"));
      var r := DoPost(data, None, now, Faults(false, false));
      && r.response == Accepted("R1")
      && r.book.Some? && |r.book.value| == 2
      && r.book.value[1][FirstAmountCol..FirstAmountCol + 3] == [Amount(200), Amount(200), Amount(200)]
      && r.effects[2] == ReminderPlan([Trigger(Some("a@b.com"), Some("R1"), 2, now + 12 * DayMs),
                                       Trigger(Some("a@b.com"), Some("R1"), 3, now + 26 * DayMs)])
  {
  }

  /** A submission without a reference is refused and touches nothing. */
  lemma MissingReferenceIsRefused(data: Submission, book: Book, now: int, stamp: string, faults: Faults)
    requires data.reference.None?
    ensures DoPost(data, book, now, faults) == Reply(BadRequest, book, [])
    ensures DoPostOptimised(data, book, now, stamp, faults) == Reply(BadRequest, book, [])
  {
  }
}
