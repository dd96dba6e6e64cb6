# Installment-order webhook: billing core in Dafny

This project models the billing logic of an order-intake webhook that sells
one product in three installments. Two versions of the webhook script exist,
the original and an "optimised" one. Both accept an order form as JSON and
append a row to the 'Commandes' spreadsheet tab. They then e-mail a
pro-forma invoice. The original also prepares two payment reminders; the
optimised version instead e-mails an admin notification. A manual
`markAsPaid` function later finds an order by reference and sets its status
to "Payé".

The model is purely functional:

- `Js`: JavaScript value rules the script relies on. Fields are absent or
  strings. A field is falsy when absent or empty. Upper-casing is defined here.
- `Order`: the submission and the only validation `doPost` performs. The
  e-mail and the reference must both be present and non-empty.
- `Billing`: `calculateAmounts`. An order always has three amounts: the
  published USD schedule (200/200/200 for "4weeks", else 200/235/235) times
  the rate. The rate is 2350 exactly when the currency is the string "cdf".
- `Labels`: `getMethodName` and the plan label of the row.
- `Reminders`: `calculateReminderDates` and `scheduleReminders`. Time is an
  integer number of milliseconds, and the clock reading is a parameter.
- `Ledger`: the sheet is a `seq<Row>` behind a header row, and rows are
  sequences of cells. The row an intake appends has 18 columns. Saving creates
  the tab with its header when it is missing, then appends exactly one row
  unless building the row throws (an absent currency). There is no upsert.
  `markAsPaid` finds the first data row whose reference cell equals the
  argument and writes "Payé" into its status cell, then sends the
  confirmation. It does not check whether the row is already paid.
- `Intake`: `doPost` of both versions. Each returns the response the caller
  sees (Accepted/BadRequest/ServerError) and the new spreadsheet state. It
  also returns the side effects it started, in order. `Faults` stands for the
  spreadsheet service throwing when the workbook is opened, or the mail
  service throwing when a message is sent.

Behaviour of the code worth knowing, all stated as lemmas below:
- There is no upsert: a duplicate reference adds a second row, and a later
  settlement marks the older one.
- Settling a paid order again succeeds and sends the confirmation again.
- Nothing fills the three payment-date cells; they stay empty.
- An unknown plan string is billed as the three-month plan.

## Model

| member | source | states |
|---|---|---|
| Js.ToUpper | google-apps-script.js:101 | the upper-cased currency has the same length, each letter upper-cased, and no lower-case ASCII letter remains |
| Js.CurrencyCodes | google-apps-script-OPTIMISE.js:92 | the currencies "usd" and "cdf" are stored as "USD" and "CDF" |
| Billing.PlanOf | google-apps-script.js:113 | the four-week plan is chosen if and only if the plan string is exactly "4weeks"; everything else, absent included, is the three-month plan |
| Billing.Rate | google-apps-script.js:111 | the rate is 2350 if and only if the currency is exactly "cdf", and 1 otherwise |
| Billing.Schedule | google-apps-script.js:265-296 | each plan has three installments, the first due on the order day and the others on strictly later days (14/28, 60/90) |
| Billing.CalculateAmounts | google-apps-script.js:110-118 | always three non-negative amounts, each the scheduled USD price of that installment times the currency's rate |
| Billing.AmountsDependOnPlanAndCurrency | google-apps-script-OPTIMISE.js:106-114 | two submissions with the same plan and rate get identical amounts, whatever their other fields |
| Billing.CdfIsUsdTimesRate | google-apps-script-OPTIMISE.js:107 | every CDF amount equals the USD amount of the same installment times 2350 |
| Billing.UpperCaseCdfIsDollars | google-apps-script.js:111 | the comparison is case-sensitive: currency "CDF" is billed in dollars |
| Billing.UnknownPlanIsThreeMonths | google-apps-script.js:113-117 | any plan other than "4weeks" is billed exactly like "3months" |
| Billing.OrderTotal | google-apps-script.js:113-117 | an order costs 600 (four weeks) or 670 (three months) times the rate |
| Billing.SampleAmounts | google-apps-script-OPTIMISE.js:109-113 | worked values: [200,200,200], [470000,470000,470000], [200,235,235], [470000,552250,552250] |
| Labels.MethodName | google-apps-script.js:120-127 | airtel, orange and bank map to their display names; any other value, absent included, is returned unchanged |
| Labels.MethodNameChangesOnlyKeys | google-apps-script-OPTIMISE.js:116-123 | a method value is changed if and only if it is one of the three keys |
| Labels.MethodNameIdempotent | google-apps-script-OPTIMISE.js:116-123 | naming an already named method changes nothing |
| Labels.PlanLabelDeterminesPlan | google-apps-script.js:99 | the row's plan label is different for the two plans, so it identifies the plan whose amounts the row holds |
| Labels.MethodNameAsWritten | google-apps-script-OPTIMISE.js:116-123 | the lookup as written returns an inherited member for every `Object.prototype` name |
| Labels.AsWrittenAgreesOffPrototype | google-apps-script.js:126 | the as-written lookup agrees with the intended one if and only if the value is not an `Object.prototype` name |
| Labels.ToStringIsNotPassedThrough | google-apps-script.js:121-126 | counterexample: "toString" yields `Object.prototype.toString` instead of "toString" |
| Reminders.ReminderDates | google-apps-script.js:406-423 | exactly two instants, strictly after the clock reading and strictly increasing, each two days before the due day of installment 2 and 3 |
| Reminders.ScheduleReminders | google-apps-script.js:383-404 | two reminders carrying the order's e-mail and reference, numbered 2 then 3, each firing two days before the due day of the installment it names |
| Reminders.RemindersShiftWithClock | google-apps-script.js:407-419 | delaying the intake by some time delays both reminders by the same amount |
| Reminders.SampleReminders | google-apps-script.js:410-420 | four weeks: days 12 and 26; otherwise days 58 and 88; a day is 86 400 000 ms |
| Ledger.PutCell | google-apps-script.js:438 | writing a cell sets exactly that cell; every other cell reads as before, and the row widens only when the cell lies past its end |
| Ledger.BuildRow | google-apps-script.js:90-107 | the new row has 18 cells under the header, with the clock reading, reference, intake status, first name, last name, e-mail, phone, company (empty when absent), plan label, method name (by the corrected lookup; see Left out) and upper-cased currency in their columns, the three calculated amounts in columns 11-13, and empty payment dates; it cannot be built when the currency is absent |
| Ledger.HeaderNamesColumns | google-apps-script.js:78-83 | the columns the model reads back are the ones the header names Référence, Statut, Prénom, Nom, Email, Téléphone, Entreprise, Plan, Méthode, Devise, Montant 1, Date Paiement 1, Notes |
| Ledger.Opened | google-apps-script.js:73-84 | a missing tab is created holding just the header row; an existing tab is used as it is |
| Ledger.SaveToSheet | google-apps-script.js:71-108 | on success the sheet grows by exactly one row, the existing rows are untouched and the new row is the built order row; a failure to open the workbook changes nothing; an absent currency appends no row and leaves only the opened (possibly just created) tab |
| Order.Admissible | google-apps-script.js:42 | a request passes the gate if and only if both the e-mail and the reference are present and non-empty |
| Labels.PlanLabel | google-apps-script.js:99 | the plan cell reads "3x 4 semaines" exactly for the four-week plan and "3x 3 mois" otherwise |
| Ledger.IntakeStatus | google-apps-script-OPTIMISE.js:84 | a new row never starts as "Payé"; the original version writes "En attente", the optimised one "En attente de vérification" |
| Ledger.IntakeNotes | google-apps-script-OPTIMISE.js:97 | the original leaves the notes empty; the optimised one writes a non-empty note ending with the formatted clock reading |
| Ledger.Matches | google-apps-script.js:436 | a row matches by strict equality of its reference cell; a row too short to hold one matches only the empty reference |
| Ledger.MarkPaidRow | google-apps-script.js:438 | the settled row reads "Payé" in its status cell and every other cell reads as before |
| Ledger.Settle | google-apps-script.js:435-452 | the status is written before the confirmation is sent: the sheet is always the MarkAsPaid result, the call throws if and only if an order was found and the mail service fails, and otherwise returns whether an order was found |
| Ledger.FindFrom | google-apps-script.js:435-436 | the search finds a row with the reference and no earlier row from the start point has it; when it finds nothing, no row from the start point has it |
| Ledger.FindIsFirstMatch | google-apps-script.js:435-450 | the search from row 1 returns a row if and only if that row is the first data row with the reference |
| Ledger.MarkAsPaid | google-apps-script.js:429-453 | reports success if and only if some data row below the header has the reference; on success only the first such row is replaced by its paid version; otherwise the sheet is unchanged |
| Ledger.MarkAsPaidTouchesOnlyStatus | google-apps-script.js:438 | a settlement changes one cell, the status of the first matching row, to "Payé"; every other cell of every row reads as before |
| Ledger.MarkAsPaidScan | google-apps-script.js:435-452 | the row-by-row loop from index 1 computes exactly the settlement described by MarkAsPaid |
| Ledger.MarkAsPaidIdempotent | google-apps-script.js:436-438 | settling the same reference again leaves the sheet as the first settlement left it, and again reports success |
| Ledger.ConfirmationMail | google-apps-script.js:441-445 | a confirmation is sent if and only if the settlement succeeds, addressed from the first matching row's e-mail, first amount and method cells |
| Ledger.SecondSettlementMailsAgain | google-apps-script.js:436-445 | nothing guards a paid order: settling it again sends the same confirmation again |
| Ledger.DuplicateIntakeAddsRow | google-apps-script.js:90-107 | saving an order adds one more data row with its reference even when rows with that reference already exist |
| Ledger.ResubmissionSettlesOldestRow | google-apps-script.js:435-438 | after a repeated submission the settlement still marks the oldest row, and the new duplicate keeps its intake status |
| Ledger.FreshIntakeIsSettleable | google-apps-script.js:435-448 | the first order for a reference can be settled right after intake, and the settlement marks exactly the appended row |
| Ledger.HeaderlessTabHidesFirstOrder | google-apps-script.js:76-84 | an existing but empty tab gets no header, so the first order lands on row 0, which the settlement skips |
| Intake.DoPost | google-apps-script.js:37-65 | a submission without e-mail or reference gets the validation error, with no change and no effect. Otherwise the effects follow store, invoice, reminders in that order. The request gets BadRequest exactly when it is inadmissible, and otherwise succeeds if and only if the store and the mail do not throw and the currency is present; every other admissible request gets ServerError. On success the reference is echoed and both reminders are prepared. A failing store (workbook down or absent currency) ends the request after the store, and a failing invoice mail ends it before the reminders |
| Intake.DoPostOptimised | google-apps-script-OPTIMISE.js:25-55 | the same validation, and BadRequest exactly for inadmissible requests, with no change and no effect. Otherwise the effects follow store, invoice, admin mail in that order. The request succeeds if and only if the currency is present, whatever the services do; with the currency absent it gets ServerError after the invoice mail and before the admin mail |
| Intake.OptimisedFaultsAreSwallowed | google-apps-script-OPTIMISE.js:101-103 | spreadsheet and mail failures in the optimised version change neither the response nor the effects |
| Intake.OptimisedLostOrder | google-apps-script-OPTIMISE.js:37-49 | when the spreadsheet fails, the optimised version still reports the order recorded while the sheet is unchanged |
| Intake.VersionsDifferInStatusAndNotes | google-apps-script-OPTIMISE.js:81-98 | both versions build the same 18-cell row except for the status and notes cells |
| Intake.SampleIntake | google-apps-script.js:42-59 | worked intake: a four-week USD order R1 on a new spreadsheet is accepted, stored under a header with amounts 200/200/200, with reminders 2 and 3 at days 12 and 26 |
| Intake.MissingReferenceIsRefused | google-apps-script.js:42-44 | in both versions an absent reference is refused with nothing changed and nothing sent |

## Left out

- Templates: the HTML e-mail bodies (pro-forma invoice, payment schedule, payment instructions, confirmation, admin notification) are presentation only. Sending one appears only as an effect.
- Foreign services: the spreadsheet, mail, response and logging services are foreign. The sheet is an abstract sequence of rows. Intake service exceptions are the `Faults` flags, and a failing settlement mail is the `mailDown` parameter of `Ledger.Settle`. Log lines are not modelled.
- Ledger.SaveToSheet: its `sheetDown` flag stands only for a failure to open the workbook. A failure of `insertSheet` or `appendRow` part-way is not modelled. For example, a failed header append after the tab was created leaves an empty tab with no header, the situation `Ledger.HeaderlessTabHidesFirstOrder` describes.
- Ledger.BuildRow: the method cell uses the corrected lookup `Labels.MethodName`. For a method named after an `Object.prototype` member (see Findings), the script passes the inherited function to the row instead, and what the spreadsheet stores for it is not modelled. `Ledger.SaveToSheet`, `Intake.DoPost`, `Intake.DoPostOptimised` and `Ledger.ConfirmationMail` inherit this.
- `formatAmount`: its CDF branch uses locale-dependent number formatting.
- Response code: the response builder ignores its code argument, so the outcome is the abstract `Response`.
- JSON parsing: the JSON parse step and its error path are not modelled. Field values are strings or absent; numbers, booleans and null in the JSON are not modelled.
- Clock: the wall clock is one `now` parameter per request. The script reads it separately for the row date and the reminder dates, a few milliseconds apart. The optimised notes stamp is the clock formatted in the fr-FR locale; it is a string parameter.
- Triggers: the reminder triggers are never created (that code is commented out). Only the prepared reminder payloads are modelled.
- Automatic conversion: the spreadsheet may convert appended strings that look like numbers or dates (a numeric reference, say). This is not modelled, so references compare as text.
- Missing tab in `markAsPaid`: called when the tab does not exist, it throws. The model works on the tab's rows.
- Template exceptions: exceptions inside the e-mail templates are modelled only where they affect the outcome, namely the optimised admin message upper-casing an absent currency.
- Configuration: the constants other than the CDF rate (company name and e-mail, phone numbers, sheet id) are used only by the templates and the services.
- Concurrency: the optimised version calls its steps one after the other, despite its comments about parallel execution. There is no concurrency to model.
- Js.ToUpper: maps only the ASCII letters a-z. JavaScript's full Unicode case mapping is not modelled; the currency codes the form sends are ASCII.

## Findings

| source | as written | input that shows it | evidently intended | confidence | as-written member | corrected member |
|---|---|---|---|---|---|---|
| google-apps-script.js:120-127 | `methods[method] \|\| method` reads a property of a plain object, so names inherited from `Object.prototype` are found too | payment method "toString" (or "constructor", "valueOf", ...) yields a function instead of the string | a value other than airtel, orange or bank is returned unchanged | not executed; high (standard property lookup semantics) | Labels.MethodNameAsWritten | Labels.MethodName |
