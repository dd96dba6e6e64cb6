/** The reminder scheduler: the instants, two days before the second and
    third installments fall due, at which a reminder should be sent. Time is
    an integer number of milliseconds, as `Date.getTime()` gives it. */
module Reminders {
  import opened Js
  import opened Order
  import opened Billing

  /** Milliseconds in a day. */
  const DayMs: int := 24 * 60 * 60 * 1000

  /** How many days before a due day its reminder fires. */
  const LeadDays: int := 2

  /** `calculateReminderDates(data)` with the clock reading `now` passed in:
      one instant per remaining installment, each two days before it falls
      due, in due order. */
  function ReminderDates(paymentPlan: Field, now: int): (r: seq<int>)
    ensures |r| == 2
    ensures forall k :: 0 <= k < 2 ==>
      r[k] + LeadDays * DayMs == now + Schedule(PlanOf(paymentPlan))[k + 1].dueDay * DayMs
    ensures now < r[0] < r[1]
  {
    if paymentPlan == Some("4weeks") then
      [now + 12 * DayMs, now + 26 * DayMs]
    else
      [now + 58 * DayMs, now + 88 * DayMs]
  }

  /** The payload `scheduleReminders` prepares for one reminder. */
  datatype Trigger = Trigger(email: Field, reference: Field, paymentNumber: nat, at: int)

  /** `scheduleReminders(data)`: the reminders, numbered by the installment
      they announce (2 then 3) and each firing two days before that
      installment's due day. */
  function ScheduleReminders(data: Submission, now: int): (r: seq<Trigger>)
    ensures |r| == 2
    ensures forall k :: 0 <= k < 2 ==>
      r[k].email == data.email && r[k].reference == data.reference
    ensures forall k :: 0 <= k < 2 ==> r[k].paymentNumber == k + 2
    ensures forall k :: 0 <= k < 2 ==>
      && 2 <= r[k].paymentNumber <= 3
      && r[k].at + LeadDays * DayMs
         == now + Schedule(PlanOf(data.paymentPlan))[r[k].paymentNumber - 1].dueDay * DayMs
  {
    var dates := ReminderDates(data.paymentPlan, now);
    seq(|dates|, k requires 0 <= k < |dates| =>
      Trigger(data.email, data.reference, k + 2, dates[k]))
  }

  /** Reminder instants move with the clock: intake a day later, reminders a
      day later. */
  lemma RemindersShiftWithClock(paymentPlan: Field, now: int, delay: int)
    ensures forall k :: 0 <= k < 2 ==>
      ReminderDates(paymentPlan, now + delay)[k] == ReminderDates(paymentPlan, now)[k] + delay
  {
  }

  /** The worked reminder days of each plan. */
  lemma SampleReminders(now: int)
    ensures ReminderDates(Some("4weeks"), now) == [now + 12 * DayMs, now + 26 * DayMs]
    ensures ReminderDates(Some("3months"), now) == [now + 58 * DayMs, now + 88 * DayMs]
    ensures DayMs == 86400000
  {
  }
}
