/** The order submission the webhook receives as a JSON body. */
module Order {
  import opened Js

  /** The fields the intake reads; every one may be absent from the JSON. */
  datatype Submission = Submission(
    firstName: Field,
    lastName: Field,
    email: Field,
    phone: Field,
    company: Field,
    paymentPlan: Field,
    paymentMethod: Field,
    currency: Field,
    reference: Field)

  /** The only validation `doPost` performs: both the e-mail and the
      reference are present and non-empty. */
  predicate Admissible(data: Submission)
    ensures Admissible(data) ==> data.reference.Some? && |data.reference.value| > 0
    ensures Admissible(data) ==> data.email.Some? && |data.email.value| > 0
    ensures (data.reference.Some? && |data.reference.value| > 0 &&
             data.email.Some? && |data.email.value| > 0) ==> Admissible(data)
  {
    Truthy(data.email) && Truthy(data.reference)
  }
}
