/** The human-readable labels written into an order row: the payment
    method name and the plan name. */
module Labels {
  import opened Js
  import opened Billing

  /** The three payment-method keys the order form sends. */
  predicate IsMethodKey(key: Field) {
    key == Some("airtel") || key == Some("orange") || key == Some("bank")
  }

  /** `getMethodName(key)`: the display name of a known method; any other
      value, absent included, is passed through unchanged. */
  function MethodName(key: Field): (r: Field)
    ensures key == Some("airtel") ==> r == Some("Airtel Money")
    ensures key == Some("orange") ==> r == Some("Orange Money")
    ensures key == Some("bank") ==> r == Some("Virement Bancaire")
    ensures !IsMethodKey(key) ==> r == key
  {
    match key
    case Some("airtel") => Some("Airtel Money")
    case Some("orange") => Some("Orange Money")
    case Some("bank") => Some("Virement Bancaire")
    case _ => key
  }

  /** A value is changed by the lookup exactly when it is one of the keys. */
  lemma MethodNameChangesOnlyKeys(key: Field)
    ensures MethodName(key) != key <==> IsMethodKey(key)
  {
  }

  /** No display name is itself a key, so naming an already named method
      leaves it as it is. */
  lemma MethodNameIdempotent(key: Field)
    ensures MethodName(MethodName(key)) == MethodName(key)
  {
  }

  /** The label of the plan column: it only reads which plan was selected. */
  function PlanLabel(p: Plan): (r: string)
    ensures r == "3x 4 semaines" || r == "3x 3 mois"
    ensures r == "3x 4 semaines" <==> p == FourWeeks
  {
    match p
    case FourWeeks => "3x 4 semaines"
    case ThreeMonths => "3x 3 mois"
  }

  /** The plan label names the plan unambiguously, so the row's label and
      its amounts always describe the same plan. */
  lemma PlanLabelDeterminesPlan(a: Plan, b: Plan)
    ensures PlanLabel(a) == PlanLabel(b) <==> a == b
  {
  }

  // ---------------------------------------------------------------------
  // The method lookup as the script writes it. `methods[key] || key`
  // reads a property of a plain object literal, which also finds the
  // members every object inherits from `Object.prototype`.
  // ---------------------------------------------------------------------

  /** A JavaScript value as far as the lookup can produce one: a string,
      `undefined`, or an inherited prototype member (a function or object,
      which is truthy). */
  datatype JsValue = Str(s: string) | Undefined | Inherited(name: string)

  /** The names a plain object inherits from `Object.prototype`. */
  const PrototypeNames: set<string> := {
    "constructor", "hasOwnProperty", "isPrototypeOf", "propertyIsEnumerable",
    "toString", "toLocaleString", "valueOf", "__proto__",
    "__defineGetter__", "__defineSetter__", "__lookupGetter__", "__lookupSetter__"
  }

  /** A field as a JavaScript value. */
  function AsJs(f: Field): JsValue {
    match f
    case None => Undefined
    case Some(s) => Str(s)
  }

  /** `getMethodName` as written: own keys give their label, inherited names
      give the inherited member, anything else is returned unchanged. */
  function MethodNameAsWritten(key: Field): (r: JsValue)
    ensures key.Some? && key.value in PrototypeNames ==> r.Inherited?
  {
    match key
    case None => Undefined
    case Some(s) =>
      if s == "airtel" then Str("Airtel Money")
      else if s == "orange" then Str("Orange Money")
      else if s == "bank" then Str("Virement Bancaire")
      else if s in PrototypeNames then Inherited(s)
      else Str(s)
  }

  /** The as-written lookup agrees with the intended one exactly when the
      method is not the name of an inherited member. */
  lemma AsWrittenAgreesOffPrototype(key: Field)
    ensures MethodNameAsWritten(key) == AsJs(MethodName(key))
        <==> !(key.Some? && key.value in PrototypeNames)
  {
  }

  /** The counterexample: "toString" is not a payment method, so it should
      be passed through, yet the lookup returns `Object.prototype.toString`. */
  lemma ToStringIsNotPassedThrough()
    ensures MethodNameAsWritten(Some("toString")) == Inherited("toString")
    ensures AsJs(MethodName(Some("toString"))) == Str("toString")
  {
  }
}
