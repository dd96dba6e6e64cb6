/** The few JavaScript value rules the webhook relies on: absent fields,
    truthiness of strings and `String.prototype.toUpperCase`. */
module Js {

  /** An optional value; for JSON fields `None` is `undefined`. */
  datatype Option<+T> = None | Some(value: T)

  /** One field of the parsed JSON body: absent or a string. */
  type Field = Option<string>

  /** JavaScript truthiness of a field: `undefined` and `''` are falsy. */
  predicate Truthy(f: Field) {
    f.Some? && f.value != []
  }

  /** What a spreadsheet cell shows when the field is written into it:
      `undefined` becomes an empty cell. `data.company || ''` yields the
      same text, so the two spellings share this definition. */
  function FieldText(f: Field): string {
    match f
    case None => ""
    case Some(s) => s
  }

  predicate IsLowerAscii(c: char) {
    'a' <= c <= 'z'
  }

  /** Upper-casing of one character, for the ASCII letters. */
  function UpperChar(c: char): char {
    if IsLowerAscii(c) then (c as int - 32) as char else c
  }

  /** `s.toUpperCase()`, restricted to ASCII case mapping. */
  function ToUpper(s: string): (r: string)
    ensures |r| == |s|
    ensures forall k :: 0 <= k < |s| ==> r[k] == UpperChar(s[k])
    ensures forall k :: 0 <= k < |r| ==> !IsLowerAscii(r[k])
  {
    if s == [] then [] else [UpperChar(s[0])] + ToUpper(s[1..])
  }

  /** The two currency codes the form sends become the codes the sheet shows. */
  lemma CurrencyCodes()
    ensures ToUpper("usd") == "USD"
    ensures ToUpper("cdf") == "CDF"
  {
  }
}
