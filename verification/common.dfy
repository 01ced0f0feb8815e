/** Small value helpers shared by every module of the model. */
module Common {

  /** JavaScript's `undefined`/`null` versus a present value. */
  datatype Option<+T> = None | Some(value: T)

  /** `s || null`: an empty string is falsy and becomes null. */
  function OrNull(s: string): (r: Option<string>)
    ensures r.None? <==> s == ""
    ensures r.Some? ==> r.value == s
  {
    if s == "" then None else Some(s)
  }

  /** Truthiness of an optional string request field: absent and "" are falsy. */
  predicate Present(field: Option<string>)
  {
    field.Some? && field.value != ""
  }

  /** `Array.prototype.join(sep)`. */
  function JoinWith(parts: seq<string>, sep: string): string
  {
    if |parts| == 0 then ""
    else if |parts| == 1 then parts[0]
    else parts[0] + sep + JoinWith(parts[1..], sep)
  }

  /** Decimal rendering of a natural number, as a template literal prints it. */
  function DecimalString(n: nat): string
  {
    if n < 10 then ["0123456789"[n]]
    else DecimalString(n / 10) + ["0123456789"[n % 10]]
  }
}
