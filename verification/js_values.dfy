/**
 * The few pieces of JavaScript value semantics that the merchant server's
 * control flow depends on: `undefined` for a missing property, truthiness,
 * the `||` operator, `parseFloat` on a JSON number, the NaN it produces for
 * `undefined`, and the text a template literal produces for `undefined`.
 *
 * Strings stand for JavaScript strings, JSON numbers for finite doubles
 * (modelled as mathematical reals, without rounding).
 */
module JsValues {

  /** A property that may be `undefined` (`None`). */
  datatype Option<+T> = None | Some(value: T)

  /** The outcome of a call that either returns a value or throws. */
  datatype Result<+T, +E> = Ok(value: T) | Err(error: E)

  /** A JavaScript number as the ledger stores it: a finite value or NaN. */
  datatype JsNumber = Finite(r: real) | NaN

  /** Truthiness of a string-valued property: `undefined` and `""` are falsy. */
  predicate TruthyText(s: Option<string>)
  {
    s.Some? && s.value != ""
  }

  /** Truthiness of a number-valued property: `undefined` and `0` are falsy. */
  predicate TruthyNumber(x: Option<real>)
  {
    x.Some? && x.value != 0.0
  }

  /** `a || b` on string-valued properties: `a` when it is truthy, otherwise `b`. */
  function OrText(a: Option<string>, b: Option<string>): Option<string>
  {
    if TruthyText(a) then a else b
  }

  /** `x || 0` on a stored number: `undefined`, `NaN` and `0` all give `0`. */
  function OrZero(x: Option<JsNumber>): real
  {
    if x.Some? && x.value.Finite? then x.value.r else 0.0
  }

  /** `parseFloat` applied to a JSON number or to `undefined` (which gives NaN). */
  function ParseFloat(x: Option<real>): JsNumber
  {
    if x.Some? then Finite(x.value) else NaN
  }

  /** `a + b` on numbers: NaN absorbs. */
  function Add(a: JsNumber, b: JsNumber): JsNumber
  {
    if a.Finite? && b.Finite? then Finite(a.r + b.r) else NaN
  }

  /** The text `${s}` produces for a string-valued property: "undefined" when it is missing. */
  function TemplateText(s: Option<string>): string
  {
    if s.Some? then s.value else "undefined"
  }

  /** Map lookup as `Map.prototype.get`: `undefined` for an absent key. */
  function Get<K, V>(m: map<K, V>, k: K): Option<V>
  {
    if k in m then Some(m[k]) else None
  }
}
