/** The JavaScript value semantics the resolver relies on.
    The resolver builds every field with `a || b`, which yields `a` when `a` is
    truthy and `b` otherwise. For the kinds of values read here the falsy ones
    are `undefined` (an absent record), `0n` and `0` (a zero bigint or number),
    `NaN`, `""` and `false`. A present zero therefore falls back exactly like an
    absent value.
 */
module JsValues {
  import opened Wrappers

  /** The result of `Number(x)` for an optional bigint `x`: `Number(undefined)`
      is `NaN`. */
  datatype Number = Finite(value: nat) | NaN

  function ToNumber(x: Option<nat>): Number
  {
    match x
    case None => NaN
    case Some(n) => Finite(n)
  }

  /** `x || fallback` for an optional bigint `x`. */
  function OrNat(x: Option<nat>, fallback: nat): nat
  {
    if x.Some? && x.value != 0 then x.value else fallback
  }

  /** `x || fallback` for a number `x`. */
  function NumberOr(x: Number, fallback: nat): nat
  {
    if x.Finite? && x.value != 0 then x.value else fallback
  }

  /** `x || fallback` for an optional string `x`. */
  function OrString(x: Option<string>, fallback: string): string
  {
    if x.Some? && x.value != "" then x.value else fallback
  }

  /** `x || fallback` for an optional boolean `x`. */
  function OrBool(x: Option<bool>, fallback: bool): bool
  {
    if x == Some(true) then true else fallback
  }

  /** `x || undefined` for an optional string `x`: an empty string becomes
      `undefined`. */
  function OrUndefined(x: Option<string>): Option<string>
  {
    if x.Some? && x.value != "" then x else None
  }
}
