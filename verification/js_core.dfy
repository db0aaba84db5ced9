/** JavaScript number semantics that the dashboard's computations rely on,
    stated over Dafny's unbounded `real` and `int`.

    - `Option` stands for a TypeScript optional field (`x?: number`):
      `None` is `undefined`.
    - `Truthy` is JavaScript's truthiness of such a field, as tested by
      `!x` in a guard: `undefined` and `0` are falsy. (NaN is not modelled.)
    - `Round` is `Math.round`, which rounds halves toward +infinity.
    - `RoundToTenth` is the `Math.round(x * 10) / 10` idiom.
 */
module JsCore {

  /** An optional value; `None` is JavaScript's `undefined` or `null`. */
  datatype Option<+T> = None | Some(value: T)

  /** JavaScript truthiness of an optional number: `undefined` and `0` are falsy. */
  predicate Truthy(x: Option<real>)
    ensures Truthy(x) ==> x.Some?
    ensures x.Some? ==> (Truthy(x) <==> x.value != 0.0)
  {
    x.Some? && x.value != 0.0
  }

  /** `Math.round(x)`: the nearest integer, halves rounded toward +infinity. */
  function Round(x: real): (r: int)
    ensures r as real - 0.5 <= x < r as real + 0.5
  {
    (x + 0.5).Floor
  }

  /** `Math.round` is monotone. */
  lemma RoundMonotone(x: real, y: real)
    requires x <= y
    ensures Round(x) <= Round(y)
  {
  }

  /** `Math.round` leaves integers unchanged. */
  lemma RoundOfInteger(n: int)
    ensures Round(n as real) == n
  {
  }

  /** Halves go up, also for negative numbers (-2.5 rounds to -2, not -3). */
  lemma RoundHalvesUp()
    ensures Round(2.5) == 3
    ensures Round(-2.5) == -2
  {
  }

  /** `Math.round(x * 10) / 10`: rounding to one decimal place. */
  function RoundToTenth(x: real): (r: real)
    ensures r - 0.05 <= x < r + 0.05
    ensures (r * 10.0).Floor as real == r * 10.0
  {
    Round(x * 10.0) as real / 10.0
  }

  /** The larger of two reals, as `Math.max(a, b)`. */
  function Max(a: real, b: real): (r: real)
    ensures a <= r && b <= r
    ensures r == a || r == b
  {
    if a < b then b else a
  }

  /** The smaller of two reals, as `Math.min(a, b)`. */
  function Min(a: real, b: real): (r: real)
    ensures r <= a && r <= b
    ensures r == a || r == b
  {
    if a < b then a else b
  }
}
