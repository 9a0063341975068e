/**
 * The slice of JavaScript value semantics the form logic depends on:
 * the result of `Number(...)` (NaN, the two infinities or a finite value),
 * truthiness as used by `||`, and `Math.max` / `Math.min`.
 *
 * Finite doubles are modelled as unbounded reals: the form logic never
 * rounds, so `2.5` stays `2.5`. Signed zero is not distinguished; `-0` and
 * `0` are both falsy, which is the only place the form logic looks at zero.
 */
module JsValues {

  /** JavaScript's `null`-or-value, used for the fetch error message. */
  datatype Option<+T> = None | Some(value: T)

  /** The result of JavaScript's `Number(...)` conversion. */
  datatype Num = NaN | PosInf | NegInf | Finite(value: real)

  /** JavaScript ToBoolean on a number: NaN and zero are falsy. */
  predicate Truthy(n: Num) {
    match n
    case NaN => false
    case Finite(x) => x != 0.0
    case _ => true
  }

  /** `n || fallback` on numbers: the left operand if truthy, else the right one. */
  function Or(n: Num, fallback: Num): (r: Num)
    ensures Truthy(n) ==> r == n
    ensures !Truthy(n) ==> r == fallback
    ensures n.NaN? || n == Finite(0.0) ==> r == fallback
  {
    if Truthy(n) then n else fallback
  }

  /** `s || fallback` on strings: only the empty string is falsy. */
  function OrString(s: string, fallback: string): (r: string)
    ensures s != "" ==> r == s
    ensures s == "" ==> r == fallback
  {
    if s != "" then s else fallback
  }

  /** The numeric order on non-NaN numbers: -Infinity < finite < +Infinity. */
  predicate AtMost(a: Num, b: Num)
    requires !a.NaN? && !b.NaN?
  {
    match (a, b)
    case (NegInf, _) => true
    case (_, PosInf) => true
    case (Finite(x), Finite(y)) => x <= y
    case _ => false
  }

  /** `Math.max(a, b)`: NaN if either argument is NaN, otherwise the larger. */
  function Max(a: Num, b: Num): (r: Num)
    ensures r.NaN? <==> a.NaN? || b.NaN?
    ensures !r.NaN? ==> (r == a || r == b) && AtMost(a, r) && AtMost(b, r)
  {
    if a.NaN? || b.NaN? then NaN
    else if AtMost(a, b) then b
    else a
  }

  /** `Math.min(a, b)`: NaN if either argument is NaN, otherwise the smaller. */
  function Min(a: Num, b: Num): (r: Num)
    ensures r.NaN? <==> a.NaN? || b.NaN?
    ensures !r.NaN? ==> (r == a || r == b) && AtMost(r, a) && AtMost(r, b)
  {
    if a.NaN? || b.NaN? then NaN
    else if AtMost(a, b) then a
    else b
  }

  /**
   * `Math.min(Math.max(n, lo), hi)`: pulls `n` into `[lo, hi]` and keeps it
   * there unchanged when it is already inside. NaN passes straight through.
   */
  function Clamp(n: Num, lo: real, hi: real): (r: Num)
    requires lo <= hi
    ensures r.NaN? <==> n.NaN?
    ensures !n.NaN? ==> r.Finite? && lo <= r.value <= hi
    ensures n.Finite? && lo <= n.value <= hi ==> r == n
    ensures n == NegInf || (n.Finite? && n.value < lo) ==> r == Finite(lo)
    ensures n == PosInf || (n.Finite? && hi < n.value) ==> r == Finite(hi)
  {
    Min(Max(n, Finite(lo)), Finite(hi))
  }

  /** Clamping twice is the same as clamping once. */
  lemma ClampIdempotent(n: Num, lo: real, hi: real)
    requires lo <= hi
    ensures Clamp(Clamp(n, lo, hi), lo, hi) == Clamp(n, lo, hi)
  {
  }
}
