/** Place-value arithmetic of the four-column abacus (k, h, da, u).

    The abacus shows a number between 0 and 9999 as four digits: thousands (k),
    hundreds (h), tens (da) and units (u). This module holds the pure part of
    the widget: saturation, the weighted sum, the split of a number into its
    digits, and the two ways a column edit changes the digits (with carry and
    without carry).
 */
module PlaceValue {

  /** Largest number the four columns can show. */
  const MaxTotal: int := 9999

  /** Largest value of a single column. */
  const MaxDigit: int := 9

  /** Saturates `n` into `lo..hi`: `max(lo, min(n, hi))`. */
  function Clamp(n: int, lo: int, hi: int): (r: int)
    ensures r >= lo
    ensures lo <= hi ==> r <= hi
    ensures lo <= n <= hi ==> r == n
    ensures n < lo ==> r == lo
    ensures lo <= hi < n ==> r == hi
  {
    var m := if n < hi then n else hi;
    if lo > m then lo else m
  }

  /** Absolute value of an integer (the widget's `Math.floor(Math.abs(n))` on integers). */
  function Abs(n: int): (r: nat)
    ensures r == n || r == -n
  {
    if n < 0 then -n else n
  }

  /** The four columns of the abacus. */
  datatype Place = K | H | Da | U

  /** Positional weight of a column: a power of ten between 1 and 1000, so
      every weight divides the thousands' weight. */
  function Weight(p: Place): (w: nat)
    ensures 1 <= w <= 1000
    ensures 1000 % w == 0
  {
    match p
    case U => 1
    case Da => 10
    case H => 100
    case K => 1000
  }

  /** The column a carry out of `p` goes into; thousands have none. */
  function Next(p: Place): (q: Place)
    requires p != K
    ensures Weight(q) == 10 * Weight(p)
  {
    match p
    case U => Da
    case Da => H
    case H => K
  }

  /** `n` units of column `p`: `n * Weight(p)`, written per column so that
      each case is linear arithmetic. The amount has the sign of `n` and at
      least its magnitude. */
  function Units(p: Place, n: int): (r: int)
    ensures n >= 0 ==> r >= n
    ensures n <= 0 ==> r <= n
  {
    match p
    case U => n
    case Da => n * 10
    case H => n * 100
    case K => n * 1000
  }

  /** `floor(v / Weight(p))`, for a non-negative `v`: the number of whole
      units of column `p` that fit in `v` (`CarryLaws.QuotientIsFloor`). */
  function Quotient(v: int, p: Place): (q: int)
    requires v >= 0
    ensures 0 <= q <= v
  {
    match p
    case U => v
    case Da => v / 10
    case H => v / 100
    case K => v / 1000
  }

  /** The digit of `v` in column `p`: `floor(v / weight) mod 10`, in 0..9. */
  function Digit(v: int, p: Place): (x: int)
    requires v >= 0
    ensures 0 <= x <= MaxDigit
  {
    Quotient(v, p) % 10
  }

  /** The state of the four columns. Fields are plain integers, so a state with
      a digit out of 0..9 is expressible; `InRange` says when it is not. */
  datatype Digits = Digits(k: int, h: int, da: int, u: int)
  {
    /** The digit shown in column `p`. */
    function At(p: Place): int
    {
      match p
      case K => k
      case H => h
      case Da => da
      case U => u
    }

    /** This state with column `p` replaced by `x` and the other three kept. */
    function Set(p: Place, x: int): (r: Digits)
      ensures r.At(p) == x
      ensures forall q :: q != p ==> r.At(q) == At(q)
    {
      match p
      case K => this.(k := x)
      case H => this.(h := x)
      case Da => this.(da := x)
      case U => this.(u := x)
    }
  }

  /** All four columns at zero (initial state, and the "Azzera" button). */
  const Zero: Digits := Digits(0, 0, 0, 0)

  /** Every column holds a digit in 0..9. */
  predicate InRange(d: Digits)
  {
    0 <= d.k <= MaxDigit && 0 <= d.h <= MaxDigit && 0 <= d.da <= MaxDigit && 0 <= d.u <= MaxDigit
  }

  /** The number shown: the weighted sum of the columns. When every column is a
      digit the sum is within 0..9999 without any clamp on the sum itself. */
  function Total(d: Digits): (t: int)
    ensures InRange(d) ==> 0 <= t <= MaxTotal
  {
    d.k * 1000 + d.h * 100 + d.da * 10 + d.u
  }

  /** Division by 100 or 1000 is determined by any decomposition
      `n == w * q + r` with `0 <= r < w`. */
  lemma {:induction false} DivOf(n: int, w: int, q: int, r: int)
    requires w == 100 || w == 1000
    requires 0 <= r < w && n == w * q + r
    ensures n / w == q
  {
    // The two branches are the same; the split makes `w` a literal in each,
    // so the product `w * (q - n / w)` stays linear.
    if w == 100 {
      assert w * (q - n / w) == n % w - r;
    } else {
      assert w * (q - n / w) == n % w - r;
    }
  }

  /** The four digits of `v` are digits and their weighted sum is `v`. */
  lemma {:induction false} SplitSound(v: int)
    requires 0 <= v <= MaxTotal
    ensures InRange(Digits(Digit(v, K), Digit(v, H), Digit(v, Da), Digit(v, U)))
    ensures Total(Digits(Digit(v, K), Digit(v, H), Digit(v, Da), Digit(v, U))) == v
  {
    var q1, r0 := v / 10, v % 10;
    var q2, r1 := q1 / 10, q1 % 10;
    var q3, r2 := q2 / 10, q2 % 10;
    assert v == 10 * q1 + r0 && q1 == 10 * q2 + r1 && q2 == 10 * q3 + r2;
    DivOf(v, 100, q2, 10 * r1 + r0);
    DivOf(v, 1000, q3, 100 * r2 + 10 * r1 + r0);
    assert Digit(v, U) == r0 && Digit(v, Da) == r1 && Digit(v, H) == r2;
    assert Digit(v, K) == q3;
  }

  /** Splits a number in 0..9999 into its decimal digits. */
  function Split(v: int): (d: Digits)
    requires 0 <= v <= MaxTotal
    ensures InRange(d)
    ensures Total(d) == v
  {
    SplitSound(v);
    Digits(Digit(v, K), Digit(v, H), Digit(v, Da), Digit(v, U))
  }

  /** `setAll(n)`: the digits of `|n|` saturated into 0..9999. */
  function FromNumber(n: int): (d: Digits)
    ensures InRange(d)
    ensures Total(d) == Clamp(Abs(n), 0, MaxTotal)
    ensures Abs(n) <= MaxTotal ==> Total(d) == Abs(n)
    ensures Abs(n) > MaxTotal ==> d == Digits(9, 9, 9, 9)
  {
    Split(Clamp(Abs(n), 0, MaxTotal))
  }

  /** `addWithCarry(p, delta)`: add `delta` units of column `p` to the number
      shown, saturate into 0..9999 and show the result's digits. Carries and
      borrows across columns come from the re-split. */
  function WithCarry(d: Digits, p: Place, delta: int): (r: Digits)
    ensures InRange(r)
    ensures Total(r) == Clamp(Total(d) + Units(p, delta), 0, MaxTotal)
  {
    var next := Clamp(Total(d) + Units(p, delta), 0, MaxTotal);
    FromNumber(next)
  }

  /** `addNoCarry(p, delta)`: change column `p` alone, saturated into 0..9;
      no carry or borrow reaches the other columns. */
  function WithoutCarry(d: Digits, p: Place, delta: int): (r: Digits)
    ensures r.At(p) == Clamp(d.At(p) + delta, 0, MaxDigit)
    ensures forall q :: q != p ==> r.At(q) == d.At(q)
    ensures InRange(d) ==> InRange(r)
    ensures Total(r) == Total(d) + Units(p, r.At(p) - d.At(p))
  {
    d.Set(p, Clamp(d.At(p) + delta, 0, MaxDigit))
  }
}
