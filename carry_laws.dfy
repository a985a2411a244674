/** Laws of the abacus arithmetic: the digit split is a bijection between
    0..9999 and four digits, carries move into the next column, saturation
    happens at 0 and at 9999, and the two edit modes agree whenever the edited
    column does not leave 0..9.
 */
module CarryLaws {
  import opened PlaceValue

  /** Division by 10 is determined by any decomposition `n == 10 * q + r` with `r` a digit. */
  lemma {:induction false} DivModTen(n: int, q: int, r: int)
    requires 0 <= r < 10 && n == 10 * q + r
    ensures n / 10 == q && n % 10 == r
  {
    assert 10 * (q - n / 10) == n % 10 - r;
  }

  /** `Units` is the widget's `delta * amounts[placeKey]`. */
  lemma {:induction false} UnitsIsProduct(p: Place, n: int)
    ensures Units(p, n) == n * Weight(p)
  {
    match p
    case U =>
    case Da =>
    case H =>
    case K =>
  }

  /** Units of a column add up. */
  lemma {:induction false} UnitsAdd(p: Place, a: int, b: int)
    ensures Units(p, a + b) == Units(p, a) + Units(p, b)
  {
    match p
    case U =>
    case Da =>
    case H =>
    case K =>
  }

  /** `Quotient(v, p)` is `floor(v / Weight(p))`: the largest number of whole
      units of column `p` that fit in `v`. */
  lemma {:induction false} QuotientIsFloor(v: int, p: Place)
    requires v >= 0
    ensures Units(p, Quotient(v, p)) <= v < Units(p, Quotient(v, p) + 1)
  {
    match p
    case U =>
    case Da =>
    case H =>
    case K =>
  }

  /** Below ten units of column `p`, the digit in that column is the plain
      quotient: no `mod 10` is needed. */
  lemma {:induction false} DigitBelowTen(v: int, p: Place)
    requires 0 <= v < Units(p, 10)
    ensures Digit(v, p) == Quotient(v, p)
  {
    QuotientIsFloor(v, p);
  }

  /** Splitting the total of four digits gives those digits back. */
  lemma {:induction false} SplitOfTotal(d: Digits)
    requires InRange(d)
    ensures Split(Total(d)) == d
  {
    var t := Total(d);
    var q1 := d.k * 100 + d.h * 10 + d.da;
    var q2 := d.k * 10 + d.h;
    DivModTen(t, q1, d.u);
    DivModTen(q1, q2, d.da);
    DivModTen(q2, d.k, d.h);
    DivModTen(d.k, 0, d.k);
    assert t / 100 == q2 by { assert t / 100 == (t / 10) / 10; }
    assert t / 1000 == d.k by { assert t / 1000 == ((t / 10) / 10) / 10; }
  }

  /** Column `p` of an in-range state is the digit `floor(total / weight) mod 10`
      of its total, as `setAll` computes it. */
  lemma {:induction false} DigitAt(d: Digits, p: Place)
    requires InRange(d)
    ensures d.At(p) == Digit(Total(d), p)
  {
    SplitOfTotal(d);
  }

  /** Two digit states with the same total are the same state. */
  lemma {:induction false} TotalInjective(a: Digits, b: Digits)
    requires InRange(a) && InRange(b)
    requires Total(a) == Total(b)
    ensures a == b
  {
    SplitOfTotal(a);
    SplitOfTotal(b);
  }

  /** The split of `v` is the one digit state whose total is `v`. */
  lemma {:induction false} SplitCharacterised(v: int, d: Digits)
    requires 0 <= v <= MaxTotal
    requires InRange(d)
    ensures Split(v) == d <==> Total(d) == v
  {
    if Total(d) == v {
      SplitOfTotal(d);
    }
  }

  /** The number 9999 is shown as 9999 and 0 as 0000, and by no other state. */
  lemma {:induction false} TotalExtremes(d: Digits)
    requires InRange(d)
    ensures Total(d) == MaxTotal <==> d == Digits(9, 9, 9, 9)
    ensures Total(d) == 0 <==> d == Zero
  {
    if Total(d) == MaxTotal {
      TotalInjective(d, Digits(9, 9, 9, 9));
    }
    if Total(d) == 0 {
      TotalInjective(d, Zero);
    }
  }

  /** Any in-range state is what `setAll` shows for its own total, so with
      carry on the columns and the number always agree. */
  lemma {:induction false} FromNumberOfTotal(d: Digits)
    requires InRange(d)
    ensures FromNumber(Total(d)) == d
  {
    SplitOfTotal(d);
  }

  /** A negative input shows the same digits as its absolute value. */
  lemma {:induction false} FromNumberIgnoresSign(n: int)
    ensures FromNumber(-n) == FromNumber(n)
  {
    assert Abs(-n) == Abs(n);
  }

  /** `n` successive clicks with carry on column `p`, each adding `delta`. */
  function Clicks(d: Digits, p: Place, delta: int, n: nat): (r: Digits)
    ensures n > 0 ==> InRange(r)
    decreases n
  {
    if n == 0 then d else Clicks(WithCarry(d, p, delta), p, delta, n - 1)
  }

  /** `n` equal steps are the first step plus `n - 1` more, all of one sign. */
  lemma {:induction false} FirstStep(p: Place, delta: int, n: nat)
    requires n > 0
    ensures Units(p, n * delta) == Units(p, delta) + Units(p, (n - 1) * delta)
    ensures (Units(p, delta) >= 0 && Units(p, (n - 1) * delta) >= 0)
         || (Units(p, delta) <= 0 && Units(p, (n - 1) * delta) <= 0)
  {
    assert n * delta == delta + (n - 1) * delta;
    UnitsAdd(p, delta, (n - 1) * delta);
    if delta >= 0 {
      assert (n - 1) * delta >= 0;
    } else {
      assert (n - 1) * delta <= 0;
    }
  }

  /** One step lies between the start and the end of `n` equal steps. */
  lemma {:induction false} StepBetween(t: int, p: Place, delta: int, n: nat)
    requires n > 0
    requires 0 <= t <= MaxTotal && 0 <= t + Units(p, n * delta) <= MaxTotal
    ensures 0 <= t + Units(p, delta) <= MaxTotal
    ensures Units(p, n * delta) == Units(p, delta) + Units(p, (n - 1) * delta)
  {
    FirstStep(p, delta, n);
    match p
    case U =>
    case Da =>
    case H =>
    case K =>
  }

  /** Without saturation along the way, `n` clicks add `n * delta` units of the column. */
  lemma {:induction false} ClicksTotal(d: Digits, p: Place, delta: int, n: nat)
    requires InRange(d)
    requires 0 <= Total(d) + Units(p, n * delta) <= MaxTotal
    ensures InRange(Clicks(d, p, delta, n))
    ensures Total(Clicks(d, p, delta, n)) == Total(d) + Units(p, n * delta)
    decreases n
  {
    if n > 0 {
      var t := Total(d);
      StepBetween(t, p, delta, n);
      var d' := WithCarry(d, p, delta);
      assert Total(d') == t + Units(p, delta);
      ClicksTotal(d', p, delta, n - 1);
    }
  }

  /** Two saturating steps of the same sign saturate like one step of their sum. */
  lemma {:induction false} ClampSameSign(t: int, a: int, b: int)
    requires 0 <= t <= MaxTotal
    requires (a >= 0 && b >= 0) || (a <= 0 && b <= 0)
    ensures Clamp(Clamp(t + a, 0, MaxTotal) + b, 0, MaxTotal) == Clamp(t + a + b, 0, MaxTotal)
  {
  }

  /** The inductive step of `ClicksSaturate`, on totals alone: a first
      saturating step followed by `n - 1` more saturates like all `n` at once. */
  lemma {:induction false} SaturateStep(t: int, t1: int, r: int, p: Place, delta: int, n: nat)
    requires n > 0 && 0 <= t <= MaxTotal
    requires t1 == Clamp(t + Units(p, delta), 0, MaxTotal)
    requires r == Clamp(t1 + Units(p, (n - 1) * delta), 0, MaxTotal)
    ensures r == Clamp(t + Units(p, n * delta), 0, MaxTotal)
  {
    FirstStep(p, delta, n);
    ClampSameSign(t, Units(p, delta), Units(p, (n - 1) * delta));
  }

  /** With or without saturation, `n` clicks with carry leave the total at
      `clamp(start + n * delta units, 0, 9999)`: once the number hits a bound,
      further clicks in the same direction keep it there. */
  lemma {:induction false} ClicksSaturate(d: Digits, p: Place, delta: int, n: nat)
    requires InRange(d)
    ensures Total(Clicks(d, p, delta, n)) == Clamp(Total(d) + Units(p, n * delta), 0, MaxTotal)
    decreases n
  {
    if n > 0 {
      var d' := WithCarry(d, p, delta);
      ClicksSaturate(d', p, delta, n - 1);
      SaturateStep(Total(d), Total(d'), Total(Clicks(d', p, delta, n - 1)), p, delta, n);
    }
  }

  /** The thousands have no column above: ten increments of them from any
      state run into the 9999 bound and show 9,9,9,9. */
  lemma {:induction false} TenThousandsSaturate(d: Digits)
    requires InRange(d)
    ensures Clicks(d, K, 1, 10) == Digits(9, 9, 9, 9)
  {
    ClicksSaturate(d, K, 1, 10);
    TotalExtremes(Clicks(d, K, 1, 10));
  }

  /** Adding `n` units of column `p` to a non-negative number adds `n` to its
      quotient by the column's weight. */
  lemma {:induction false} ShiftQuotient(t: int, p: Place, n: nat)
    requires t >= 0
    ensures Quotient(t + Units(p, n), p) == Quotient(t, p) + n
    decreases Weight(p)
  {
    match p
    case U =>
    case Da =>
      DivModTen(t + 10 * n, t / 10 + n, t % 10);
    case H =>
      ShiftQuotient(t / 10, Da, n);
      assert (t + 100 * n) / 10 == t / 10 + 10 * n by {
        DivModTen(t + 100 * n, t / 10 + 10 * n, t % 10);
      }
      assert t / 100 == (t / 10) / 10;
      assert (t + 100 * n) / 100 == ((t + 100 * n) / 10) / 10;
    case K =>
      ShiftQuotient(t / 10, H, n);
      assert (t + 1000 * n) / 10 == t / 10 + 100 * n by {
        DivModTen(t + 1000 * n, t / 10 + 100 * n, t % 10);
      }
      assert t / 1000 == (t / 10) / 100;
      assert (t + 1000 * n) / 1000 == ((t + 1000 * n) / 10) / 100;
  }

  /** If digit `p` of `t` is `10 - n`, adding `n` units of column `p` turns that digit to 0. */
  lemma {:induction false} FilledDigitIsZero(t: int, p: Place, n: nat)
    requires t >= 0
    requires n == 10 - Digit(t, p)
    ensures Digit(t + Units(p, n), p) == 0
  {
    ShiftQuotient(t, p, n);
    var x := Quotient(t, p);
    DivModTen(x, x / 10, x % 10);
    DivModTen(x + n, x / 10 + 1, 0);
  }

  /** The state a fill of column `p` ends in when no further carry is needed:
      column `p` back at 0 and the column above raised by one. */
  function Carried(d: Digits, p: Place): (e: Digits)
    requires p != K
    ensures InRange(d) && d.At(Next(p)) < MaxDigit ==> InRange(e)
    ensures Total(e) == Total(d) + Units(p, 10 - d.At(p))
  {
    d.Set(p, 0).Set(Next(p), d.At(Next(p)) + 1)
  }

  /** Any in-range state whose total is `10 - a` units of column `p` above a
      state with `a` in that column holds 0 in column `p`. */
  lemma {:induction false} FilledColumnIsZero(d: Digits, r: Digits, p: Place, n: nat)
    requires InRange(d) && InRange(r)
    requires n == 10 - d.At(p)
    requires Total(r) == Total(d) + Units(p, n)
    ensures r.At(p) == 0
  {
    DigitAt(d, p);
    FilledDigitIsZero(Total(d), p, n);
    DigitAt(r, p);
  }

  /** A column holding `a` is filled by `10 - a` increments with carry: the
      column comes back to 0 and the number grows by `10 - a` units of the
      column, which carries one into the column above. */
  lemma {:induction false} FillColumnCarries(d: Digits, p: Place, n: nat)
    requires InRange(d) && p != K
    requires n == 10 - d.At(p)
    requires Total(d) + Units(p, n) <= MaxTotal
    ensures Clicks(d, p, 1, n).At(p) == 0
    ensures Total(Clicks(d, p, 1, n)) == Total(d) + Units(p, n)
  {
    ClicksTotal(d, p, 1, n);
    FilledColumnIsZero(d, Clicks(d, p, 1, n), p, n);
  }

  /** When the column above is below 9, filling column `p` changes exactly
      two columns: `p` goes to 0 and the column above goes up by one. */
  lemma {:induction false} FillColumnRaisesNext(d: Digits, p: Place, n: nat)
    requires InRange(d) && p != K
    requires n == 10 - d.At(p)
    requires d.At(Next(p)) < MaxDigit
    requires Total(d) + Units(p, n) <= MaxTotal
    ensures Clicks(d, p, 1, n) == Carried(d, p)
  {
    FillColumnCarries(d, p, n);
    TotalInjective(Clicks(d, p, 1, n), Carried(d, p));
  }

  /** From a column holding 0, the carried state only raises the column above. */
  lemma {:induction false} CarriedFromZero(d: Digits, p: Place)
    requires p != K && d.At(p) == 0
    ensures Carried(d, p) == d.Set(Next(p), d.At(Next(p)) + 1)
  {
    SameDigitsEqual(d.Set(p, 0), d);
  }

  /** One unit of the column above is ten units of this column. */
  lemma {:induction false} NextWeight(p: Place)
    requires p != K
    ensures Weight(Next(p)) == Units(p, 10)
  {
    match p
    case U =>
    case Da =>
    case H =>
  }

  /** Ten increments with carry of a column that holds 0 bring it back to 0
      and carry one into the next column; when that column is below 9, it is
      the only other change. */
  lemma {:induction false} TenIncrementsCarry(d: Digits, p: Place)
    requires InRange(d) && p != K
    requires d.At(p) == 0
    requires Total(d) + Weight(Next(p)) <= MaxTotal
    ensures Clicks(d, p, 1, 10).At(p) == 0
    ensures Total(Clicks(d, p, 1, 10)) == Total(d) + Weight(Next(p))
    ensures d.At(Next(p)) < MaxDigit ==>
              Clicks(d, p, 1, 10) == d.Set(Next(p), d.At(Next(p)) + 1)
  {
    NextWeight(p);
    FillColumnCarries(d, p, 10);
    if d.At(Next(p)) < MaxDigit {
      FillColumnRaisesNext(d, p, 10);
      CarriedFromZero(d, p);
    }
  }

  /** From any in-range state whose total is 0 (that is, the all-zero state),
      `n` clicks with carry on the units show the digits of `n`. Stated for a
      symbolic start so that the solver does not evaluate the clicks. */
  lemma {:induction false} CountingFromTotalZero(d: Digits, n: nat)
    requires InRange(d) && Total(d) == 0
    requires n <= MaxTotal
    ensures Clicks(d, U, 1, n) == Split(n)
  {
    ClicksTotal(d, U, 1, n);
    SplitCharacterised(n, Clicks(d, U, 1, n));
  }

  /** Counting on the abacus: from all zeros, `n` clicks with carry on the
      units show the digits of `n`. */
  lemma {:induction false} CountingFromZero(n: nat)
    requires n <= MaxTotal
    ensures Clicks(Zero, U, 1, n) == Split(n)
  {
    CountingFromTotalZero(Zero, n);
  }

  /** From all zeros with carry on, nine clicks on the units show 0009. */
  lemma {:induction false} NineUnitClicks()
    ensures Clicks(Zero, U, 1, 9) == Digits(0, 0, 0, 9)
  {
    CountingFromTotalZero(Zero, 9);
    SplitOfNineAndTen();
  }

  /** From all zeros with carry on, the tenth click on the units shows 0010. */
  lemma {:induction false} TenUnitClicks()
    ensures Clicks(Zero, U, 1, 10) == Digits(0, 0, 1, 0)
  {
    CountingFromTotalZero(Zero, 10);
    SplitOfNineAndTen();
  }

  /** The digits of 9 and of 10. */
  lemma SplitOfNineAndTen()
    ensures Split(9) == Digits(0, 0, 0, 9)
    ensures Split(10) == Digits(0, 0, 1, 0)
  {
  }

  /** One increment of the units from 9 turns them to 0 and carries one into the tens. */
  lemma {:induction false} UnitsCarryFromNine(d: Digits)
    requires InRange(d) && d.u == 9
    requires Total(d) + 1 <= MaxTotal
    ensures WithCarry(d, U, 1).u == 0
    ensures Total(WithCarry(d, U, 1)) == Total(d) + 1
    ensures d.da < MaxDigit ==> WithCarry(d, U, 1) == Digits(d.k, d.h, d.da + 1, 0)
  {
    var r := WithCarry(d, U, 1);
    var q := d.k * 100 + d.h * 10 + d.da + 1;
    DivModTen(Total(r), q, 0);
    DivModTen(Total(r), r.k * 100 + r.h * 10 + r.da, r.u);
    if d.da < MaxDigit {
      TotalInjective(r, Digits(d.k, d.h, d.da + 1, 0));
    }
  }

  /** At 9999 an increment with carry changes nothing: no wrap-around to 0. */
  lemma {:induction false} SaturatesAtMaximum(d: Digits, p: Place, delta: int)
    requires InRange(d) && Total(d) == MaxTotal
    requires delta >= 0
    ensures WithCarry(d, p, delta) == d
  {
    UnitsIsProduct(p, delta);
    TotalInjective(WithCarry(d, p, delta), d);
  }

  /** A borrow below 0 with carry on shows all zeros: the number never goes negative. */
  lemma {:induction false} SaturatesAtZero(d: Digits, p: Place, delta: int)
    requires Total(d) + Units(p, delta) < 0
    ensures WithCarry(d, p, delta) == Zero
  {
    TotalExtremes(WithCarry(d, p, delta));
  }

  /** Two states that agree on every column are equal. */
  lemma {:induction false} SameDigitsEqual(a: Digits, b: Digits)
    requires forall q :: a.At(q) == b.At(q)
    ensures a == b
  {
    assert a.At(K) == b.At(K) && a.At(H) == b.At(H);
    assert a.At(Da) == b.At(Da) && a.At(U) == b.At(U);
  }

  /** Without carry, a column at 9 stays at 9 on increment and a column at 0
      stays at 0 on decrement; the other columns do not move. */
  lemma {:induction false} NoCarrySticks(d: Digits, p: Place, delta: int)
    ensures d.At(p) == MaxDigit && delta >= 0 ==> WithoutCarry(d, p, delta) == d
    ensures d.At(p) == 0 && delta <= 0 ==> WithoutCarry(d, p, delta) == d
  {
    if d.At(p) == WithoutCarry(d, p, delta).At(p) {
      SameDigitsEqual(WithoutCarry(d, p, delta), d);
    }
  }

  /** The two modes agree whenever the edited column stays within 0..9: then
      no carry or borrow is needed and no saturation happens. */
  lemma {:induction false} ModesAgreeWithinColumn(d: Digits, p: Place, delta: int)
    requires InRange(d)
    requires 0 <= d.At(p) + delta <= MaxDigit
    ensures WithCarry(d, p, delta) == WithoutCarry(d, p, delta)
  {
    var r := WithoutCarry(d, p, delta);
    assert Total(r) == Total(d) + Units(p, delta);
    TotalInjective(WithCarry(d, p, delta), r);
  }

  /** Conversely, when the edited column would leave 0..9 and the number stays
      within 0..9999, the two modes differ: with carry the total moves by the
      full `delta` units, without carry by fewer. */
  lemma {:induction false} ModesDifferLeavingColumn(d: Digits, p: Place, delta: int)
    requires InRange(d)
    requires d.At(p) + delta < 0 || MaxDigit < d.At(p) + delta
    requires 0 <= Total(d) + Units(p, delta) <= MaxTotal
    ensures WithCarry(d, p, delta) != WithoutCarry(d, p, delta)
  {
    var c := WithoutCarry(d, p, delta).At(p) - d.At(p);
    assert c != delta;
    UnitsAdd(p, c, delta - c);
    assert Units(p, delta - c) != 0;
  }

  /** With every column but `p` at 9, the state is 9999 once `p` is at 9. */
  lemma {:induction false} TopOfColumn(d: Digits, p: Place)
    requires forall q :: q != p ==> d.At(q) == MaxDigit
    ensures d.Set(p, MaxDigit) == Digits(9, 9, 9, 9)
    ensures Total(d) + Units(p, MaxDigit - d.At(p)) == MaxTotal
  {
    SameDigitsEqual(d.Set(p, MaxDigit), Digits(9, 9, 9, 9));
    assert Total(d.Set(p, MaxDigit)) == Total(d) + Units(p, MaxDigit - d.At(p)) by {
      match p
      case K =>
      case H =>
      case Da =>
      case U =>
    }
  }

  /** Saturation can make the modes agree again outside 0..9: when every other
      column is at 9 and the click would take column `p` to 9 or beyond, both
      modes show 9999, the number clamped with carry and the column without.
      From 9998, five units is such a click. */
  lemma {:induction false} ModesAgreeAtTop(d: Digits, p: Place, delta: int)
    requires InRange(d)
    requires forall q :: q != p ==> d.At(q) == MaxDigit
    requires d.At(p) + delta >= MaxDigit
    ensures WithCarry(d, p, delta) == Digits(9, 9, 9, 9)
    ensures WithoutCarry(d, p, delta) == Digits(9, 9, 9, 9)
  {
    TopOfColumn(d, p);
    var a := MaxDigit - d.At(p);
    UnitsAdd(p, a, delta - a);
    var r := WithCarry(d, p, delta);
    assert Total(r) == MaxTotal;
    TotalExtremes(r);
  }

  /** Where the modes differ: from 0009, one click on the units gives 0010 with
      carry and stays 0009 without. */
  lemma ModesDivergeAtNine()
    ensures WithCarry(Digits(0, 0, 0, 9), U, 1) == Digits(0, 0, 1, 0)
    ensures WithoutCarry(Digits(0, 0, 0, 9), U, 1) == Digits(0, 0, 0, 9)
  {
    UnitsCarryFromNine(Digits(0, 0, 0, 9));
    NoCarrySticks(Digits(0, 0, 0, 9), U, 1);
  }
}
