/** The abacus widget's state and its handlers.

    The widget holds the four columns (k, h, da, u) and the "automatic carry"
    flag. Every user action replaces that state: the column buttons go through
    `HandleAdd`, the number field and the random button through `SetAll`, the
    "Azzera" button through `Reset` and the checkbox through `SetCarryEnabled`.
    Each handler is one sequential state change, specified by the pure
    functions of `PlaceValue`.
 */
module Abaco {
  import opened PlaceValue
  import CarryLaws

  class Abacus {
    var k: int
    var h: int
    var da: int
    var u: int
    var carryEnabled: bool

    /** The four columns as a value. */
    function State(): Digits
      reads this
    {
      Digits(k, h, da, u)
    }

    /** Every column holds a digit in 0..9; each handler keeps this. */
    ghost predicate Valid()
      reads this
    {
      InRange(State())
    }

    /** Initial state: all columns at 0, automatic carry on. */
    constructor ()
      ensures Valid()
      ensures State() == Zero && carryEnabled
    {
      k, h, da, u := 0, 0, 0, 0;
      carryEnabled := true;
    }

    /** The number shown under the columns: their weighted sum, always within
        0..9999 while the columns are digits. */
    method GetTotal() returns (t: int)
      requires Valid()
      ensures t == Total(State())
      ensures 0 <= t <= MaxTotal
    {
      t := k * 1000 + h * 100 + da * 10 + u;
    }

    /** `setAll(n)`: show the digits of `|n|` saturated into 0..9999. */
    method SetAll(n: int)
      modifies this
      ensures Valid()
      ensures State() == FromNumber(n)
      ensures Total(State()) == Clamp(Abs(n), 0, MaxTotal)
      ensures carryEnabled == old(carryEnabled)
    {
      var v := Clamp(Abs(n), 0, MaxTotal);
      k := (v / 1000) % 10;
      h := (v / 100) % 10;
      da := (v / 10) % 10;
      u := v % 10;
    }

    /** The random-number button: `setAll` applied to a number drawn from
        0..9999, which the caller supplies. */
    method SetRandom(r: int)
      requires 0 <= r <= MaxTotal
      modifies this
      ensures Valid()
      ensures Total(State()) == r
      ensures carryEnabled == old(carryEnabled)
    {
      SetAll(r);
    }

    /** `addWithCarry(p, delta)`: add `delta` units of column `p` to the number
        shown, saturate into 0..9999 and show the result's digits. */
    method AddWithCarry(p: Place, delta: int)
      modifies this
      ensures Valid()
      ensures State() == WithCarry(old(State()), p, delta)
      ensures Total(State()) == Clamp(old(Total(State())) + delta * Weight(p), 0, MaxTotal)
      ensures carryEnabled == old(carryEnabled)
    {
      var value := k * 1000 + h * 100 + da * 10 + u;
      var next := Clamp(value + delta * Weight(p), 0, MaxTotal);
      CarryLaws.UnitsIsProduct(p, delta);
      SetAll(next);
    }

    /** `addNoCarry(p, delta)`: change column `p` alone, saturated into 0..9. */
    method AddNoCarry(p: Place, delta: int)
      requires Valid()
      modifies this
      ensures Valid()
      ensures State() == WithoutCarry(old(State()), p, delta)
      ensures State().At(p) == Clamp(old(State()).At(p) + delta, 0, MaxDigit)
      ensures forall q :: q != p ==> State().At(q) == old(State()).At(q)
      ensures carryEnabled == old(carryEnabled)
    {
      match p
      case K => k := Clamp(k + delta, 0, MaxDigit);
      case H => h := Clamp(h + delta, 0, MaxDigit);
      case Da => da := Clamp(da + delta, 0, MaxDigit);
      case U => u := Clamp(u + delta, 0, MaxDigit);
    }

    /** A click on a column's button: with carry when the flag is on, without
        carry otherwise. The flag itself does not change. */
    method HandleAdd(p: Place, delta: int)
      requires Valid()
      modifies this
      ensures Valid()
      ensures old(carryEnabled) ==> State() == WithCarry(old(State()), p, delta)
      ensures !old(carryEnabled) ==> State() == WithoutCarry(old(State()), p, delta)
      ensures carryEnabled == old(carryEnabled)
    {
      if carryEnabled {
        AddWithCarry(p, delta);
      } else {
        AddNoCarry(p, delta);
      }
    }

    /** The "Azzera" button: all columns back to 0. */
    method Reset()
      modifies this
      ensures Valid()
      ensures State() == Zero
      ensures carryEnabled == old(carryEnabled)
    {
      k, h, da, u := 0, 0, 0, 0;
    }

    /** The "automatic carry" checkbox: sets the flag and leaves every column as it is. */
    method SetCarryEnabled(checked: bool)
      modifies this`carryEnabled
      ensures carryEnabled == checked
      ensures State() == old(State())
    {
      carryEnabled := checked;
    }
  }
}
