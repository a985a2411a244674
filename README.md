# Abacus place-value model

A Dafny model of the arithmetic inside `AbacoPrimaria`, a four-column
classroom abacus (thousands `k`, hundreds `h`, tens `da`, units `u`). The
widget shows a number from 0 to 9999 as one digit per column. Two buttons
per column add or take away one bead. An "automatic carry" checkbox chooses
how a click changes the columns:

- with carry, the click adds one unit of that column to the whole number,
  saturates it into 0..9999 and shows the new number's digits, so carries
  and borrows cross columns;
- without carry, only the clicked column changes, saturated into 0..9.

The number field and the random button set the whole number, and "Azzera"
puts every column back to 0.

The project has three modules:

- `PlaceValue` (`place_value.dfy`) holds the pure arithmetic: `Clamp`, the
  weighted sum `Total`, the digit split `Split`, `FromNumber` (the widget's
  `setAll`), and the two click rules `WithCarry` and `WithoutCarry`.
- `CarryLaws` (`carry_laws.dfy`) holds what is proved about that
  arithmetic. The split is a bijection between 0..9999 and four digits.
  Ten clicks on a column that holds 0 carry one into the column above,
  while the number, raised by one unit of the column above, stays within
  9999 (from 9990 ten unit clicks stop at 9999 instead). The
  number saturates at 0 and at 9999 with no wrap-around. The two modes
  agree whenever the clicked column stays inside 0..9. When the column
  would leave 0..9 and the number stays inside 0..9999, they differ. When
  the number saturates, they can agree again (9998 plus five units gives
  9999 in both modes, `ModesAgreeAtTop`).
- `Abaco` (`abacus.dfy`) holds the class `Abacus`. Its fields are
  `k, h, da, u` and `carryEnabled`, and it has one method per handler. Each
  method's postcondition ties the new state to the pure function of the old
  state, and each method keeps every column in 0..9.

Modelling choices:

- The digits and the input are unbounded integers. JavaScript numbers do
  not wrap around. Integer input above 2^53 loses precision, but `clamp`
  takes any magnitude above 9999 to 9999 either way, so unbounded integers
  give the same digits (`FromNumber`'s last ensures).
- The multiplication `delta * amounts[placeKey]` is written per column in
  `PlaceValue.Units`. `CarryLaws.UnitsIsProduct` proves it equals
  `delta * Weight(p)`.
- The random button's draw `Math.floor(Math.random() * 10000)` becomes a
  parameter of `Abacus.SetRandom` that must lie in 0..9999.
- Repeated clicks are modelled by `CarryLaws.Clicks`, which applies
  `WithCarry` `n` times.

Two points of the code's behaviour that are easy to misread:

- Ten increments of a column that holds 0 raise the column above by exactly
  one only when that column is below 9; otherwise the carry goes on
  upwards, or the number stops at 9999. `TenIncrementsCarry` assumes the
  number plus one unit of the column above is at most 9999, and then
  states the total in both cases and the exact digits in the first;
  `ClicksSaturate` gives the clamped total when it is not. The thousands column has no column above, so
  ten clicks on it from any state hit the 9999 bound (`TenThousandsSaturate`).
- `setAll` computes `Math.floor(Math.abs(n))`, which is `|n|` for integers,
  so a negative input shows its absolute value.

## Model

| member | source | states |
|---|---|---|
| PlaceValue.Clamp | abaco_digitale_interattivo_react.jsx:14 | the result is never below `min`; for `min <= max` it lies in `min..max`, equals `n` inside the range and saturates to the nearer bound outside it |
| PlaceValue.Abs | abaco_digitale_interattivo_react.jsx:96 | `Math.floor(Math.abs(n))` on an integer is a natural number equal to `n` or `-n` |
| PlaceValue.Weight | abaco_digitale_interattivo_react.jsx:107 | the `amounts` table: every column weight lies in 1..1000 and divides the thousands' weight |
| PlaceValue.Units | abaco_digitale_interattivo_react.jsx:108 | `delta * amounts[placeKey]`, per column: the amount has the sign of `delta` and at least its magnitude |
| PlaceValue.Quotient | abaco_digitale_interattivo_react.jsx:98-101 | `Math.floor(v / w)` for `v >= 0` is a whole number between 0 and `v` |
| PlaceValue.Digit | abaco_digitale_interattivo_react.jsx:98-101 | `Math.floor(v / w) % 10` is a digit in 0..9 |
| PlaceValue.Digits.Set | abaco_digitale_interattivo_react.jsx:115 | `{ ...prev, [placeKey]: nv }`: column `p` becomes `nv` and the other three columns are kept |
| PlaceValue.Next | abaco_digitale_interattivo_react.jsx:7-12 | the column above `u`, `da` or `h` has ten times its weight |
| PlaceValue.Total | abaco_digitale_interattivo_react.jsx:90-93 | when every column is a digit, the weighted sum lies in 0..9999 with no clamp on the sum |
| PlaceValue.Split | abaco_digitale_interattivo_react.jsx:97-102 | for `v` in 0..9999, the four `floor(v / w) mod 10` values are digits and their weighted sum is `v` |
| PlaceValue.FromNumber | abaco_digitale_interattivo_react.jsx:95-102 | `setAll(n)` gives digits whose total is `clamp(abs(n), 0, 9999)`; a magnitude above 9999 (such as 10000) gives 9,9,9,9 |
| PlaceValue.WithCarry | abaco_digitale_interattivo_react.jsx:105-110 | after `addWithCarry(p, delta)` every column is a digit and the total is `clamp(oldTotal + delta * weight(p), 0, 9999)`, so it is never negative |
| PlaceValue.WithoutCarry | abaco_digitale_interattivo_react.jsx:112-117 | `addNoCarry(p, delta)` sets column `p` to `clamp(old + delta, 0, 9)` and leaves the other three alone; it keeps digits digits; the total moves by the change in column `p` times its weight |
| CarryLaws.UnitsIsProduct | abaco_digitale_interattivo_react.jsx:107-108 | the per-column amount equals `delta * amounts[placeKey]` with weights u=1, da=10, h=100, k=1000 |
| CarryLaws.QuotientIsFloor | abaco_digitale_interattivo_react.jsx:98-101 | `Math.floor(v / w)` is the largest `q` with `q * w <= v`: `q * w <= v < (q + 1) * w` |
| CarryLaws.DigitBelowTen | abaco_digitale_interattivo_react.jsx:98 | below ten units of a column the `% 10` changes nothing; for `v <= 9999` the thousands digit is `Math.floor(v / 1000)` itself |
| CarryLaws.SplitOfTotal | abaco_digitale_interattivo_react.jsx:90-102 | four digits split back to themselves after taking their total (the converse round trip) |
| CarryLaws.DigitAt | abaco_digitale_interattivo_react.jsx:97-102 | each column of an in-range state is `floor(total / weight) mod 10` of its total |
| CarryLaws.TotalInjective | abaco_digitale_interattivo_react.jsx:90-93 | two in-range states with the same total are equal |
| CarryLaws.SplitCharacterised | abaco_digitale_interattivo_react.jsx:90-102 | for `v` in 0..9999 and an in-range state `d`: `Split(v) == d` if and only if `Total(d) == v` |
| CarryLaws.TotalExtremes | abaco_digitale_interattivo_react.jsx:90-93 | an in-range state totals 9999 exactly when it is 9,9,9,9, and 0 exactly when it is all zeros |
| CarryLaws.FromNumberOfTotal | abaco_digitale_interattivo_react.jsx:95-102 | `setAll` of the total of any in-range state gives that state back, so columns and number always agree |
| CarryLaws.FromNumberIgnoresSign | abaco_digitale_interattivo_react.jsx:96 | a negative input shows the same digits as its absolute value |
| CarryLaws.Clicks | abaco_digitale_interattivo_react.jsx:105-110 | after one or more clicks with carry every column is a digit |
| CarryLaws.ClicksTotal | abaco_digitale_interattivo_react.jsx:105-110 | when no saturation happens, `n` clicks with carry add exactly `n * delta` units of the column to the total |
| CarryLaws.ClicksSaturate | abaco_digitale_interattivo_react.jsx:105-110 | for any `n`, `n` clicks with carry leave the total at `clamp(start + n * delta units, 0, 9999)`: once saturated, further clicks the same way stay at the bound |
| CarryLaws.TenThousandsSaturate | abaco_digitale_interattivo_react.jsx:105-110 | ten increments of the thousands from any in-range state show 9,9,9,9: there is no column above to carry into |
| CarryLaws.Carried | abaco_digitale_interattivo_react.jsx:105-110 | the state with column `p` at 0 and the column above raised by one has total `old + (10 - old digit) * weight(p)`, and is in range when the column above was below 9 |
| CarryLaws.FillColumnCarries | abaco_digitale_interattivo_react.jsx:105-110 | from a column holding `a`, `10 - a` clicks with carry bring that column to 0 and add `10 - a` units of it to the total |
| CarryLaws.FillColumnRaisesNext | abaco_digitale_interattivo_react.jsx:105-110 | if the column above is below 9, those clicks change only the two columns: `p` to 0, the one above by +1 |
| CarryLaws.TenIncrementsCarry | abaco_digitale_interattivo_react.jsx:105-110 | ten clicks with carry on a column at 0 return it to 0 and add one unit of the next column; when that column is below 9 it is the only other change |
| CarryLaws.CountingFromZero | abaco_digitale_interattivo_react.jsx:105-110 | from all zeros, `n` clicks on the units with carry show the digits of `n` (for `n` up to 9999) |
| CarryLaws.NineUnitClicks | abaco_digitale_interattivo_react.jsx:105-110 | from all zeros with carry, nine clicks on the units show 0,0,0,9 |
| CarryLaws.TenUnitClicks | abaco_digitale_interattivo_react.jsx:105-110 | from all zeros with carry, ten clicks on the units show 0,0,1,0 |
| CarryLaws.UnitsCarryFromNine | abaco_digitale_interattivo_react.jsx:105-110 | from `u = 9` with total + 1 at most 9999, one unit click with carry sets `u` to 0 and raises the total by 1; with `da` below 9 it raises `da` by one and changes nothing else |
| CarryLaws.SaturatesAtMaximum | abaco_digitale_interattivo_react.jsx:108 | at 9999 a non-negative click with carry changes nothing (no wrap-around) |
| CarryLaws.SaturatesAtZero | abaco_digitale_interattivo_react.jsx:108 | a borrow below 0 with carry shows all zeros |
| CarryLaws.NoCarrySticks | abaco_digitale_interattivo_react.jsx:112-116 | without carry, a column at 9 stays at 9 on increment and a column at 0 stays at 0 on decrement, and nothing else moves |
| CarryLaws.ModesAgreeWithinColumn | abaco_digitale_interattivo_react.jsx:105-117 | when the clicked column stays inside 0..9, the two modes give the same state |
| CarryLaws.ModesDifferLeavingColumn | abaco_digitale_interattivo_react.jsx:105-117 | when the clicked column would leave 0..9 and the number stays inside 0..9999, the two modes give different states |
| CarryLaws.ModesAgreeAtTop | abaco_digitale_interattivo_react.jsx:105-117 | with every other column at 9 and a click taking column `p` to 9 or beyond (such as 9998 plus five units), both modes show 9,9,9,9: the number is clamped at 9999 with carry, the column at 9 without |
| CarryLaws.ModesDivergeAtNine | abaco_digitale_interattivo_react.jsx:105-122 | from 0,0,0,9 a unit click gives 0,0,1,0 with carry and leaves 0,0,0,9 without carry |
| Abaco.Abacus.constructor | abaco_digitale_interattivo_react.jsx:86-87 | the widget starts with every column at 0 and automatic carry on |
| Abaco.Abacus.GetTotal | abaco_digitale_interattivo_react.jsx:90-93 | the displayed number is the weighted sum of the columns and lies in 0..9999 |
| Abaco.Abacus.SetAll | abaco_digitale_interattivo_react.jsx:95-103 | the new columns are `FromNumber(n)`: digits whose total is `clamp(abs(n), 0, 9999)`; the flag is unchanged |
| Abaco.Abacus.SetRandom | abaco_digitale_interattivo_react.jsx:186 | with a draw `r` in 0..9999 the abacus shows exactly `r` |
| Abaco.Abacus.AddWithCarry | abaco_digitale_interattivo_react.jsx:105-110 | the new columns are `WithCarry` of the old ones; the total is `clamp(oldTotal + delta * weight, 0, 9999)` |
| Abaco.Abacus.AddNoCarry | abaco_digitale_interattivo_react.jsx:112-117 | only column `p` changes, to `clamp(old + delta, 0, 9)`; the columns stay digits |
| Abaco.Abacus.HandleAdd | abaco_digitale_interattivo_react.jsx:119-122 | the click follows `WithCarry` exactly when the flag is on and `WithoutCarry` otherwise; the flag does not change |
| Abaco.Abacus.Reset | abaco_digitale_interattivo_react.jsx:150 | "Azzera" sets every column to 0 and leaves the flag |
| Abaco.Abacus.SetCarryEnabled | abaco_digitale_interattivo_react.jsx:144 | the checkbox sets the flag and changes no column |

## Left out

- Rendering and animation are not modelled: `Cloud`, the bead layout in `Column`, framer-motion properties and styling (abaco_digitale_interattivo_react.jsx:16-83). They are presentation only.
- `toggleFullscreen` (abaco_digitale_interattivo_react.jsx:124-132) is not modelled. It only makes asynchronous calls to the browser's fullscreen API.
- `Math.random()` is not modelled. The draw is a parameter of `Abacus.SetRandom`, constrained to 0..9999.
- Non-integer and NaN input from the number field (abaco_digitale_interattivo_react.jsx:182) is not modelled. `Math.floor` of a fraction and NaN through `clamp` are floating-point behaviour, so the model takes integer input only.
- The `it-IT` thousands-separator formatting of the total (abaco_digitale_interattivo_react.jsx:167) is not modelled. It is a library call.
- React state semantics are not modelled: `useState`/`useMemo`/`useRef`, batching of updates, and the stale closure read in `addWithCarry` as against the functional update in `addNoCarry`. Each handler is one sequential state change. Two clicks handled within a single render are not captured.
- The `PLACES` table (names, labels, colours) is not modelled. Only the order of the columns matters here, and `Place` with `Next` captures it.
