/**
  The quantity stepper of the product dialog: an integer that opens at 1 and is moved
  by a minus button (never below 1) and a plus button (never above the product's stock).
 */
module Stepper {

  /** The value the dialog opens with. */
  const INITIAL: int := 1

  /** The stock every flavour card passes to the dialog. */
  const FLAVOR_STOCK: int := 12

  datatype Button = MinusButton | PlusButton

  /** `Math.max(1, v - 1)`: one step down, never below 1. */
  function Minus(v: int): (r: int)
    ensures r >= 1
    ensures v > 1 ==> r == v - 1
    ensures v >= 1 ==> r <= v
  {
    if v - 1 > 1 then v - 1 else 1
  }

  /** `Math.min(stock, v + 1)`: one step up, never above the stock. */
  function Plus(v: int, stock: int): (r: int)
    ensures r <= stock
    ensures v < stock ==> r == v + 1
    ensures v <= stock ==> r >= v
  {
    if v + 1 < stock then v + 1 else stock
  }

  function Press(v: int, b: Button, stock: int): int {
    match b
    case MinusButton => Minus(v)
    case PlusButton => Plus(v, stock)
  }

  /** The value after the given presses, first press first. */
  function Run(v: int, presses: seq<Button>, stock: int): int
    decreases |presses|
  {
    if presses == [] then v else Run(Press(v, presses[0], stock), presses[1..], stock)
  }

  /** Once in [1, stock], no sequence of presses leaves it. */
  lemma {:induction false} RunStaysInRange(v: int, presses: seq<Button>, stock: int)
    requires 1 <= v <= stock
    ensures 1 <= Run(v, presses, stock) <= stock
    decreases |presses|
  {
    if presses != [] {
      RunStaysInRange(Press(v, presses[0], stock), presses[1..], stock);
    }
  }

  /** From the opening value, any presses give a quantity in [1, stock] when the stock is positive. */
  lemma QuantityInRange(presses: seq<Button>, stock: int)
    requires stock >= 1
    ensures 1 <= Run(INITIAL, presses, stock) <= stock
  {
    RunStaysInRange(INITIAL, presses, stock);
  }

  function PlusPresses(k: nat): (r: seq<Button>)
    ensures |r| == k && forall j :: 0 <= j < k ==> r[j] == PlusButton
  {
    if k == 0 then [] else [PlusButton] + PlusPresses(k - 1)
  }

  /** Every quantity in [1, stock] can be reached: the range is not narrower than the stock. */
  lemma {:induction false} EveryQuantityReachable(v: int, k: nat, stock: int)
    requires 1 <= v && v + k <= stock
    ensures Run(v, PlusPresses(k), stock) == v + k
    decreases k
  {
    if k > 0 {
      assert PlusPresses(k)[1..] == PlusPresses(k - 1);
      EveryQuantityReachable(v + 1, k - 1, stock);
    }
  }
}
