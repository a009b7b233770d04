/**
 * src/components/forms/water/WaterAmountControl.tsx: the amount picker of
 * the water form. The step buttons clamp the amount to [50, 2000] ml, each is
 * disabled at its end of the range, and three presets set fixed amounts.
 */
module WaterAmountControl {
  const MinAmount: int := 50
  const MaxAmount: int := 2000
  const Step: int := 50

  /** `adjustAmount(change)`: `Math.max(50, Math.min(2000, amount + change))`. */
  function AdjustAmount(amount: int, change: int): (r: int)
    ensures MinAmount <= r <= MaxAmount
    ensures MinAmount <= amount + change <= MaxAmount ==> r == amount + change
    ensures amount + change < MinAmount ==> r == MinAmount
    ensures amount + change > MaxAmount ==> r == MaxAmount
  {
    var upper := if MaxAmount < amount + change then MaxAmount else amount + change;
    if MinAmount > upper then MinAmount else upper
  }

  /** `disabled={amount <= 50}` on the '-' button. */
  predicate DecrementDisabled(amount: int) {
    amount <= MinAmount
  }

  /** `disabled={amount >= 2000}` on the '+' button. */
  predicate IncrementDisabled(amount: int) {
    amount >= MaxAmount
  }

  /** The three preset buttons, in the order shown. */
  const Presets: seq<int> := [100, 250, 500]

  /** A press of '-' (change -50) or '+' (change +50), when the button is enabled. */
  function Press(amount: int, increment: bool): (r: int)
    requires if increment then !IncrementDisabled(amount) else !DecrementDisabled(amount)
  {
    AdjustAmount(amount, if increment then Step else -Step)
  }

  /**
   * On a whole number of steps inside the range (what the slider, the presets
   * and the buttons produce), an enabled button moves the amount by exactly
   * one step.
   */
  lemma StepIsExact(amount: int, increment: bool)
    requires MinAmount <= amount <= MaxAmount && amount % Step == 0
    requires if increment then !IncrementDisabled(amount) else !DecrementDisabled(amount)
    ensures Press(amount, increment) == if increment then amount + Step else amount - Step
  {
  }

  /** A '+' then a '-' from inside the range returns to the starting amount. */
  lemma StepsCancel(amount: int)
    requires MinAmount <= amount < MaxAmount && amount % Step == 0
    ensures !DecrementDisabled(Press(amount, true))
    ensures Press(Press(amount, true), false) == amount
  {
  }

  /** Off the step grid the clamp shows: 1990 ml plus one step gives 2000 ml, not 2040 ml. */
  lemma OffGridStepClamps()
    ensures !IncrementDisabled(1990) && Press(1990, true) == 2000
  {
  }

  /** Clamping is idempotent: an amount already produced is in range and a zero change keeps it. */
  lemma AdjustIdempotent(amount: int, change: int)
    ensures AdjustAmount(AdjustAmount(amount, change), 0) == AdjustAmount(amount, change)
  {
  }

  /** At an end of the range the button towards it is disabled, and the other is enabled. */
  lemma EndsDisableOneButton(amount: int)
    requires MinAmount <= amount <= MaxAmount
    ensures DecrementDisabled(amount) <==> amount == MinAmount
    ensures IncrementDisabled(amount) <==> amount == MaxAmount
    ensures !(DecrementDisabled(amount) && IncrementDisabled(amount))
  {
  }

  /** Every preset lies inside the range and is a whole number of steps. */
  lemma PresetsInRange()
    ensures forall i :: 0 <= i < |Presets| ==> MinAmount <= Presets[i] <= MaxAmount && Presets[i] % Step == 0
  {
  }
}
