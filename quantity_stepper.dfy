/**
 * The quantity selector of the product page: a number input with optional
 * `min` and `max` attributes, a "+" and a "-" button, and a change handler
 * that pulls a typed value back into range.
 *
 * The input's text is modelled by what parseInt reads from it (`None` for
 * NaN); a handler that writes a number writes text that reads back as it.
 */
module QuantityStepper {
  import opened Wrappers
  import opened JsCoercion

  const DefaultMin := 1
  const DefaultMax := 999

  /** `parseInt(input.value) || 1` */
  function Current(raw: Option<int>): (n: int)
    ensures raw.Some? && raw.value != 0 ==> n == raw.value
    ensures raw.None? || raw.value == 0 ==> n == 1
  {
    OrDefault(raw, 1)
  }

  /** `parseInt(input.getAttribute('min')) || 1` */
  function MinOf(minAttr: Option<int>): (n: int)
    ensures minAttr.Some? && minAttr.value != 0 ==> n == minAttr.value
    ensures minAttr.None? || minAttr.value == 0 ==> n == 1
  {
    OrDefault(minAttr, DefaultMin)
  }

  /** `parseInt(input.getAttribute('max')) || 999` */
  function MaxOf(maxAttr: Option<int>): (n: int)
    ensures maxAttr.Some? && maxAttr.value != 0 ==> n == maxAttr.value
    ensures maxAttr.None? || maxAttr.value == 0 ==> n == 999
  {
    OrDefault(maxAttr, DefaultMax)
  }

  /** The input after a click on "+": one more while below the maximum,
      otherwise untouched. */
  function Increased(raw: Option<int>, maxAttr: Option<int>): (r: Option<int>)
    ensures Current(raw) < MaxOf(maxAttr) ==>
              r == Some(Current(raw) + 1) && Current(raw) + 1 <= MaxOf(maxAttr)
    ensures Current(raw) >= MaxOf(maxAttr) ==> r == raw
  {
    var current := Current(raw);
    if current < MaxOf(maxAttr) then Some(current + 1) else raw
  }

  /** The input after a click on "-": one less while above the minimum,
      otherwise untouched. */
  function Decreased(raw: Option<int>, minAttr: Option<int>): (r: Option<int>)
    ensures Current(raw) > MinOf(minAttr) ==>
              r == Some(Current(raw) - 1) && Current(raw) - 1 >= MinOf(minAttr)
    ensures Current(raw) <= MinOf(minAttr) ==> r == raw
  {
    var current := Current(raw);
    if current > MinOf(minAttr) then Some(current - 1) else raw
  }

  /** The input after its change event: below the minimum it becomes the
      minimum, above the maximum the maximum, inside the range it is untouched. */
  function Changed(raw: Option<int>, minAttr: Option<int>, maxAttr: Option<int>): (r: Option<int>)
    ensures Current(raw) < MinOf(minAttr) ==> r == Some(MinOf(minAttr))
    ensures MinOf(minAttr) <= Current(raw) && Current(raw) > MaxOf(maxAttr) ==> r == Some(MaxOf(maxAttr))
    ensures MinOf(minAttr) <= Current(raw) <= MaxOf(maxAttr) ==> r == raw
  {
    var value := Current(raw);
    var lo, hi := MinOf(minAttr), MaxOf(maxAttr);
    if value < lo then Some(lo) else if value > hi then Some(hi) else raw
  }

  /** "+" never lowers the value the next handler reads, and never carries a
      value at or below the maximum past it. */
  lemma IncreaseStaysAtOrBelowMax(raw: Option<int>, maxAttr: Option<int>)
    ensures Current(Increased(raw, maxAttr)) >= Current(raw)
    ensures Current(raw) <= MaxOf(maxAttr) ==> Current(Increased(raw, maxAttr)) <= MaxOf(maxAttr)
  {
  }

  /** "-" never raises the value the next handler reads, and never carries a
      value at or above the minimum past it. */
  lemma DecreaseStaysAtOrAboveMin(raw: Option<int>, minAttr: Option<int>)
    ensures Current(Decreased(raw, minAttr)) <= Current(raw)
    ensures Current(raw) >= MinOf(minAttr) ==> Current(Decreased(raw, minAttr)) >= MinOf(minAttr)
  {
  }

  /** "-" undoes "+" inside the range (0 is read back as 1, hence the -1 case). */
  lemma DecreaseUndoesIncrease(raw: Option<int>, minAttr: Option<int>, maxAttr: Option<int>)
    requires MinOf(minAttr) <= Current(raw) < MaxOf(maxAttr) && Current(raw) != -1
    ensures Current(Decreased(Increased(raw, maxAttr), minAttr)) == Current(raw)
  {
  }

  /** "+" undoes "-" inside the range (0 is read back as 1, hence the 1 case). */
  lemma IncreaseUndoesDecrease(raw: Option<int>, minAttr: Option<int>, maxAttr: Option<int>)
    requires MinOf(minAttr) < Current(raw) <= MaxOf(maxAttr) && Current(raw) != 1
    ensures Current(Increased(Decreased(raw, minAttr), maxAttr)) == Current(raw)
  {
  }

  /** After a change event the value the next handler reads lies in
      [min, max] whenever that range is not empty, and a second change event
      does nothing. */
  lemma ChangeClampsIntoRange(raw: Option<int>, minAttr: Option<int>, maxAttr: Option<int>)
    requires MinOf(minAttr) <= MaxOf(maxAttr)
    ensures MinOf(minAttr) <= Current(Changed(raw, minAttr, maxAttr)) <= MaxOf(maxAttr)
    ensures Changed(Changed(raw, minAttr, maxAttr), minAttr, maxAttr) == Changed(raw, minAttr, maxAttr)
  {
  }

  /** The quantity input element and its three handlers. */
  class QuantityInput {
    /** What parseInt reads from the element's current text. */
    var value: Option<int>
    const minAttr: Option<int>
    const maxAttr: Option<int>

    constructor (value: Option<int>, minAttr: Option<int>, maxAttr: Option<int>)
      ensures this.value == value && this.minAttr == minAttr && this.maxAttr == maxAttr
    {
      this.value, this.minAttr, this.maxAttr := value, minAttr, maxAttr;
    }

    /** Click on the increase button. */
    method OnIncrease()
      modifies this
      ensures value == Increased(old(value), maxAttr)
    {
      var currentValue := Current(value);
      var maxValue := MaxOf(maxAttr);
      if currentValue < maxValue {
        value := Some(currentValue + 1);
      }
    }

    /** Click on the decrease button. */
    method OnDecrease()
      modifies this
      ensures value == Decreased(old(value), minAttr)
    {
      var currentValue := Current(value);
      var minValue := MinOf(minAttr);
      if currentValue > minValue {
        value := Some(currentValue - 1);
      }
    }

    /** The input's change event. */
    method OnChange()
      modifies this
      ensures value == Changed(old(value), minAttr, maxAttr)
    {
      var v := Current(value);
      var minValue := MinOf(minAttr);
      var maxValue := MaxOf(maxAttr);
      if v < minValue {
        value := Some(minValue);
      } else if v > maxValue {
        value := Some(maxValue);
      }
    }
  }
}
