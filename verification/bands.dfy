/** Position of a price relative to its Bollinger bands (get_bb_position). */
module Bands {
  import opened Stats

  datatype Zone = AboveUpper | BelowLower | UpperZone | LowerZone | MiddleZone | Unknown

  /** Outside the bands the side decides; inside, the relative position
      (price - lower) / (upper - lower) against 0.7 and 0.3. A zero-width
      band at the price divides by zero and gives Unknown. */
  function BandPosition(price: real, upper: real, lower: real): (z: Zone)
    ensures z == AboveUpper <==> price > upper
    ensures z == BelowLower <==> price <= upper && price < lower
    ensures z == Unknown <==> lower == price == upper
    ensures z == UpperZone <==> lower <= price <= upper && lower < upper && price - lower > 0.7 * (upper - lower)
    ensures z == LowerZone <==> lower <= price <= upper && lower < upper && price - lower < 0.3 * (upper - lower)
    ensures z == MiddleZone <==> lower <= price <= upper && lower < upper
                                  && 0.3 * (upper - lower) <= price - lower <= 0.7 * (upper - lower)
  {
    if price > upper then AboveUpper
    else if price < lower then BelowLower
    else
      var width := upper - lower;
      if width == 0.0 then Unknown
      else
        var position := (price - lower) / width;
        QuotientCompare(price - lower, width, 0.7);
        QuotientCompare(price - lower, width, 0.3);
        if position > 0.7 then UpperZone
        else if position < 0.3 then LowerZone
        else MiddleZone
  }

  /** Zones ordered from the bottom of the band to the top. */
  function Rank(z: Zone): int
  {
    match z
    case BelowLower => 0
    case LowerZone => 1
    case MiddleZone => 2
    case UpperZone => 3
    case AboveUpper => 4
    case Unknown => -1
  }

  /** A higher price never lands in a lower zone of the same bands. */
  lemma BandPositionMonotone(p: real, q: real, upper: real, lower: real)
    requires lower < upper && p <= q
    ensures Rank(BandPosition(p, upper, lower)) <= Rank(BandPosition(q, upper, lower))
  {
  }
}
