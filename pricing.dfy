/** The two-valued price table used when a machine is created. */
module Pricing {

  /** 1.75 in cents. */
  const WasherCost: int := 175
  /** 1.30 in cents. */
  const DryerCost: int := 130

  /** The per-use cost of a machine of the given type. The comparison in the
      handler is against `("washer" or "Washer")`, which evaluates to the
      single string "washer": only that exact string is washer-priced, and
      every other type string, whatever its case, is dryer-priced. */
  function CostFor(laundryType: string): (cost: int)
    ensures cost == WasherCost <==> laundryType == "washer"
    ensures cost == DryerCost <==> laundryType != "washer"
    ensures cost > 0
  {
    if laundryType == "washer" then WasherCost else DryerCost
  }

  /** Case variants of "washer" get the dryer price. */
  lemma CapitalisedWasherIsDryerPriced()
    ensures CostFor("Washer") == DryerCost
    ensures CostFor("WASHER") == DryerCost
  {
  }
}
