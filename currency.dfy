/** The price-type constants the converter compares against. */
module Currency {

  /** The USD price type: always converts to USD with multiplier 1. */
  const PriceUsdType: string := "USD"

  /** The ZUSD price type, treated as an alias of USD. */
  const PriceZusdType: string := "ZUSD"
}
