/** What lookups, refreshes and registrations promise about one another. */
module ConverterProperties {
  import opened Wrappers
  import opened Ascii
  import opened Currency
  import opened Converter

  /** USD and ZUSD convert with multiplier 1, whatever the cache and the registry hold. */
  lemma LookupUsdIsOne(cache: map<string, real>, registry: map<string, bool>, symbol: string)
    requires ToUpper(symbol) == PriceUsdType || ToUpper(symbol) == PriceZusdType
    ensures ConvertModToUsd(cache, registry, symbol) == Ok(1.0)
  {
  }

  /** A lookup fails as unsupported exactly when the symbol is neither USD/ZUSD, built-in nor custom. */
  lemma LookupUnsupportedIff(cache: map<string, real>, registry: map<string, bool>, symbol: string)
    ensures ConvertModToUsd(cache, registry, symbol) == Err(NotFiatSymbol(ToUpper(symbol)))
            <==> !IsFiat(symbol) && !IsCustomFiat(registry, symbol)
  {
    ToUpperIdempotent(symbol);
  }

  /** For a known symbol other than USD/ZUSD, a lookup reads the cache entry or reports it missing. */
  lemma LookupKnown(cache: map<string, real>, registry: map<string, bool>, symbol: string)
    requires IsFiat(symbol) || IsCustomFiat(registry, symbol)
    requires ToUpper(symbol) != PriceUsdType && ToUpper(symbol) != PriceZusdType
    ensures ToUpper(symbol) in cache ==> ConvertModToUsd(cache, registry, symbol) == Ok(cache[ToUpper(symbol)])
    ensures ToUpper(symbol) !in cache ==> ConvertModToUsd(cache, registry, symbol) == Err(NotFoundInCache(ToUpper(symbol)))
  {
    ToUpperIdempotent(symbol);
  }

  /** Lookups ignore case: a symbol and its upper-case form get the same answer. */
  lemma LookupCaseInsensitive(cache: map<string, real>, registry: map<string, bool>, symbol: string)
    ensures ConvertModToUsd(cache, registry, symbol) == ConvertModToUsd(cache, registry, ToUpper(symbol))
  {
    ToUpperIdempotent(symbol);
  }

  /** Fiat and CustomFiat ignore case. */
  lemma ClassificationCaseInsensitive(registry: map<string, bool>, symbol: string)
    ensures IsFiat(symbol) == IsFiat(ToUpper(symbol))
    ensures IsCustomFiat(registry, symbol) == IsCustomFiat(registry, ToUpper(symbol))
  {
    ToUpperIdempotent(symbol);
  }

  /** In a consistent table, a symbol is missing from the cache only when it is known and not yet fetched. */
  lemma ConsistentLookupSucceeds(cache: map<string, real>, registry: map<string, bool>, symbol: string)
    requires Consistent(cache, registry)
    requires ToUpper(symbol) in cache
    ensures ConvertModToUsd(cache, registry, symbol).Ok?
  {
    ToUpperIdempotent(symbol);
  }

  /** After registering `key` with `value`, it is custom and looks up to `value`, uninverted (USD/ZUSD still give 1). */
  lemma RegisterThenLookup(cache: map<string, real>, registry: map<string, bool>, key: string, value: real)
    ensures IsCustomFiat(registry[ToUpper(key) := true], key)
    ensures var s := ToUpper(key);
            ConvertModToUsd(cache[s := value], registry[s := true], key)
            == if s == PriceUsdType || s == PriceZusdType then Ok(1.0) else Ok(value)
  {
    ToUpperIdempotent(key);
  }

  /** Registering `key` changes no other symbol's lookup. */
  lemma RegisterKeepsOtherLookups(cache: map<string, real>, registry: map<string, bool>, key: string, value: real, symbol: string)
    requires ToUpper(symbol) != ToUpper(key)
    ensures var s := ToUpper(key);
            ConvertModToUsd(cache[s := value], registry[s := true], symbol) == ConvertModToUsd(cache, registry, symbol)
  {
    ToUpperIdempotent(symbol);
  }

  /** After a refresh, a built-in symbol the rates hold looks up to its inverted rate. */
  lemma RefreshedLookupBuiltin(cache: map<string, real>, registry: map<string, bool>, rates: map<string, real>, symbol: string)
    requires ToUpper(symbol) in DefaultSupportedFiats && ToUpper(symbol) in rates
    ensures ConvertModToUsd(Refreshed(cache, rates, DefaultSupportedFiats), registry, symbol) == Ok(Invert(rates[ToUpper(symbol)]))
  {
    var s := ToUpper(symbol);
    ToUpperIdempotent(symbol);
    RefreshedEntries(cache, rates, DefaultSupportedFiats);
    UsdIsNotBuiltin();
    assert s != PriceUsdType && s != PriceZusdType;
    assert IsFiat(s);
  }

  /** USD and ZUSD are not in the built-in list: they are answered before the cache is consulted. */
  lemma UsdIsNotBuiltin()
    ensures PriceUsdType !in DefaultSupportedFiats && PriceZusdType !in DefaultSupportedFiats
  {
  }

  /** A refresh never changes the lookup of a symbol outside the built-in list, custom ones included. */
  lemma RefreshKeepsCustomLookups(cache: map<string, real>, registry: map<string, bool>, rates: map<string, real>, symbol: string)
    requires ToUpper(symbol) !in DefaultSupportedFiats
    ensures ConvertModToUsd(Refreshed(cache, rates, DefaultSupportedFiats), registry, symbol) == ConvertModToUsd(cache, registry, symbol)
  {
    ToUpperIdempotent(symbol);
    RefreshedEntries(cache, rates, DefaultSupportedFiats);
  }

  /** The additional fiats are built-in, so whatever the merge adds is stored by the refresh. */
  lemma AdditionalFiatsAreBuiltin()
    ensures forall k :: k in AdditionalFiats ==> k in DefaultSupportedFiats
  {
  }

  /**
   * A full cycle with a successful primary fetch: an additional fiat the
   * primary rates lack but the secondary provider answered is cached with the
   * inverted secondary rate; a symbol the primary rates hold is cached with
   * its own inverted rate.
   */
  lemma CycleUsesSecondaryOnlyForMissing(cache: map<string, real>, primary: map<string, real>, secondary: string -> Option<real>, k: string)
    requires k in DefaultSupportedFiats
    ensures var c := Refreshed(cache, Merged(primary, secondary, AdditionalFiats), DefaultSupportedFiats);
            && (k in primary ==> k in c && c[k] == Invert(primary[k]))
            && (k !in primary && k in AdditionalFiats && secondary(k).Some? ==> k in c && c[k] == Invert(secondary(k).value))
            && (k !in primary && (k !in AdditionalFiats || secondary(k).None?) ==> (k in c <==> k in cache) && (k in cache ==> c[k] == cache[k]))
  {
    AdditionalFiatsAreBuiltin();
    var merged := Merged(primary, secondary, AdditionalFiats);
    MergedEntries(primary, secondary, AdditionalFiats);
    RefreshedEntries(cache, merged, DefaultSupportedFiats);
  }

  /** A provider rate of 0.9 for EUR is cached as 1/0.9, and a zero rate is cached as zero. */
  lemma RefreshExample(cache: map<string, real>)
    ensures var c := Refreshed(cache, map["EUR" := 0.9, "JPY" := 0.0], DefaultSupportedFiats);
            "EUR" in c && c["EUR"] == 10.0 / 9.0 && "JPY" in c && c["JPY"] == 0.0
  {
    RefreshedEntries(cache, map["EUR" := 0.9, "JPY" := 0.0], DefaultSupportedFiats);
    assert "EUR" == DefaultSupportedFiats[3];
    assert "JPY" == DefaultSupportedFiats[1];
  }
}
