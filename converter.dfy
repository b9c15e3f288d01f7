/**
 * The rate table of the price converter: a cache from currency symbol to the
 * multiplier that converts an amount in that currency into USD, a registry of
 * caller-registered ("custom") fiats, and the refresh step that fills the cache
 * from the rates fetched from the primary and secondary providers.
 *
 * Network fetches are inputs: the primary provider's answer is an
 * `Option<map<string, real>>` (None when the request, the body or the JSON
 * failed), and the secondary provider is a function from symbol to
 * `Option<real>` (None when that one request failed).
 */
module Converter {
  import opened Wrappers
  import opened Ascii
  import opened Currency

  /** The built-in fiats the refresh step keeps up to date. */
  const DefaultSupportedFiats: seq<string> :=
    ["KRW", "JPY", "TRY",
     "EUR", "GBP", "RUB",
     "CNY", "CHF", "AUD", "CAD", "BRL", "UAH", "IRR"]

  /** Built-in fiats also asked of the secondary provider. */
  const AdditionalFiats: seq<string> := ["UAH", "IRR"]

  /** The two errors of GetConvertModToUSD, each carrying the upper-cased symbol. */
  datatype ConvertError =
    | NotFiatSymbol(symbol: string)     // "unexpected not fiat symbol"
    | NotFoundInCache(symbol: string)   // "convert mod from ... not found in cache"

  /** A provider rate (USD -> symbol) turned into a multiplier (symbol -> USD); zero stays zero. */
  function Invert(rate: real): (mod: real)
    ensures rate == 0.0 ==> mod == 0.0
    ensures rate != 0.0 ==> mod != 0.0 && mod * rate == 1.0
  {
    if rate != 0.0 then 1.0 / rate else 0.0
  }

  /**
   * Finds `element` in `data`: -1 when it is absent, otherwise the first index
   * holding it.
   */
  method IndexOfString(element: string, data: seq<string>) returns (index: int)
    ensures index == -1 <==> element !in data
    ensures index != -1 ==> 0 <= index < |data| && data[index] == element && element !in data[..index]
  {
    var k := 0;
    while k < |data|
      invariant 0 <= k <= |data|
      invariant element !in data[..k]
    {
      if element == data[k] {
        return k;
      }
      k := k + 1;
    }
    return -1;
  }

  /** `symbol` is USD, ZUSD or a built-in fiat, ignoring case. */
  predicate IsFiat(symbol: string) {
    var s := ToUpper(symbol);
    s == PriceUsdType || s == PriceZusdType || s in DefaultSupportedFiats
  }

  /** `symbol` has been registered as a custom fiat, ignoring case. */
  predicate IsCustomFiat(registry: map<string, bool>, symbol: string) {
    ToUpper(symbol) in registry
  }

  /** What a lookup of `symbol` answers, given the cache and the registry. */
  function ConvertModToUsd(cache: map<string, real>, registry: map<string, bool>, symbol: string): Result<real, ConvertError> {
    var s := ToUpper(symbol);
    if s == PriceUsdType || s == PriceZusdType then Ok(1.0)
    else if !IsFiat(s) && !IsCustomFiat(registry, s) then Err(NotFiatSymbol(s))
    else if s !in cache then Err(NotFoundInCache(s))
    else Ok(cache[s])
  }

  /**
   * The cache after the refresh loop has visited `symbols` in order with the
   * fetched `rates`: each visited symbol present in `rates` gets the inverted
   * rate; everything else is kept as it was (RefreshedEntries).
   */
  function Refreshed(cache: map<string, real>, rates: map<string, real>, symbols: seq<string>): map<string, real> {
    if symbols == [] then cache
    else
      var prev := Refreshed(cache, rates, symbols[..|symbols| - 1]);
      var k := symbols[|symbols| - 1];
      if k in rates then prev[k := Invert(rates[k])] else prev
  }

  /** What the refresh loop leaves in the cache, key by key. */
  lemma {:induction false} RefreshedEntries(cache: map<string, real>, rates: map<string, real>, symbols: seq<string>)
    ensures var r := Refreshed(cache, rates, symbols);
            && (forall k :: k in symbols && k in rates ==> k in r && r[k] == Invert(rates[k]))
            && (forall k :: k !in symbols || k !in rates ==> (k in r <==> k in cache))
            && (forall k :: (k !in symbols || k !in rates) && k in cache ==> r[k] == cache[k])
  {
    if symbols != [] {
      var init := symbols[..|symbols| - 1];
      RefreshedEntries(cache, rates, init);
      assert symbols == init + [symbols[|symbols| - 1]];
    }
  }

  /**
   * The primary rates after the merge loop has visited `symbols` in order:
   * a symbol whose secondary fetch succeeded is added only when the map does
   * not hold it yet (MergedEntries).
   */
  function Merged(rates: map<string, real>, secondary: string -> Option<real>, symbols: seq<string>): map<string, real> {
    if symbols == [] then rates
    else
      var prev := Merged(rates, secondary, symbols[..|symbols| - 1]);
      var k := symbols[|symbols| - 1];
      if secondary(k).Some? && k !in prev then prev[k := secondary(k).value] else prev
  }

  /** What the merge loop leaves in the rates, key by key: primary entries win, and only visited symbols are added. */
  lemma {:induction false} MergedEntries(rates: map<string, real>, secondary: string -> Option<real>, symbols: seq<string>)
    ensures var r := Merged(rates, secondary, symbols);
            && (forall k :: k in rates ==> k in r && r[k] == rates[k])
            && (forall k :: k in r && k !in rates ==> k in symbols && secondary(k).Some? && r[k] == secondary(k).value)
            && (forall k :: k in symbols && secondary(k).Some? ==> k in r)
  {
    if symbols != [] {
      var init := symbols[..|symbols| - 1];
      MergedEntries(rates, secondary, init);
      assert symbols == init + [symbols[|symbols| - 1]];
    }
  }

  /** One more iteration of the refresh loop stores the inverted rate of the next symbol, if the rates hold it. */
  lemma RefreshedStep(cache: map<string, real>, rates: map<string, real>, symbols: seq<string>, i: nat)
    requires i < |symbols|
    ensures var prev := Refreshed(cache, rates, symbols[..i]);
            Refreshed(cache, rates, symbols[..i + 1])
            == if symbols[i] in rates then prev[symbols[i] := Invert(rates[symbols[i]])] else prev
  {
    assert symbols[..i + 1][..i] == symbols[..i];
  }

  /** One more iteration of the merge loop adds the next symbol's secondary rate, if fetched and missing. */
  lemma MergedStep(rates: map<string, real>, secondary: string -> Option<real>, symbols: seq<string>, i: nat)
    requires i < |symbols|
    ensures var prev := Merged(rates, secondary, symbols[..i]);
            Merged(rates, secondary, symbols[..i + 1])
            == if secondary(symbols[i]).Some? && symbols[i] !in prev then prev[symbols[i] := secondary(symbols[i]).value] else prev
  {
    assert symbols[..i + 1][..i] == symbols[..i];
  }

  /** Every cached symbol is built-in or registered, and the registry only ever holds `true`. */
  predicate Consistent(cache: map<string, real>, registry: map<string, bool>) {
    && (forall k :: k in cache ==> k in DefaultSupportedFiats || k in registry)
    && (forall k :: k in registry ==> registry[k])
  }

  /** Registration keeps the table consistent. */
  lemma RegisterKeepsConsistent(cache: map<string, real>, registry: map<string, bool>, key: string, value: real)
    requires Consistent(cache, registry)
    ensures Consistent(cache[ToUpper(key) := value], registry[ToUpper(key) := true])
  {
  }

  /** A refresh over the built-in list keeps the table consistent. */
  lemma RefreshKeepsConsistent(cache: map<string, real>, registry: map<string, bool>, rates: map<string, real>)
    requires Consistent(cache, registry)
    ensures Consistent(Refreshed(cache, rates, DefaultSupportedFiats), registry)
  {
    RefreshedEntries(cache, rates, DefaultSupportedFiats);
  }

  class Converter {
    var cache: map<string, real>
    var additionalSupportedFiats: map<string, bool>

    ghost predicate Valid()
      reads this
    {
      Consistent(cache, additionalSupportedFiats)
    }

    /** Creates empty maps and runs one refresh with the given fetch results. */
    constructor (primary: Option<map<string, real>>, secondary: string -> Option<real>)
      ensures Valid()
      ensures additionalSupportedFiats == map[]
      ensures primary.None? ==> cache == map[]
      ensures primary.Some? ==> cache == Refreshed(map[], Merged(primary.value, secondary, AdditionalFiats), DefaultSupportedFiats)
    {
      cache := map[];
      additionalSupportedFiats := map[];
      new;
      UpdateConvertMods(primary, secondary);
    }

    /**
     * The multiplier of `symbol` to USD: 1 for USD and ZUSD, an error for a
     * symbol that is neither built-in nor custom, an error for a known symbol
     * not in the cache, the cached multiplier otherwise.
     */
    method GetConvertModToUSD(symbol: string) returns (r: Result<real, ConvertError>)
      ensures r == ConvertModToUsd(cache, additionalSupportedFiats, symbol)
    {
      var s := ToUpper(symbol);
      ToUpperIdempotent(symbol);
      if s == PriceUsdType || s == PriceZusdType {
        return Ok(1.0);
      }
      var fiat := Fiat(s);
      var custom := CustomFiat(s);
      if !fiat && !custom {
        return Err(NotFiatSymbol(s));
      }
      if s !in cache {
        return Err(NotFoundInCache(s));
      }
      return Ok(cache[s]);
    }

    /**
     * One refresh cycle: fetch and merge, then, unless the fetch failed, store
     * the inverted rate of every built-in symbol the merged rates hold.
     */
    method UpdateConvertMods(primary: Option<map<string, real>>, secondary: string -> Option<real>)
      requires Valid()
      modifies this
      ensures Valid()
      ensures additionalSupportedFiats == old(additionalSupportedFiats)
      ensures primary.None? ==> cache == old(cache)
      ensures primary.Some? ==> cache == Refreshed(old(cache), Merged(primary.value, secondary, AdditionalFiats), DefaultSupportedFiats)
    {
      var convertMods := GetRemoteConvertMods(primary, secondary);
      if convertMods.None? {
        return;
      }
      var rates := convertMods.value;
      var i := 0;
      while i < |DefaultSupportedFiats|
        invariant 0 <= i <= |DefaultSupportedFiats|
        invariant additionalSupportedFiats == old(additionalSupportedFiats)
        invariant cache == Refreshed(old(cache), rates, DefaultSupportedFiats[..i])
      {
        var convertSymbol := DefaultSupportedFiats[i];
        RefreshedStep(old(cache), rates, DefaultSupportedFiats, i);
        if convertSymbol in rates {
          var mod := rates[convertSymbol];
          if mod != 0.0 {
            mod := 1.0 / mod;
          }
          cache := cache[convertSymbol := mod];
        }
        i := i + 1;
      }
      assert DefaultSupportedFiats[..i] == DefaultSupportedFiats;
      RefreshKeepsConsistent(old(cache), additionalSupportedFiats, rates);
    }

    /**
     * The fetched rates: None when the primary fetch failed; otherwise the
     * primary rates, with each additional fiat whose secondary fetch succeeded
     * added when the primary rates lack it.
     */
    method GetRemoteConvertMods(primary: Option<map<string, real>>, secondary: string -> Option<real>)
      returns (convertMods: Option<map<string, real>>)
      ensures primary.None? ==> convertMods.None?
      ensures primary.Some? ==> convertMods == Some(Merged(primary.value, secondary, AdditionalFiats))
    {
      if primary.None? {
        return None;
      }
      var rates := primary.value;
      var i := 0;
      while i < |AdditionalFiats|
        invariant 0 <= i <= |AdditionalFiats|
        invariant rates == Merged(primary.value, secondary, AdditionalFiats[..i])
      {
        var mod := AdditionalFiats[i];
        MergedStep(primary.value, secondary, AdditionalFiats, i);
        var rate := secondary(mod);
        if rate.Some? && mod !in rates {
          rates := rates[mod := rate.value];
        }
        i := i + 1;
      }
      assert AdditionalFiats[..i] == AdditionalFiats;
      return Some(rates);
    }

    /** Registers `key` (upper-cased) as a custom fiat whose multiplier is `value`, stored as given. */
    method AppendCustomFiat(key: string, value: real)
      requires Valid()
      modifies this
      ensures Valid()
      ensures additionalSupportedFiats == old(additionalSupportedFiats)[ToUpper(key) := true]
      ensures cache == old(cache)[ToUpper(key) := value]
    {
      var k := ToUpper(key);
      additionalSupportedFiats := additionalSupportedFiats[k := true];
      cache := cache[k := value];
      RegisterKeepsConsistent(old(cache), old(additionalSupportedFiats), key, value);
    }

    /** True for USD, ZUSD and the built-in fiats, ignoring case. */
    method Fiat(symbol: string) returns (b: bool)
      ensures b <==> IsFiat(symbol)
    {
      var s := ToUpper(symbol);
      if s == PriceUsdType || s == PriceZusdType {
        return true;
      }
      var index := IndexOfString(s, DefaultSupportedFiats);
      return index != -1;
    }

    /** True for a symbol registered with AppendCustomFiat, ignoring case. */
    method CustomFiat(symbol: string) returns (b: bool)
      ensures b <==> IsCustomFiat(additionalSupportedFiats, symbol)
    {
      var s := ToUpper(symbol);
      b := s in additionalSupportedFiats;
    }
  }
}
