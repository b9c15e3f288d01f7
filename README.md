# Currency converter rate table, in Dafny

This project models the price converter of the `currency` package. The
converter keeps a table (`cache`) from currency symbol to a multiplier that turns
an amount in that currency into USD. It also keeps a registry
(`additionalSupportedFiats`) of symbols that callers registered with their own
fixed multiplier. It has one fixed list of built-in fiats (`DefaultSupportedFiats`)
that each refresh cycle updates, and a shorter list (`AdditionalFiats`, UAH and
IRR) that is also asked of a secondary provider.

Files:

- `wrappers.dfy`: `Option` and `Result`.
- `ascii.dfy`: `ToUpper`, the model of `strings.ToUpper`, and its idempotence.
- `currency.dfy`: the `USD` and `ZUSD` price-type constants of `currency.go`.
- `converter.dfy`: the symbol lists and the error kinds. It has the
  specification functions `IsFiat`, `IsCustomFiat`, `ConvertModToUsd`,
  `Invert`, `Refreshed` and `Merged`, the table invariant `Consistent`, and the
  class `Converter`. The class holds the two maps as fields. `UpdateConvertMods`
  and `AppendCustomFiat` change them in place. `GetConvertModToUSD`, `Fiat`,
  `CustomFiat` and `GetRemoteConvertMods` only read them.
- `properties.dfy`: lemmas that relate lookups, refreshes and registrations.

The network is an input. The primary provider's answer is an
`Option<map<string, real>>`, where `None` means the request, the body read or the
JSON decoding failed. The secondary provider is a function from symbol to
`Option<real>`, where `None` means that one request or its parse failed.
`UpdateConvertMods` calls `GetRemoteConvertMods` with these inputs, as the
source does, and then runs its loop over the built-in list.

`Refreshed` and `Merged` follow the two loops one symbol at a time. The lemmas
`RefreshedEntries` and `MergedEntries` say, key by key, what the resulting map
holds. The methods'
loop invariants tie the map built so far to these functions on the prefix
already visited. `GetConvertModToUSD`, `Fiat` and `CustomFiat` have no `modifies`
clause, so Dafny checks that a lookup changes neither map.

The class invariant `Valid()` (`Consistent`) says two things. Every cached symbol
is built-in or registered. Every registry entry is `true`. The constructor
establishes it and every mutating method keeps it. As a result, a lookup of a
symbol that is in the cache never fails (`ConsistentLookupSucceeds`).

## Model

| member | source | states |
|---|---|---|
| Ascii.UpperChar | converter.go:59 | a lower-case ASCII letter becomes its upper-case form; any other character is unchanged |
| Ascii.ToUpper | converter.go:59 | upper-casing keeps the length, maps each character with `UpperChar`, and leaves no lower-case letter |
| Ascii.ToUpperOfUpper | converter.go:158 | a string with no lower-case letter is its own upper-case form |
| Ascii.ToUpperIdempotent | converter.go:158 | upper-casing twice is the same as once, so upper-casing again inside `Fiat`/`CustomFiat` changes nothing |
| Converter.Invert | converter.go:105-107 | a non-zero provider rate becomes its reciprocal (`mod * rate == 1`); a zero rate stays zero |
| Converter.IndexOfString | converter.go:174-182 | returns -1 exactly when the element is absent; otherwise returns an index that holds the element with no earlier occurrence |
| Converter.RefreshedEntries | converter.go:98-112 | after the loop over the symbols, a visited symbol that the rates hold has the inverted rate; every other key keeps its presence and value |
| Converter.MergedEntries | converter.go:134-145 | primary entries are kept unchanged; each added key is a visited symbol whose secondary fetch succeeded, with that rate; every such symbol is present |
| Converter.RefreshedStep | converter.go:98-111 | one more pass of the refresh loop stores the inverted rate of the next built-in symbol when the rates hold it, and changes nothing else |
| Converter.MergedStep | converter.go:134-143 | one more pass of the merge loop adds the next symbol's secondary rate only when its fetch succeeded and the map lacks it |
| Converter.Converter.constructor | converter.go:44-56 | starts with an empty registry and runs one refresh on an empty cache; a failed fetch leaves the cache empty |
| Converter.Converter.GetConvertModToUSD | converter.go:58-78 | the result is `ConvertModToUsd` of the current cache, registry and symbol; it modifies nothing |
| Converter.Converter.UpdateConvertMods | converter.go:91-113 | a failed primary fetch leaves the cache unchanged; otherwise the cache becomes `Refreshed` of the old cache with the merged rates over the built-in list; the registry is unchanged and the invariant is kept |
| Converter.Converter.GetRemoteConvertMods | converter.go:115-146 | None when the primary fetch failed; otherwise the primary rates merged with the secondary rates over the additional fiats |
| Converter.Converter.AppendCustomFiat | converter.go:148-155 | the upper-cased key is marked present in the registry and gets the given value in the cache, uninverted; all other entries are unchanged |
| Converter.Converter.Fiat | converter.go:157-165 | true exactly when the upper-cased symbol is USD, ZUSD or in the built-in list |
| Converter.Converter.CustomFiat | converter.go:167-172 | true exactly when the upper-cased symbol is in the registry |
| ConverterProperties.LookupUsdIsOne | converter.go:59-63 | USD and ZUSD (in any case) give `Ok(1)` whatever the cache and registry hold |
| ConverterProperties.LookupUnsupportedIff | converter.go:65-67 | a lookup fails with "not fiat symbol" exactly when the symbol is neither USD/ZUSD, built-in nor registered |
| ConverterProperties.LookupKnown | converter.go:69-77 | for a known symbol other than USD/ZUSD, a lookup returns the cache entry when present and "not found in cache" otherwise |
| ConverterProperties.LookupCaseInsensitive | converter.go:58-59 | a symbol and its upper-case form get the same lookup answer |
| ConverterProperties.ClassificationCaseInsensitive | converter.go:157-172 | `Fiat` and `CustomFiat` give the same answer for a symbol and its upper-case form |
| ConverterProperties.ConsistentLookupSucceeds | converter.go:65-77 | in a consistent table, a lookup of a cached symbol never fails |
| ConverterProperties.RegisterThenLookup | converter.go:148-155 | after registration, the key is a custom fiat and its lookup gives the registered value, uninverted; USD and ZUSD still give 1 |
| ConverterProperties.RegisterKeepsOtherLookups | converter.go:148-155 | registering one key does not change the lookup of any other symbol |
| Converter.RegisterKeepsConsistent | converter.go:148-155 | registration keeps every cached key built-in or registered |
| Converter.RefreshKeepsConsistent | converter.go:98-112 | a refresh keeps every cached key built-in or registered |
| ConverterProperties.RefreshedLookupBuiltin | converter.go:98-112 | after a refresh, a built-in symbol that the rates hold looks up to its inverted rate |
| ConverterProperties.UsdIsNotBuiltin | converter.go:24-28 | neither USD nor ZUSD is in the built-in list |
| ConverterProperties.RefreshKeepsCustomLookups | converter.go:98-112 | a refresh does not change the lookup of any symbol outside the built-in list, so custom fiats keep their value |
| ConverterProperties.AdditionalFiatsAreBuiltin | converter.go:24-31 | every additional fiat is in the built-in list, so what the merge adds is stored by the refresh |
| ConverterProperties.CycleUsesSecondaryOnlyForMissing | converter.go:91-146 | in a full cycle, a built-in symbol gets its inverted primary rate if the primary has it, else its inverted secondary rate if it is an additional fiat that the secondary answered, else it keeps its old entry or stays absent |
| ConverterProperties.RefreshExample | converter.go:105-110 | a provider rate of 0.9 for EUR is cached as 1/0.9, and a rate of 0 for JPY is cached as 0 |

## Left out

- HTTP requests, body reads, JSON decoding and float parsing (converter.go:116-132, converter.go:184-198). These are network I/O, so their outcomes are the inputs `primary` and `secondary`. The type `usdConvertMods` is not part of this model, and its `Rates` field is a plain map input. A response with no `rates` field is not modelled: Go would leave `Rates` a nil map, and the source would then panic at converter.go:141 when a secondary fetch succeeds, whereas the model returns a merged map.
- The hourly ticker goroutine `startFetchConvertMods` (converter.go:80-89), the `go` launch in `NewConverter`, the HTTP client's 10-second timeout, and the `RWMutex` locking. Each operation is modelled as one atomic, sequential step. Readers that see a mix of old and new entries during a cycle are not modelled.
- Logger calls on a fetch failure and on a missing symbol. They are diagnostics only.
- Converter.Invert: stores the exact reciprocal `1/rate`. It does not model the IEEE rounding of `math.Pow(mod, -1)` on `float64`. Multipliers are `real`.
- Ascii.ToUpper: upper-cases ASCII letters only. Go's `strings.ToUpper` also maps non-ASCII letters by Unicode case rules, which are not modelled.
- Converter.ConvertError: keeps the error kind and the symbol, not the formatted message text.
- The `PriceUSDTType` constant of currency.go and the `Converter` interface. The converter does not use the constant, and the interface has no logic.
