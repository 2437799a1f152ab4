# FreshForex specification scraper: the fetch-and-normalise pipeline

`index.js` is a scheduled script. It collects the trading specification
(spread, swap long, swap short) of every instrument for three account tiers
(Classic, Market Pro, ECN) from the broker's API and posts the flattened
records to an n8n webhook. This project models the deterministic part of
that script:

- **Form encoding** (module `Form`). `toForm` percent-encodes each key and
  value, writes each entry as `k=v` and joins the entries with `&`. The
  per-tier merge `{ ...BASE_FORM, type_account }` adds the tier code after
  the four fixed trading parameters.
- **Response gate** (module `Gate`). A `{ status, text }` pair is rejected
  when the status is not 200. It is rejected as an HTML challenge page when
  the trimmed text starts with `<`. Otherwise its untrimmed text goes on to
  `JSON.parse`. The status check comes first.
- **Parsed values** (module `Json`). A sum type for the value `JSON.parse`
  returns; property access to the three field names the normaliser reads,
  where `undefined` is `None`; and `Object.entries`
  for every kind of value. An object gives its members, an array gives
  index-named items, a string gives its characters, a number or boolean gives
  nothing, and `null` throws.
- **Record normaliser** (module `Records`). An entry is kept when its value
  is a non-null object and none of `spread`, `swap_long`, `swap_short` is
  `undefined`. A kept entry becomes one record with key
  `<account_type>||<symbol>`, the run's timestamp, the three fields copied
  unchanged, and a source string that names the tier code.
- **Tier loop** (module `Tiers`, as a fold over any list of tiers, and
  module `Run`, as the imperative loops of `main`). Each tier's form body is
  posted. The first error ends the whole run, because it is thrown out of the
  loop to `main().catch`. Otherwise the tier's records are appended. After
  the three tiers the payload `{ token, fetched_at, records }` is built.

The calls the script makes into code the model cannot see are the four
function-typed fields of `Run.Env`:
- the in-page POST of a form body (`fetch`; `None` where the request or
  reading its text rejects);
- `String.prototype.trim`;
- `JSON.parse` (`None` where it throws). It returns a `Json.ParsedJson`, a
  value whose objects have distinct keys at every depth, as a JavaScript
  object always does;
- `encodeURIComponent`.

The only property assumed of `encodeURIComponent` is that its output
contains neither `&` nor `=` (`Form.EscapesSeparators`). The timestamp and
the webhook token are parameters of a run.

The imperative methods (`Run.AppendTier`, `Run.CollectTiers`, `Run.Run`) are
proved equal to the specification functions (`Records.TierRecords`,
`Tiers.Collect`, `Run.RunSpec`). The properties are lemmas about those
functions.

How a failed tier ends a run: an error from the in-page fetch, the gate or
`JSON.parse` is thrown at index.js:82, and the `TypeError` of
`Object.entries(null)` at index.js:84, both inside the tier loop. Nothing in the loop catches it, so it reaches `main().catch`
(index.js:126-129), which ends the process. Later tiers are therefore not
requested and no payload is built. `Run.RunAbortsOnFailedTier` and
`Run.RunAbortsOnRejectedTier` state this.

## Model

| member | source | states |
|---|---|---|
| `Gate.StartsWithLt` | index.js:51 | Contract: none. `Gate.Classify` states how the test decides the verdict |
| `Gate.Classify` | index.js:47-55 | Rejected with `BadStatus(status)` exactly when the status is not 200, whatever the body; rejected as `HtmlPage` exactly when the status is 200 and the trimmed text starts with `<`; accepted exactly when both checks pass, and the accepted text is the raw, untrimmed body |
| `Run.FetchApi` | index.js:32-56 | Contract: none. Its promises are carried by `Run.FetchApiGate` |
| `Run.FetchApiGate` | index.js:47-55 | `fetchApiFromBrowser` reports a rejected in-page fetch exactly when the fetch rejects; it raises a gate error exactly when a response came back and the gate rejects it, with the gate's reason; it returns a value exactly when a response came back with status 200, its trimmed text does not start with `<` and the text parses, and that value is the parse of the raw text |
| `Run.TierEntries` | index.js:82-84 | Contract: none. It is the specification of `Run.FetchTier`, whose ensures state that the method returns exactly `TierEntries` of its tier |
| `Run.FetchTier` | index.js:82-84 | A tier's entries are produced exactly when the fetch yields a non-null value, and they are `Object.entries` of that value; otherwise the error is the failed in-page fetch's, the gate's or the parser's, or the `TypeError` of `Object.entries(null)`; the result is exactly `Run.TierEntries` of the tier |
| `Json.Entries` | index.js:84 | `Object.entries` throws exactly on `null` and gives an object's members unchanged |
| `Json.EntriesDistinct` | index.js:84 | For every kind of parsed value the entries have distinct names, including the index names of arrays and strings |
| `Json.DecimalString` | index.js:84 | An index's name is never empty and has one digit exactly when the index is below 10; `Json.DecimalStringInjective` proves distinct indices get distinct names |
| `Json.IsNonNullObject` | index.js:85 | Contract: none. `Records.Usable` and `Records.FalsyFieldsKept` state which values pass the test |
| `Json.DecimalStringInjective` | index.js:84 | Distinct array indices get distinct property names |
| `Json.Lookup` | index.js:86 | A found property is a member with that name and value; nothing is found exactly when no member has that name |
| `Json.Field` | index.js:86 | For the three field names the normaliser reads: only an object has them, and a member of an object with that name is always found |
| `Form.WithEntry` | index.js:81 | Object spread with one more property: a new key goes last, an existing key keeps its place and takes the new value, and every other entry is unchanged |
| `Form.TierForm` | index.js:81 | A tier's form object is `BASE_FORM`'s four pairs in order followed by `type_account` |
| `Run.FormBody` | index.js:81 | Contract: none. `Run.FormBodyIsTierForm` and `Run.EveryTierRequested` state what is posted |
| `Run.FormBodyIsTierForm` | index.js:81 | The body posted for a tier is `toForm` of `BASE_FORM` followed by `type_account=<code>` |
| `Form.ToForm` | index.js:26-30 | Contract: none. Its promises are carried by `Form.ToFormAmpersands` and `Form.ToFormRoundTrip` |
| `Form.Join` | index.js:29 | Contract: none. `Form.SplitJoin` proves that splitting on the separator undoes it for pieces free of the separator, which `Form.ToFormRoundTrip` uses |
| `Form.ToFormAmpersands` | index.js:26-30 | For a non-empty object, `toForm`'s output holds exactly one `&` fewer than the object has entries |
| `Form.ToFormRoundTrip` | index.js:26-30 | Splitting `toForm`'s output on `&` and then on `=` gives back, in entry order, exactly the encoded key and encoded value of each entry |
| `Records.RecordKey` | index.js:89 | Contract: none. `Records.KeyInjective` and `Records.KeySuffix` state what the key determines |
| `Records.SourceOf` | index.js:96 | Contract: none. `Records.TierRecordsShape` and `Tiers.CollectProvenance` state that every record carries its tier's source |
| `Records.Usable` | index.js:85-86 | An entry value is usable exactly when it is an object in which `spread`, `swap_long` and `swap_short` are all present, so only objects pass and an array, which passes the type test, drops for lacking the fields |
| `Records.TierRecords` | index.js:84-98 | A tier adds at most as many records as it has entries; the filter-map property is `Records.TierRecordsAreUsableEntries` |
| `Records.MakeRecord` | index.js:88-97 | A pushed record carries the tier's key, label and source, the run's timestamp and the entry's symbol, and its three fields are the entry's own members, copied as they are |
| `Records.TierRecordsShape` | index.js:88-97 | Every record of a tier has key `<label>\|\|<symbol>`, the tier's label and source, and the run's timestamp |
| `Records.TierRecordsAreUsableEntries` | index.js:84-98 | The normaliser is a filter-map: the number of records equals the number of usable entries, and the k-th record is built from the k-th usable entry, so records follow entry order |
| `Records.EntryKeptIff` | index.js:85-86 | In a response with distinct symbols, an entry yields a record if and only if it is a non-null object with all three fields defined, and the record is the one built from it |
| `Records.FalsyFieldsKept` | index.js:85-86 | Fields equal to `0`, `""`, `false` or `null` keep an entry; a missing field drops it, and so does an array or a null, number, string or boolean value |
| `Records.KeyInjective` | index.js:89 | When neither label contains `\|`, equal keys mean equal labels and equal symbols |
| `Records.TierKeysUnique` | index.js:84-98 | A tier whose response has distinct symbols emits no key twice |
| `Records.AccountsSeparable` | index.js:20-24 | The three tier labels are pairwise distinct and contain no `\|` |
| `Records.ClassicScenario` | index.js:84-98 | Classic answering EURUSD with all three fields and XAUUSD with only a spread gives exactly one record: key `Classic\|\|EURUSD`, the run's timestamp, and EURUSD's three figures |
| `Tiers.Collect` | index.js:80-99 | The tier loop as a fold: only the bodies of a prefix of the tiers are sent, in tier order, and a successful loop sent every tier's body |
| `Tiers.CollectSucceedsIff` | index.js:80-82 | The tier loop completes if and only if every tier's fetch succeeds |
| `Tiers.CollectValue` | index.js:80-98 | When every tier succeeds, the records are each tier's records concatenated in tier order |
| `Tiers.CollectStopsAtFirstFailure` | index.js:80-82 | With the first k tiers succeeding and tier k failing, the loop ends with tier k's error after sending exactly the first k+1 bodies |
| `Tiers.AppendOnly` | index.js:88 | One more tier leaves the records so far in place as a prefix, appends that tier's records and adds at most as many records as the tier has entries |
| `Tiers.CollectProvenance` | index.js:88-97 | Every collected record was built by one of the tiers, with that tier's label, key, source and the run's timestamp |
| `Tiers.CollectTimestamps` | index.js:90 | Every collected record carries the one timestamp of the run |
| `Tiers.CollectKeysUnique` | index.js:84-98 | With `\|`-free, pairwise distinct labels and responses with distinct symbols, no two collected records share a key |
| `Run.AppendTier` | index.js:84-98 | The inner loop, with its `continue` skips and `push`, appends exactly the tier's records to what was accumulated |
| `Run.CollectTiers` | index.js:80-99 | The outer loop, which posts each tier's merged form and stops at the first thrown error, computes exactly the fold `Tiers.Collect` |
| `Run.RunSpec` | index.js:104-108 | Contract: none. It is the specification of `Run.Run`; its promises are carried by `Run.RunRequestsEveryTier`, `Run.RunAbortsOnFailedTier`, `Run.RunSharedTimestamp` and `Run.RunKeysUnique` |
| `Run.Run` | index.js:58-108 | `main` from the timestamp to the payload computes exactly `Run.RunSpec`: the bodies sent, then the payload or the error that ended the run |
| `Run.TierErrorAborts` | index.js:80-84 | For any tier list, the first tier whose fetch, gate, parse or `Object.entries` throws ends the loop with that error; its body and the earlier ones were sent and no later one |
| `Run.GateRejectionAborts` | index.js:80-82 | A tier the gate rejects, after earlier tiers succeeded, ends the loop with the gate's reason; its body and the earlier ones were sent and no later one |
| `Run.RunAbortsOnFailedTier` | index.js:126-129 | Any error thrown for tier k, after the earlier tiers succeeded, aborts the whole run with that error: exactly the first k+1 forms were posted and no payload exists |
| `Run.RunAbortsOnRejectedTier` | index.js:126-129 | A gate rejection at tier k aborts the whole run with the gate's reason instead of skipping the tier: exactly the first k+1 forms were posted and no payload exists |
| `Run.EveryTierRequested` | index.js:80-82 | For any tier list, the loop completes if and only if every tier does; it then sent each tier's merged form once, in order, and holds the tiers' records in tier order |
| `Run.RunRequestsEveryTier` | index.js:104-108 | A run builds a payload if and only if all three tiers succeed; it then posted the three forms in order, and the payload holds the token and exactly the accumulated records in tier order |
| `Run.RunSharedTimestamp` | index.js:59 | The payload and every record in it carry the one timestamp taken before any fetch |
| `Run.RunKeysUnique` | index.js:20-24 | No two records of a run share a key |

## Left out

- Browser launch, context options, navigation to the specification page, the 6-second settle wait and the in-page `fetch` with its headers (index.js:32-45, 62-78). The response to a posted body is the `fetch` parameter of `Run.Env`, one fixed function, so it does not model a server that answers the same body differently.
- `browser.close` (index.js:101). It is a foreign engine call and does not affect the payload.
- The webhook POST, its `resp.ok` check and the error it throws (index.js:114-121). This is network I/O after the payload is built; a webhook failure is a terminal error outside the model.
- The environment variable reads and their top-level throws (index.js:6-10). They are configuration checked before `main`; the token is a parameter of a run, and the webhook URL is only used by the left-out log line (index.js:111) and POST.
- `JSON.parse`, `String.prototype.trim` and `encodeURIComponent` are parameters, not implementations. The `URIError` that `encodeURIComponent` throws on a lone surrogate is not modelled.
- `new Date().toISOString()` is the `fetchedAt` parameter.
- Spread and swap values are opaque: numbers are kept as their text and copied through, with no floating-point reading.
- Console logging, `process.exit`, and the `slice` truncation of error messages (index.js:48, 52, 111-112, 123, 127-128). Errors are modelled by their kind (`Tiers.RunError`), not by their message text.
- The order `Object.entries` gives to integer-like property names is taken to be the order of the parsed object's members. An engine lists such names first, in numeric order; the model holds whatever order the parsed value has.
- JSON text with a repeated key in one object: `JSON.parse` keeps the last value for it. The model's `parse` returns the resulting value directly, a `Json.ParsedJson` with distinct keys at every depth; the text-level rule is part of the `JSON.parse` left out above.
- Strings are sequences of Unicode scalar values, not UTF-16 code units, so `Object.entries` of a string with a character outside the Basic Multilingual Plane gives one entry here where an engine gives two. No record depends on it, because string values are skipped at index.js:85.
