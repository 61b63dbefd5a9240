# Firebase Hosting deploy core, modelled in Dafny

This project models three pieces of the Firebase CLI's hosting deploy logic and
proves properties of them.

- **Serving-config compiler** (`convertConfig.ts`). `extractPattern` picks the single
  glob or regex matcher of a rule. `convertConfig` turns the `hosting` section of
  `firebase.json` into the `ServingConfig` that the Hosting REST API accepts:
  - rewrites, redirects and header rules are compiled;
  - `cleanUrls`, `trailingSlash`, `appAssociation` and `i18n` are carried over;
  - the Cloud Run region default is written back into the caller's rewrite records.
- **Hash cache** (`hashcache.ts`). `load` reads the `path,mtime,hash` lines of
  `.firebase/hosting.<name>.cache` into a dictionary. `dump` writes them.
- **Hosting API helpers** (`api.ts`):
  - `normalizeName`;
  - `getChannel`, which turns a 404 into "no channel";
  - the paginated `listChannels`;
  - the authorised-domain edits `addAuthDomain` and `removeAuthDomain`;
  - the reconciliation `getCleanDomains` / `cleanAuthState`, which prunes auth domains of expired preview channels.

## Files

The Dafny modules:

- `wrappers.dfy` holds `Option`, `Result` and `MapResult`, which is `Array.map` with a callback that may throw.
- `assoc.dfy` models a dictionary filled by successive assignment, where the last pair wins.
- `js_text.dfy` models the JavaScript string and number built-ins the code relies on, with their ECMAScript behaviour:
  - `split` and `replace` with a string pattern;
  - `RegExp` containment with the `i` flag;
  - `parseInt`;
  - the decimal rendering of an integer.
- `hosting_api.dfy` holds the API entities as datatypes, and `normalizeName`, `getChannel`, `listChannels`, the auth-domain edits and the reconciliation.
- `convert_config.dfy` holds `extractPattern` and `convertConfig`.
- `hashcache.dfy` holds `cachePath`, `load` and `dump` over a file system given as a map from path to file state.

## How the model is organised

- Network and authentication calls become parameters.
  - A request is a total function from path (and page token) to a reply: a body, or an error with an optional HTTP status.
  - `getAuthDomains` becomes an input list.
  - What would be sent to `updateAuthDomains` becomes the output: an `AuthUpdate`, either `Unchanged` (nothing sent) or `Updated` (the list sent).
- Every imperative routine is a method proved against a pure specification function:
  - `listChannels` against `Collect`;
  - the `reduce` and `forEach` of `getCleanDomains` against `LiveDomains` and `CleanDomains`;
  - `load` against `LoadFile`;
  - `dump`'s loop against `DumpText`;
  - `convertConfig` against `Compile`.
- The properties of the source are proved about those functions.
- `convertConfig` changes its argument in place (`rewrite.run = …`). The caller's object is therefore the class `HostingConfig`, and `ConvertConfig` states both the value it returns and the object's new state.
- `listChannels` loops until the backend returns an empty token. Its termination is an assumption about the backend. The predicate `EndsWithin(fetch, path, token, fuel)` (a ghost bound) says the token chain ends within `fuel` requests. `CollectFuelIrrelevant` shows the result does not depend on the bound.

Two behaviours of the code are worth stating up front:

- **Stale preview domains under the default suffix are kept.** `getCleanDomains` tests `/firebaseapp.com$/` before the preview test (src/hosting/api.ts:551-555), so every domain ending in `firebaseapp.com` is kept, including a stale preview domain such as `app--stale.firebaseapp.com`. `CleanDomainsKeepsSuffixedPreview` proves this.
- **The hash cache does not round-trip.** `dump` overwrites the cache with an empty file, so the next `load` returns an empty cache; see Findings.

## Model

| member | source | states |
|---|---|---|
| Wrappers.MapResult | src/deploy/hosting/convertConfig.ts:78-94 | `rules.map(f)` where `f` may throw: success iff every element converts; the values correspond index for index; on failure, some element fails with that error and all before it succeed |
| Wrappers.MapResultFirstFailure | src/deploy/hosting/convertConfig.ts:78-94 | the error of a throwing `map` is that of the first failing element in order |
| Assoc.LastWins | src/deploy/hosting/convertConfig.ts:115-118 | the dictionary filled from a pair list has exactly the listed keys |
| Assoc.LastWinsValue | src/deploy/hosting/hashcache.ts:18-23 | the value stored for a key is that of the last pair carrying it |
| Assoc.DistinctKeysStored | src/deploy/hosting/hashcache.ts:18-23 | with distinct keys every pair is stored as given |
| JsText.Split | src/deploy/hosting/hashcache.ts:18-19 | `split` on one character gives at least one piece, no piece contains the separator, and joining the pieces gives the input back |
| JsText.SplitJoin | src/deploy/hosting/hashcache.ts:18-19 | splitting a join of separator-free pieces gives the pieces back |
| JsText.IndexOf | src/hosting/api.ts:499 | `indexOf`: the first position where the pattern occurs, or none |
| JsText.ReplaceFirst | src/hosting/api.ts:499 | `replace` with a string pattern replaces only the first occurrence, wherever it is, and leaves a string without the pattern unchanged |
| JsText.ReplaceFirstAtStart | src/hosting/api.ts:499 | an occurrence at the very start is cut off |
| JsText.Canonical | src/hosting/api.ts:542 | the case canonicalisation of the `i` flag keeps the length and upper-cases exactly the ASCII letters |
| JsText.Decimal | src/deploy/hosting/hashcache.ts:40 | the digits of a natural number, without leading zeros |
| JsText.ParseInt | src/deploy/hosting/hashcache.ts:21 | `parseInt`: leading white space skipped, an optional sign, then a `0x` hex or a decimal digit prefix, NaN without digits; `ParseIntOfNumberToString` proves it reads back a rendered number |
| JsText.NumberToString | src/deploy/hosting/hashcache.ts:40 | the template rendering of an integer mtime or NaN; `NumberToStringSeparatorFree` proves it holds no comma or line feed |
| JsText.NumberToStringSeparatorFree | src/deploy/hosting/hashcache.ts:40 | the rendering of an mtime never contains a comma or a line feed |
| JsText.ParseIntNonNegative | src/deploy/hosting/hashcache.ts:21 | `parseInt` reads back the rendering of a non-negative integer |
| JsText.ParseIntNegative | src/deploy/hosting/hashcache.ts:21 | `parseInt` reads back the rendering of a negative integer, sign included |
| JsText.ParseIntOfNumberToString | src/deploy/hosting/hashcache.ts:21 | `parseInt(String(x)) == x` for every integer and for NaN |
| HostingApi.ErrorMessage | src/hosting/api.ts:379-382 | the "could not find channels" message names the site in quotes |
| HostingApi.NormalizeName | src/hosting/api.ts:318-321 | every `/`, `:`, `_`, `#` becomes `-`, every other character stays, the length is kept and no separator remains |
| HostingApi.NormalizeNameIdempotent | src/hosting/api.ts:318-321 | normalising twice is normalising once |
| HostingApi.GetChannel | src/hosting/api.ts:336-352 | "no channel" exactly when the request fails with 404; a reply gives its body; every other failure is rethrown unchanged |
| HostingApi.ListError | src/hosting/api.ts:378-384 | a 404 becomes "could not find channels for site", any other error is rethrown |
| HostingApi.Collect | src/hosting/api.ts:364-387 | the page loop as a specification: the channels of every page in request order, or the translated error of the first failing page; `CollectIsConcatenatedTrace` and `TraceIsTokenChain` state the order |
| HostingApi.CollectFuelIrrelevant | src/hosting/api.ts:365-386 | the listing does not depend on the termination bound |
| HostingApi.Trace | src/hosting/api.ts:365-386 | the replies of a listing number at least one and at most the bound |
| HostingApi.TraceIsTokenChain | src/hosting/api.ts:366-374 | the first reply answers the starting token, each next request uses the previous page's token, and only the last reply ends the loop |
| HostingApi.CollectIsConcatenatedTrace | src/hosting/api.ts:359-388 | the listing is the concatenation of every page's channels in request order, or the translated error of the failing page |
| HostingApi.FirstPageNotFound | src/hosting/api.ts:378-382 | a 404 on the first page gives "could not find channels" |
| HostingApi.PrependChannelsTwice | src/hosting/api.ts:369-372 | pushing two pages one after the other is pushing their concatenation |
| HostingApi.ListChannels | src/hosting/api.ts:359-388 | the `for (;;)` page loop returns exactly `Collect`, the channels of all pages in order or the listing error |
| HostingApi.DomainOf | src/hosting/api.ts:499 | a channel URL with its first `https://` removed, as in `addAuthDomain`, `removeAuthDomain` and the channel map |
| HostingApi.AddAuthDomain | src/hosting/api.ts:497-506 | an update is sent iff the stripped domain is absent; the old list is a prefix of the result, which contains the domain and grows by exactly one when updated |
| HostingApi.AddAuthDomainIdempotent | src/hosting/api.ts:497-506 | adding the same URL again sends no update |
| HostingApi.Without | src/hosting/api.ts:519 | the `filter` removes every occurrence of the target, keeps the order, and keeps every other domain with its multiplicity |
| HostingApi.RemoveAuthDomain | src/hosting/api.ts:513-521 | an empty list is handed back with no update; a non-empty list is always sent, filtered of the stripped domain, with every other domain kept in order and multiplicity |
| HostingApi.WithoutAppended | src/hosting/api.ts:513-521 | filtering out a domain just appended restores the earlier list |
| HostingApi.RemoveAfterAdd | src/hosting/api.ts:497-521 | removing a URL right after adding it sends back the original list |
| HostingApi.EndsWithFirebaseApp | src/hosting/api.ts:544 | `/firebaseapp.com$/.test`: the last fifteen characters are `firebaseapp`, any character other than a line terminator, `com`; `FirebaseAppSuffix` proves every `firebaseapp.com` domain passes |
| HostingApi.IsPreviewDomainOf | src/hosting/api.ts:542 | `new RegExp(site + "--", "i").test`: the domain contains `<site>--` ignoring ASCII case; `NoDashNotPreview` proves a domain without a dash fails it |
| HostingApi.KeepDomain | src/hosting/api.ts:549-562 | the callback's decision: keep under the suffix, else drop a preview domain with no live channel, else keep; `KeepOrDrop` runs its three branches |
| HostingApi.LiveDomains | src/hosting/api.ts:534-540 | the keys of the channel map; `LiveDomainsMembers` proves they are exactly the stripped channel URLs |
| HostingApi.LiveDomainsMembers | src/hosting/api.ts:534-540 | the channel map holds exactly the stripped URLs of the listed channels |
| HostingApi.CleanDomains | src/hosting/api.ts:546-564 | the reconciled list as a specification: the auth domains that `KeepDomain` keeps, in order; `CleanDomainsSublist` and `CleanDomainsMembership` state it |
| HostingApi.CleanDomainsSublist | src/hosting/api.ts:546-564 | reconciliation returns an order-preserving sublist; a kept domain keeps all its occurrences and a dropped one none |
| HostingApi.CleanDomainsMembership | src/hosting/api.ts:549-562 | a domain matching `firebaseapp.com$` or a live channel's domain is always kept; a domain is dropped iff it lacks the suffix, contains `<site>--` ignoring case, and is not live |
| HostingApi.NoDashNotPreview | src/hosting/api.ts:542 | a domain without a dash never matches `<site>--` |
| HostingApi.FirebaseAppSuffix | src/hosting/api.ts:544 | every domain ending in `firebaseapp.com` passes the suffix test |
| HostingApi.CleanDomainsKeepsSuffixedPreview | src/hosting/api.ts:552-556 | a domain ending in `firebaseapp.com` is always kept, a stale preview domain such as `app--stale.firebaseapp.com` included |
| HostingApi.CleanDomainsDropsStalePreview | src/hosting/api.ts:557-561 | `APP--stale.web.app` is dropped (case-insensitive match, not live), `localhost` and the live domain stay |
| HostingApi.ChannelDomainSet | src/hosting/api.ts:534-540 | the `reduce` builds exactly `LiveDomains` |
| HostingApi.KeepOrDrop | src/hosting/api.ts:549-561 | the callback's three branches decide exactly `KeepDomain`: suffix kept, stale preview dropped, the rest kept |
| HostingApi.KeepCleanDomains | src/hosting/api.ts:549-562 | the `forEach` pushes exactly `CleanDomains`, in order |
| HostingApi.GetCleanDomains | src/hosting/api.ts:531-565 | a listing error is passed on; otherwise the result is `CleanDomains` of the authorised domains against the live channel domains |
| HostingApi.CleanAuthState | src/hosting/api.ts:574-577 | the reconciled list is what is sent to the update |
| ConvertConfig.PatternErrorMessage | src/deploy/hosting/convertConfig.ts:52-60 | both pattern errors name the rule type |
| ConvertConfig.ExtractPattern | src/deploy/hosting/convertConfig.ts:44-61 | fails with the conflict error iff `source \|\| glob` and `regex` are both truthy, and with the missing error iff neither is; otherwise returns exactly that raw string, `source` before `glob` |
| ConvertConfig.WithDefaultRegion | src/deploy/hosting/convertConfig.ts:88 | the service id is kept, an explicit region is kept, a missing region becomes `us-central1` |
| ConvertConfig.CompileRewrite | src/deploy/hosting/convertConfig.ts:79-93 | the target is path iff `destination` is truthy, then function, then Dynamic Links, then Cloud Run; "unknown rewrite" iff the pattern is fine and none applies, and no other error is possible; the pattern error comes first; a Dynamic Links target carries `dynamicLinks: true`; a Cloud Run target gets the default region |
| ConvertConfig.CompileRedirect | src/deploy/hosting/convertConfig.ts:99-108 | the location is the destination or `""`; a status code is set iff `type` is non-zero, and then equals it |
| ConvertConfig.OwnPairs | src/deploy/hosting/convertConfig.ts:115-118 | the pairs that become own properties of the plain object `{}`: exactly those not keyed `__proto__`, whose assignment reaches the inherited setter |
| ConvertConfig.CompileHeader | src/deploy/hosting/convertConfig.ts:113-120 | the header map's keys are exactly the listed keys other than `__proto__`; a missing list gives an empty map |
| ConvertConfig.TrailingSlashPolicy | src/deploy/hosting/convertConfig.ts:129-133 | `true` gives ADD, `false` gives REMOVE, absence leaves it unset |
| ConvertConfig.Touch | src/deploy/hosting/convertConfig.ts:87-89 | one rewrite after the `map` callback ran on it: a rule taking the Cloud Run branch gets the default region written into its `run`, any other rule is left as is; `TouchKeepsRewrite` proves it compiles the same |
| ConvertConfig.WriteBack | src/deploy/hosting/convertConfig.ts:78-94 | the caller's rewrites after the `map`: touched up to the first failing rule, untouched from there; `WriteBackPointwise` and `WriteBackIdempotent` state it |
| ConvertConfig.WriteBackIsTouchedPrefix | src/deploy/hosting/convertConfig.ts:78-94 | the caller's rewrites after a pass: the handled prefix written back, the rest untouched |
| ConvertConfig.Compile | src/deploy/hosting/convertConfig.ts:69-146 | the output of `convertConfig` as a specification: rewrites, then redirects, then headers, each the throwing `map` of its rule compiler, then the scalar fields; the lemmas below state its properties |
| ConvertConfig.CompileEmpty | src/deploy/hosting/convertConfig.ts:69-146 | a configuration with no key compiles to a `ServingConfig` with no field set |
| ConvertConfig.CompileSectionsInOrder | src/deploy/hosting/convertConfig.ts:77-121 | each list is present in the output iff it is in the input, and is compiled index for index in input order |
| ConvertConfig.CompileScalarFields | src/deploy/hosting/convertConfig.ts:124-143 | `cleanUrls`, `appAssociation`, `i18n` are copied iff their key is present, even when false; `trailingSlash` becomes its policy |
| ConvertConfig.CompileSucceedsIff | src/deploy/hosting/convertConfig.ts:69-146 | the conversion succeeds iff every rule of every present list compiles |
| ConvertConfig.CompileFailsAtFirstRewrite | src/deploy/hosting/convertConfig.ts:77-95 | the first failing rewrite's error is the one thrown |
| ConvertConfig.CompileFailsAtFirstRedirect | src/deploy/hosting/convertConfig.ts:97-109 | with all rewrites fine, the first failing redirect's error is thrown |
| ConvertConfig.CompileFailsAtFirstHeader | src/deploy/hosting/convertConfig.ts:111-121 | with rewrites and redirects fine, the first failing header rule's error is thrown |
| ConvertConfig.OwnPairsLastWins | src/deploy/hosting/convertConfig.ts:116-118 | assigned in order on a plain object, an own key holds the value of its last pair |
| ConvertConfig.HeaderLastWins | src/deploy/hosting/convertConfig.ts:116-118 | a later header with the same key (other than `__proto__`) overwrites an earlier one |
| ConvertConfig.HeaderProtoIgnored | src/deploy/hosting/convertConfig.ts:115-118 | a `__proto__` header entry changes nothing in the compiled header rule |
| ConvertConfig.AssignHeaders | src/deploy/hosting/convertConfig.ts:116-118 | the assignment loop on `{}` builds exactly `LastWins` of the own pairs |
| ConvertConfig.TouchKeepsRewrite | src/deploy/hosting/convertConfig.ts:88-89 | a written-back rewrite compiles as before, and writing back twice is writing back once |
| ConvertConfig.WriteBackPointwise | src/deploy/hosting/convertConfig.ts:78-94 | the write-back keeps the length and what every rewrite compiles to |
| ConvertConfig.CompileWriteBackStable | src/deploy/hosting/convertConfig.ts:88 | converting the mutated configuration again gives the same result |
| ConvertConfig.WriteBackIdempotent | src/deploy/hosting/convertConfig.ts:88 | a second conversion writes nothing new into the rewrites |
| ConvertConfig.CompileRewrites | src/deploy/hosting/convertConfig.ts:77-95 | the rewrite loop returns the compiled list or the first error, and leaves the caller's rewrites written back up to that point |
| ConvertConfig.CompileHeaders | src/deploy/hosting/convertConfig.ts:112-121 | the header loop returns exactly the throwing `map` of `CompileHeader` |
| ConvertConfig.ConvertConfig | src/deploy/hosting/convertConfig.ts:69-146 | no configuration gives an empty `ServingConfig`; otherwise the result is `Compile` of the configuration and only its rewrites change, to their written-back form |
| HashCache.CachePath | src/deploy/hosting/hashcache.ts:5-7 | `cachePath`: the file `.firebase/hosting.<name>.cache` resolved against `cwd`; `CachePathInjective` proves no two names share it |
| HashCache.CachePathInjective | src/deploy/hosting/hashcache.ts:5-7 | two site names never share a cache file |
| HashCache.ReadFile | src/deploy/hosting/hashcache.ts:15-17 | a readable file gives its stored text; reading fails exactly for a missing file (ENOENT) or an unreadable one (its error code) |
| HashCache.LoadLines | src/deploy/hosting/hashcache.ts:18-23 | the line `forEach` as a specification: a line with exactly three comma fields sets its path to `(parseInt(mtime), hash)`, any other line is skipped; `LoadLinesKeys` and `LoadLinesLastWins` state its keys and values |
| HashCache.LoadText | src/deploy/hosting/hashcache.ts:18 | the file text split on line feeds, each line handled by `LoadLines` |
| HashCache.LoadFile | src/deploy/hosting/hashcache.ts:12-33 | any read error, a missing file included, gives an empty cache; otherwise the lines are parsed |
| HashCache.LoadLinesKeys | src/deploy/hosting/hashcache.ts:18-23 | a path is loaded iff some line has exactly three comma fields and names it |
| HashCache.LoadLinesLastWins | src/deploy/hosting/hashcache.ts:21 | the last three-field line for a path decides its mtime and hash |
| HashCache.LoadLinesStep | src/deploy/hosting/hashcache.ts:19-22 | each line sets its path when it has three fields and changes nothing otherwise |
| HashCache.FillFromLines | src/deploy/hosting/hashcache.ts:18-23 | the `forEach` fill returns exactly `LoadLines` |
| HashCache.Load | src/deploy/hosting/hashcache.ts:12-33 | returns exactly `LoadFile` of the cache path: the parsed file, or an empty cache on any read error |
| HashCache.Row | src/deploy/hosting/hashcache.ts:40 | one `path,mtime,hash` line without its line feed; `RowFields` proves it splits back into its three fields |
| HashCache.DumpText | src/deploy/hosting/hashcache.ts:38-41 | the text the `dump` loop builds over a sequence of entries: one row and line feed per entry in order; `DumpTextIsJoin` and `LoadRows` relate it to `load` |
| HashCache.DumpTextAppend | src/deploy/hosting/hashcache.ts:40 | each iteration appends one `path,mtime,hash\n` line |
| HashCache.Serialise | src/deploy/hosting/hashcache.ts:36-41 | the loop's text is one line per pair in iteration order and `count` is the number of pairs |
| HashCache.Dump | src/deploy/hosting/hashcache.ts:35-48 | the cache file now holds the lines of the entries; a failed write changes nothing |
| HashCache.ObjectEntries | src/deploy/hosting/hashcache.ts:38 | `Object.entries` of a `Map`: no pairs, because a `Map` keeps its entries outside its own enumerable properties |
| HashCache.DumpAsWritten | src/deploy/hosting/hashcache.ts:35-48 | the source's `dump`, iterating `Object.entries` of a `Map`, stores the text of no pair |
| HashCache.Rows | src/deploy/hosting/hashcache.ts:40 | one row per pair |
| HashCache.RowFields | src/deploy/hosting/hashcache.ts:40 | a row of a storable pair splits back into its path, rendered mtime and hash |
| HashCache.DumpTextIsJoin | src/deploy/hosting/hashcache.ts:36-41 | the dumped text is the rows joined by line feeds plus a final one |
| HashCache.DumpTextLines | src/deploy/hosting/hashcache.ts:36-41 | the dumped text splits into exactly one line per pair, in order, then the empty trailing piece |
| HashCache.LoadRows | src/deploy/hosting/hashcache.ts:18-23 | parsing the rows replays the pairs in order |
| HashCache.DumpLoadRoundTrip | src/deploy/hosting/hashcache.ts:18-41 | parsing the dumped text gives back the dictionary the pairs describe, for paths and hashes free of commas and line feeds |
| HashCache.DumpThenLoad | src/deploy/hosting/hashcache.ts:12-48 | `load` after a successful corrected `dump` returns the dumped entries |
| HashCache.DumpLeavesOtherNames | src/deploy/hosting/hashcache.ts:5-7 | writing one site's cache leaves every other site's cache as it loads |
| HashCache.DumpAsWrittenLosesEntries | src/deploy/hosting/hashcache.ts:38 | after the source's `dump` of a non-empty cache, `load` finds no entry |

## Left out

- HTTP transport, authentication, retries and the `pageSize: 10` query parameter: requests are total functions from path and token to a reply.
- `createChannel`, `updateChannelTtl`, `deleteChannel`, `createRelease`: thin request wrappers without logic. `cloneVersion`'s operation polling and its ten-minute timeout are asynchronous waiting on an external poller. The `ttl` strings (`${ttlMillis / 1000}s`) use floating-point division.
- `getAuthDomains` / `updateAuthDomains`: foreign calls; the list they return or receive is an input or output value.
- HostingApi.AddAuthDomain: the `domains || []` fallback for an absent list is not modelled; the list is always present. The in-place `push` onto that freshly fetched list is an append to a value, because nothing else holds the list.
- HostingApi.ListChannels: the backend must end the token chain within a finite number of pages (the ghost bound); an endless backend is not modelled. The source's `for (;;)` (src/hosting/api.ts:365) has no page cap, so a backend that keeps returning a non-empty token keeps it requesting pages forever. The default project `"-"` is an ordinary argument.
- HostingApi.IsPreviewDomainOf: the site name is taken literally, so regular-expression metacharacters in it are not modelled. Case folding covers ASCII letters only, not the full Unicode canonicalisation of the `i` flag.
- HostingApi.EndsWithFirebaseApp: a Dafny `char` is a Unicode scalar value, while `.` in `/firebaseapp.com$/` matches one UTF-16 code unit. A character outside the Basic Multilingual Plane in that position (`firebaseapp😀com`) therefore matches in the model but not in JavaScript.
- HostingApi.Without: JavaScript `!=` is string inequality here because every element is a string.
- The Version/Release/Channel lifecycle: the code only declares the enums and interfaces, which are datatypes here with no behaviour. `CloneVersionRequest` and `LongRunningOperation` are not part of this model.
- ConvertConfig.CompileRewrite: the "unknown rewrite" message embeds `JSON.stringify(rewrite)`; the error carries the rule itself instead of that text.
- ConvertConfig.ConvertConfig:
  - a non-array `rewrites`/`redirects`/`headers` value reads as an absent list;
  - rule and header fields other than those listed are not modelled;
  - `run` objects are values, so any sharing of the written-back `run` between records is not captured;
  - `cleanUrls` and `trailingSlash` hold booleans, as the configuration types declare.
- ConvertConfig.CompileRedirect: `type` is an integer, so a NaN type (falsy in JavaScript) is not modelled.
- HashCache.CachePath: `path.resolve` is modelled as `cwd + "/" + relative`, which holds for an absolute, normalised `cwd` and a name without separators or dot segments.
- HashCache: the file system is a map from path to text or to an error code. Encodings, directory creation by `outputFileSync` and `logger.debug` output are left out. Writing can fail as a parameter (`writeOk`).
- HashCache: a JavaScript `Map` becomes the sequence of its entries in iteration order (`Dump`) or a Dafny `map` (`Load`). mtimes are integers or NaN, not doubles with fractions.
- JsText.NumberToString: integers are always rendered as decimal digits. `String(x)` switches to exponent form from 1e21 on, so `ParseIntOfNumberToString` holds for every integer in the model but only below 1e21 in JavaScript.
- JsText.ParseIntOfNumberToString: stated for every integer; in JavaScript it holds only below 1e21 in magnitude, where `String(x)` has no exponent.
- JsText.ParseInt: `parseInt` is modelled for ASCII decimal and `0x` hexadecimal input with the ECMAScript white-space set. Values are unbounded integers, not doubles, so the precision loss above 2^53 and the `-0` result are not modelled.

## Findings

| source | as written | input that shows it | evidently intended | confidence | as-written member | corrected member |
|---|---|---|---|---|---|---|
| src/deploy/hosting/hashcache.ts:38 | `dump` iterates `Object.entries(data)`, and `data` is a `Map`, whose entries are not enumerable own properties, so the loop never runs and an empty file is written | any non-empty cache, e.g. one entry `index.html` → `(1600000000000, "abc")`: the file is written empty and the next `load` returns an empty map | iterate the `Map`'s own entries (`data.entries()`), writing one line per entry, so that `load` after `dump` returns the cache | not executed | HashCache.DumpAsWritten, HashCache.DumpAsWrittenLosesEntries | HashCache.Dump, HashCache.DumpThenLoad |
