# web-bluetooth background page, modelled in Dafny

The Chrome extension's background page (`extension/background.js`) bridges page
scripts and a native Bluetooth server. This project models its core:

- the UUID canonicaliser `normalizeUuid`, its helper `leftPad` and the brace
  wrapper `windowsUuid` (module `Uuid`);
- `matchDeviceFilter` and the accept test of the scan-result listener
  (module `Discovery`);
- the pure parts of `getCharacteristics` and `getCharacteristic`: the cache
  key, the filtering of a cached list and the choice of its first element
  (module `Characteristics`);
- the page's mutable state as a class, `Background.BackgroundPage`:
  - `requestId`, `requests`, `subscriptions` and `charCache` are fields;
  - `nativeRequest`, the native port's `onMessage` listener,
    `requestDevice`'s guard and scan listener, `writeValue`,
    `startNotifications` and `getCharacteristics` are methods.

`Js` holds the JavaScript values these functions handle. It covers
truthiness, property access, the string form a value takes as an object key,
and the canonical array-index keys. Through those keys `requests[msg._id]`
finds request 3 under `_id: 3` and under `_id: "3"`, but not under `"03"`.

Messages posted to the native port go to an `outbox` of `Posted` records.
`resolve`/`reject` calls go to a log of `Settlement`s, and
`chrome.tabs.sendMessage` calls go to a log of `Delivery`s.

Each `await` on a native request splits an operation in two:
- the method that sends the request;
- a `Finish…` method that runs once the reply's settlement is in the log.

Module `Scenarios` strings these steps together on a fresh page. It covers:
- out-of-order replies;
- stray and duplicate replies;
- subscription and routing;
- cache hits and misses;
- the scan listener;
- the write guards.

## Where the model follows the code rather than the documented intent

- Upper-case identifiers are rejected. Neither regular expression of
  `normalizeUuid` has the `i` flag, so an upper-case GUID never reaches
  `toLowerCase()` (background.js:68, 75-76). `Uuid.UpperCaseRejected` and
  `Uuid.UpperCaseUuidRejected` state this.
- A short string of decimal digits is read as hex: `"180"` denotes 0x180.
- `requestDevice` throws without `filters` even when `acceptAllDevices` is set.
- A number of 2^32 or more is padded but never truncated, so its result has
  more than eight leading hex digits and is not a canonical UUID. The shape
  and fixed-point lemmas exclude such numbers.

## Model

| member | source | states |
|---|---|---|
| Js.PropertyOf | extension/background.js:168 | reading a property throws exactly on `undefined`/`null`; on an object it yields that field |
| Js.KeyNamesIndex | extension/background.js:25 | a property key names array index n exactly when it is n's decimal spelling |
| Uuid.LeftPadded | extension/background.js:46-51 | the padded string has length max(count, \|s\|), ends with `s`, and everything before `s` is the pad character |
| Uuid.LeftPad | extension/background.js:46-51 | the `while` loop that prepends the pad returns exactly the padded string |
| Uuid.Aliased | extension/background.js:56-67 | the alias step either keeps the input or replaces it with a positive 16-bit code |
| Uuid.HexRoundTrip | extension/background.js:69-73 | `toString(16)` produces hex digits that `parseInt(…, 16)` reads back as the same number |
| Uuid.ShortCodeUuidShape | extension/background.js:73 | a code below 2^32 expands to a canonical UUID whose first eight digits denote the code and whose rest is the Bluetooth Base UUID suffix |
| Uuid.ShortCodeUuidInjective | extension/background.js:73 | distinct codes below 2^32 expand to distinct UUIDs |
| Uuid.NormalizeAlias | extension/background.js:56-73 | each well-known name normalises to the UUID of its code |
| Uuid.NormalizeShortHex | extension/background.js:68-78 | a 1-8 digit hex string, with or without `0x`, denotes a number below 2^32; if positive it normalises to that code's UUID, if zero it throws "Invalid UUID format" |
| Uuid.NormalizeNumber | extension/background.js:72-78 | a positive number normalises to its code's UUID; zero and negatives throw "Invalid UUID format" |
| Uuid.ShortFormsAgree | extension/background.js:65-74 | a code below 2^32 given as a number, as bare hex or as `0x` hex normalises to one and the same UUID |
| Uuid.AliasFormsAgree | extension/background.js:56-74 | a well-known name normalises as its code does in each of the three short forms |
| Uuid.BracesRemoved | extension/background.js:76 | removing the first `{` and the first `}` and lower-casing gives back the canonical core, whichever braces were present |
| Uuid.NormalizeCanonical | extension/background.js:75-77 | a canonical UUID, bare or in braces, normalises to itself |
| Uuid.NormalizeStringSucceeds | extension/background.js:53-79 | a string normalises exactly when it is a well-known name, a short hex string denoting a positive number, or a GUID with optional braces; every other string throws "Invalid UUID format" carrying the input |
| Uuid.NormalizeIsCanonical | extension/background.js:53-79 | every result is a lower-case 8-4-4-4-12 UUID (numbers of 2^32 and more excepted) |
| Uuid.NormalizeIdempotent | extension/background.js:53-79 | normalising a result again gives the same result |
| Uuid.WindowsUuid | extension/background.js:81-83 | succeeds exactly when normalisation does, wraps its result in braces, and otherwise throws the same error |
| Uuid.WindowsUuidRoundTrip | extension/background.js:75-83 | normalising the braced form gives back the normalised identifier |
| Uuid.ZeroRejected | extension/background.js:68-78 | `"0"` and `"00000000"` throw "Invalid UUID format" |
| Uuid.NineDigitsRejected | extension/background.js:68-78 | any string of nine or more hex digits throws "Invalid UUID format": too long for a short code, no dashes for a UUID |
| Uuid.UpperCaseRejected | extension/background.js:65-78 | any string containing an upper-case letter throws "Invalid UUID format" |
| Uuid.UpperCaseUuidRejected | extension/background.js:75-78 | a canonical UUID written in upper case throws, bare and in braces |
| Uuid.UpperCaseShortRejected | extension/background.js:68-78 | `"0X2A19"` throws |
| Uuid.FreeTextRejected | extension/background.js:53-79 | any string that is no well-known name, no positive short hex code and no GUID throws "Invalid UUID format" with the input |
| Discovery.NormalizeAll | extension/background.js:87-88 | `map(normalizeUuid)` succeeds exactly when every element normalises, keeps length and order, and otherwise throws some element's error |
| Discovery.CoveredMeansIncluded | extension/background.js:88 | the `every(… includes …)` test on normalised lists holds exactly when each filter identifier denotes an advertised one |
| Discovery.MatchDeviceFilterMeaning | extension/background.js:85-99 | when every identifier the filter compares normalises (the device's only when the filter lists services), a filter matches exactly when its services are covered, a set `name` equals the device's and a set `namePrefix` begins it |
| Discovery.MatchDeviceFilterThrowsOnDevice | extension/background.js:86-87 | a filter with services throws when one of the device's identifiers does not normalise |
| Discovery.MissingServiceFails | extension/background.js:88-90 | a filter asking for a service the device does not advertise does not match |
| Discovery.NameMatchesNumber | extension/background.js:85-99 | a filter naming a service by its well-known name matches any device that advertises that service by number among its services |
| Discovery.NamePrefixExamples | extension/background.js:95-97 | `namePrefix` "Foo" matches "FooBar"; "Bar" does not |
| Discovery.SomeFilterMatches | extension/background.js:112 | `some` is false exactly when every filter returns false, and true exactly when some filter matches with every earlier one returning false |
| Characteristics.CacheKeySeparatesServices | extension/background.js:162 | two service arguments share a cache key for one device exactly when their string forms are equal |
| Characteristics.RawServiceKeys | extension/background.js:162-164 | a well-known name and its `0x` hex code normalise alike but are cached under different keys |
| Characteristics.Filter | extension/background.js:168 | `filter` with a test that may throw succeeds exactly when no test throws, and its result is a subsequence of the list |
| Characteristics.FilterCounts | extension/background.js:168 | each value occurs in the filtered list as often as in the list when the test accepts it and not at all otherwise, so exactly the accepted elements are kept |
| Characteristics.MatchedIsObject | extension/background.js:168 | only an object characteristic can match |
| Characteristics.FilterHeadIsFirstMatch | extension/background.js:153-168 | the filtered list is non-empty exactly when the test accepts some element, and its head is the first accepted one |
| Characteristics.FilterKeepsAll | extension/background.js:168 | filtering a list whose every element the test accepts returns the list unchanged |
| Characteristics.SelectAllMatching | extension/background.js:166-168 | asking for a characteristic every cached entry denotes returns the cached list unchanged |
| Characteristics.GetCharacteristicFirstMatch | extension/background.js:152-168 | `getCharacteristic` on a cached list returns the first matching characteristic, or throws "not found" exactly when none matches |
| Background.Envelope | extension/background.js:9-12 | the posted message carries `cmd` and `_id`, which override the parameters; every other key comes from the parameters |
| Background.Message | extension/background.js:9-12 | the message of a posted request carries its command and its id |
| Background.GattTargetMeaning | extension/background.js:177-199 | both identifiers convert exactly when both normalise; otherwise the service's error comes first, then the characteristic's |
| Background.ReplyTargetMeaning | extension/background.js:25 | a message completes request `id` exactly when it is a `response`, `id` is pending and `_id` reads as `id` |
| Background.ReplyTargetIsPending | extension/background.js:25-32 | only a pending request can be completed, and once it is removed the same reply completes nothing |
| Background.Route | extension/background.js:34-39 | a message is delivered at most once, exactly when it is a `valueChangedNotification` whose `subscriptionId` has a registered tab, and it goes to that tab |
| Background.BackgroundPage.constructor | extension/background.js:4-20 | a fresh page has id 0, no pending requests, no subscriptions and an empty cache |
| Background.BackgroundPage.NativeRequest | extension/background.js:4-18 | registers the current id as pending, posts one message under it and moves to the next id; the id is new, and every id issued so far stays pending or settled |
| Background.BackgroundPage.OnMessage | extension/background.js:21-40 | a reply to a pending id settles it once (rejected on a truthy error, otherwise resolved) and removes it, while any other message leaves the table alone; a notification is routed to its subscriber; no issued request is ever lost from both the table and the log |
| Background.BackgroundPage.RequestDevice | extension/background.js:102-120 | without `filters` it throws and sends nothing; otherwise it sends `scan` |
| Background.BackgroundPage.OnScanResult | extension/background.js:109-129 | an accepted device sends `stopScan` and yields `{address, __rssi, name}`; a rejected one sends nothing; a throwing filter sends nothing |
| Background.BackgroundPage.WriteValue | extension/background.js:182-193 | a value that is not an array of numbers, or an identifier that does not normalise, throws before anything is sent; otherwise one `write` carrying the braced identifiers and the value is sent |
| Background.BackgroundPage.StartNotifications | extension/background.js:195-200 | one `subscribe` request with the braced identifiers is sent, or the conversion error is thrown and nothing is sent |
| Background.BackgroundPage.FinishStartNotifications | extension/background.js:196-203 | a resolved `subscribe` registers the sender's tab under the returned id; a rejection is rethrown; subscriptions are only ever added |
| Background.BackgroundPage.GetCharacteristics | extension/background.js:161-172 | a cached key answers at once (filtered when a characteristic is given) and sends nothing; otherwise one `characteristics` request is sent unless the service does not normalise |
| Background.BackgroundPage.FinishGetCharacteristics | extension/background.js:164-171 | a resolved reply is cached under the key and returned (filtered when asked); a rejection caches nothing |
| Scenarios.ReplyByNumber | extension/background.js:25 | a reply naming a pending id by number completes it |
| Scenarios.ReplyByString | extension/background.js:25 | a reply naming a pending id by its decimal string completes it |
| Scenarios.ReplyByBadKey | extension/background.js:25 | a reply whose `_id` is no array-index key completes nothing |
| Scenarios.ResponseIsNoNotification | extension/background.js:34 | a response is never routed to a tab |
| Scenarios.NotificationRoute | extension/background.js:34-39 | a notification goes to the tab registered under its subscription id, or nowhere |
| Scenarios.NotificationIsNoReply | extension/background.js:25 | a notification completes no request |
| Scenarios.RepliesMatchById | extension/background.js:21-33 | replies arriving out of order settle the request each one names, and nothing stays pending |
| Scenarios.StrayRepliesIgnored | extension/background.js:25-33 | an `_id` of `"00"` completes nothing and a second reply to a settled id is ignored |
| Scenarios.NoDeliveryBeforeReply | extension/background.js:34-39 | a push arriving before the `subscribe` reply is delivered to nobody |
| Scenarios.Subscribed | extension/background.js:195-203 | after the `subscribe` reply the sender's tab is registered under the returned id |
| Scenarios.NotificationsReachSubscriber | extension/background.js:34-39 | the subscriber gets the pushes for its own subscription id and no others |
| Scenarios.FilledCache | extension/background.js:161-166 | the first call sends one `characteristics` request and caches its reply |
| Scenarios.CacheHit | extension/background.js:163-171 | later calls answer from the cache and send nothing more |
| Scenarios.CacheByRawKey | extension/background.js:162-164 | another spelling of a fetched service misses the cache and is fetched again |
| Scenarios.FiltersRequired | extension/background.js:103-106 | `requestDevice` without `filters` throws and sends nothing, even with `acceptAllDevices` |
| Scenarios.ScanPicksMatchingDevice | extension/background.js:109-129 | a non-matching device is skipped and a matching one picked; a later match sends `stopScan` again |
| Scenarios.WriteRefusals | extension/background.js:183-190 | a value with a non-number and an identifier that does not normalise are both refused, and nothing is sent |
| Scenarios.WriteUnclamped | extension/background.js:183-192 | a number outside the byte range is sent as it is |

## Left out

- Chrome and native I/O:
  - `connectNative`, `postMessage` and `chrome.tabs.sendMessage` become the outbox and the delivery log.
  - `executeScript`, `browserAction`, console output, the `onDisconnect` logger and the start-up `ping` are not part of this model.
- Promise interleavings: each awaited request is two steps, and concurrent calls are not interleaved. Two `getCharacteristics` calls that both miss the cache before either reply arrives are therefore not modelled.
- The scan listener's wait for `deviceFoundCallback`:
  - The model takes the callback as already set.
  - A push arriving before the `scan` reply, which the code ignores, is not modelled.
  - The listener is never removed. `Scenarios.ScanPicksMatchingDevice` shows the repeated `stopScan` this causes.
- `scanning` is never set, so every `requestDevice` sends `scan`; the flag itself is not modelled.
- The message dispatcher and its `exportedMethods` lookup, including the "Unknown command" reply, are not part of this model. They depend on Chrome's `sendResponse` semantics.
- The pass-through wrappers `gattConnect`, `gattDisconnect`, `getPrimaryService`, `getPrimaryServices` and `readValue` are not modelled as operations. They only assemble parameters; `Background.GattTarget` covers the identifier conversion `readValue` shares with `writeValue`.
- Inherited prototype keys are not modelled. Alias lookups and the `requests`/`subscriptions`/`charCache` lookups see only own entries, so keys such as `"constructor"` are not special.
- Floating-point numbers are left out: numbers are integers.
- Uuid.NormalizeIsCanonical: does not cover numbers of 2^32 and more, because their padded hex has more than eight digits.
- Uuid.NormalizeIdempotent: likewise excludes numbers of 2^32 and more.
- Uuid.WindowsUuidRoundTrip: likewise excludes numbers of 2^32 and more.
- Uuid.LeftPad: the pad is a single character, which is the only way the code calls it.
- Arrays passed as identifiers are approximated: their string form joins the elements' string forms with commas.
- `Object.assign` writes `cmd` and `_id` into the caller's params object. The model builds a new message; no caller reuses the object.
- A `gattId` or service containing `/` can make two different pairs share a cache key. `Characteristics.CacheKeySeparatesServices` fixes the device.
- A scan result's `localName` is taken to be a string.
