# quickhost, modelled in Dafny

quickhost is a small HTTP server for one-shot file sharing. A client that
knows the server's secret POSTs a body to `/<secret>`; the server buffers
the body (up to `maxSize` bytes, with an idle `timeout` between chunks),
stores it in a bounded least-recently-used store under a fresh random key of
twelve hexadecimal digits, and answers with that key. Anybody can then GET
`/<key>` and receive the stored bytes, until the store evicts them to make
room for newer uploads (at most `max` entries).

This project models the core of `server.js`:

- `Config`: the option checks and defaults done before the server starts
  (`secret`, `max`, `maxSize`, `timeout`), with the JavaScript coercions
  they rely on in `Js` (`isNaN`, `=== null`, `<`, `>=`, `| 0`).
- `Ingest`: the per-upload state machine (`processUpload`). It is a pure
  specification `Step`/`Run` over an `Upload` value and a `Session` class
  whose event handlers (`OnData`, `OnEnd`, `OnTimeout`, `OnAbortOrError`)
  update its fields and are proved to follow `Step`.
- `ObjectStore`: the LRU store as the server uses it. It is a recency list,
  least recently used first, with distinct keys and at most `max` entries.
  `Put` is `lru.set` and `Touch`/`Lookup` are `lru.get`. A `Store` class
  holds the list.
- `Hex`: the key encoding of the six random bytes, with its decoding
  inverse.
- `Router`: `isAuthorized`, the dispatch between upload, lookup and 404, the
  `Server` class and `Start`, and client scenarios that follow the
  repository's tests.
- `Http`: the responses written, and `Common`: options, results, bytes and
  chunk lists.

The random key bytes, the firing of timers, and the order in which request
events arrive are inputs: an `End` event carries the six key bytes, and a
`Timeout(h)` event is the timer with handle `h` firing.

Three facts about the answers the code writes:

- The 408 and 413 answers are plain-text bodies (`408 - timeout`,
  `413 - payload too large`).
- No content type is stored with an upload.
- `'text/text'` and `'text/html'` are the second argument of `writeHead`,
  which Node.js takes as the status message, not as a header. The model
  keeps them as `Response.message`.

`Config.Validate` models the option checks exactly as written, including two
defects listed under "## Findings". `Router.Start` runs the corrected
`Config.ValidateIntended`, so every running server in the model has a
positive `maxSize`.

## Model

| member | source | states |
|---|---|---|
| Common.Concat | server.js:51 | `Buffer.concat` of the buffered chunks is exactly as long as the chunks' byte lengths added up, and ends with the last chunk |
| Common.ConcatAppend | server.js:46-51 | concatenation distributes over a split of the chunk list |
| Common.TotalLengthAppend | server.js:40 | the running size adds up over a split of the chunk list |
| Js.ToNumber | server.js:13 | undefined and NaN coerce to NaN, null coerces to 0, and a number to itself |
| Js.IsNaN | server.js:13-23 | `isNaN` holds for undefined and NaN, and fails for null and for every number |
| Js.LessThan | server.js:13 | `v < c` holds exactly for null when `0 < c` and for a number below `c`; it fails for undefined and NaN |
| Js.AtLeast | server.js:18 | `v >= c` holds exactly for null when `0 >= c` and for a number of at least `c`; it fails for undefined and NaN |
| Js.Trunc | server.js:19 | rounds toward zero: the result lies within one of the input, on the side of zero |
| Js.ToInt32 | server.js:19 | `x \| 0` lies in the signed 32-bit range and agrees with the truncated value modulo 2^32 |
| Js.ToInt32InRange | server.js:19 | inside the signed 32-bit range, `\| 0` only drops the fraction |
| Config.Validate | server.js:10-25 | the checks in source order: a non-string or empty secret is rejected first, then a NaN, null or below-one max, then a maxSize that is not absent/NaN and not at least one; the result is Ok exactly when all three pass, with maxSize wrapped by `\| 0` or defaulted to 3 MiB and timeout defaulted to 5000 |
| Config.ValidateIntended | server.js:10-25 | the corrected checks: the secret and max are rejected as written, a bad non-null maxSize after them with EARG maxSize; a null maxSize takes the default; on success secret and max pass through, timeout is the given number or 5000, and maxSize is the floor of the given number, always at least one |
| Config.IntendedAgreesBelowWrap | server.js:16-22 | apart from a null maxSize and a maxSize of 2^31 or more, the written and the corrected checks give the same result |
| Config.NullMaxSizeRejected | server.js:16 | as written, a null maxSize is rejected although the corrected check accepts it |
| Config.LargeMaxSizeWraps | server.js:19 | as written, a maxSize of 2^31 is accepted as -2^31 and one of 2^32 as 0 |
| Config.BrokenConfigsRejected | test.js:134-139 | the four broken configurations are rejected with EARG, naming secret, max, max and maxSize |
| Config.Capacity | server.js:26 | the entry count the store allows is a whole number of at least one, the floor of max |
| Config.CapacityBound | server.js:26 | a count fits under the capacity exactly when it fits under max |
| Hex.Encode | server.js:50 | two lower-case hexadecimal digits per byte |
| Hex.DecodeEncode | server.js:50 | decoding the hexadecimal text gives back the bytes |
| Hex.EncodeInjective | server.js:50 | two byte strings have the same hexadecimal text exactly when they are equal |
| Hex.Key | server.js:50 | a key is twelve lower-case hexadecimal digits that decode to the six random bytes |
| ObjectStore.Lookup | server.js:76 | a lookup finds a value exactly when the key is stored, and the value is the one stored with it |
| ObjectStore.Without | server.js:51 | removing a key leaves the other keys and only entries that were there |
| ObjectStore.WithoutAt | server.js:51 | removing a stored key takes out exactly its entry and keeps the other entries in their order |
| ObjectStore.LookupAt | server.js:76 | a lookup of a stored key finds the value stored with it |
| ObjectStore.Put | server.js:51 | after a set, the key with its new value is the most recently used entry |
| ObjectStore.PutMovesToEnd | server.js:51 | a set of a stored key moves it, with the new value, to the most recent end; the other entries keep their order |
| ObjectStore.PutAppendsNew | server.js:51 | a set of a new key appends it as the most recent entry, evicting the first (least recently used) entry exactly when the store is full; the other entries keep their order |
| ObjectStore.Touch | server.js:76 | a get keeps the set of stored keys, and a miss leaves the list, order included, as it was |
| ObjectStore.TouchMovesToEnd | server.js:76 | a get hit moves the entry, value unchanged, to the most recent end; the other entries keep their order |
| ObjectStore.WithoutDistinct | server.js:51 | removing a key keeps the keys distinct and shortens the list by one exactly when the key was there |
| ObjectStore.WithoutLookup | server.js:51 | after removing a key, only that key's lookup changes, to missing |
| ObjectStore.PutShape | server.js:51 | a set keeps the keys distinct and the bound; afterwards the key maps to the new value; the keys are the old ones plus the new key, minus the least recently used one exactly when the store was full and the key new |
| ObjectStore.PutOthers | server.js:51 | a set changes no other key's lookup, except that the evicted key goes missing |
| ObjectStore.TouchShape | server.js:76 | a get changes no key and no lookup, and a hit becomes the most recently used entry |
| ObjectStore.KeepsNewestTwo | test.js:92-116 | with room for two, setting A, B and C in turn leaves B and C and drops A |
| ObjectStore.Store.constructor | server.js:26 | the store starts empty with the given capacity |
| ObjectStore.Store.Set | server.js:51 | `lru.set` replaces the list by `Put` of it and keeps the store valid |
| ObjectStore.Store.Get | server.js:76 | `lru.get` returns the lookup of the old list and replaces the list by `Touch` of it |
| Ingest.Step | server.js:31-64 | an event with a terminal outcome leaves the listeners detached and the timer cleared, and a finished upload ignores every event |
| Ingest.Run | server.js:61-64 | a run has at most one terminal outcome per event, and a finished upload ignores every run |
| Ingest.StepKeepsInv | server.js:27-66 | every event keeps the session invariant; a finished upload ignores every event; an event has a terminal outcome exactly when it detaches the listeners; only an accepted chunk changes the buffer, by appending itself |
| Ingest.AtMostOneOutcome | server.js:54-64 | in any order of events an upload has at most one terminal outcome; a finished one stays as it is; the listeners stay attached exactly while no terminal outcome has happened |
| Ingest.RunAppend | server.js:61-64 | running two event sequences one after the other is the same as running their concatenation |
| Ingest.DataWithinLimit | server.js:38-47 | a chunk that keeps the total within maxSize is buffered and counted, and restarts the timer |
| Ingest.WithinLimitBuffered | server.js:38-47 | while the running total stays within maxSize, every chunk is buffered in order and counted, and each restarts the timer |
| Ingest.OverflowRejected | server.js:40-45 | the first chunk that takes the total above maxSize ends the upload with 413; it is counted but not buffered |
| Ingest.StaleTimerIgnored | server.js:31-39 | a timer armed before the latest chunk never produces the 408 |
| Ingest.UploadCompletes | server.js:48-53 | chunks within the limit followed by the end of the stream complete once, with the key and the chunks' concatenation |
| Ingest.Session.constructor | server.js:27-30 | a session starts with an empty buffer and size 0, its listeners attached, its first timer armed and nothing written |
| Ingest.Session.Finish | server.js:54-60 | finish disarms the timer and detaches the listeners, and nothing else changes |
| Ingest.Session.ReTimeout | server.js:31-37 | reTimeout arms a fresh timer in place of the current one |
| Ingest.Session.OnData | server.js:38-47 | onData moves the session as `Step` does for a data event, keeps the invariant and writes 413 on overflow |
| Ingest.Session.OnEnd | server.js:48-53 | onEnd moves the session as `Step` does; on completion the store holds the concatenated buffer under `/<key>` and the answer is the key; otherwise nothing changes |
| Ingest.Session.OnTimeout | server.js:33-36 | only the armed, current timer ends the upload, with 408 |
| Ingest.Session.OnAbortOrError | server.js:58-62 | an abort or an error finishes a session that is still attached and writes nothing |
| Router.IsAuthorized | server.js:67-69 | a request is authorized exactly when it is a POST whose url is `/` followed by the whole secret |
| Router.Classify | server.js:67-83 | a request uploads exactly when it is a POST to `/<secret>`, is looked up exactly when it is a GET, and is answered 404 otherwise |
| Router.LookupResponse | server.js:5-81 | a lookup answers 200 with the stored bytes exactly when something is stored, and otherwise `res404`'s answer (status 404, text `404 - not found`) |
| Router.KeyPathOfKey | server.js:50-51 | an upload is stored under `/` followed by a key |
| Router.KeyPathsKeptByPut | server.js:50-51 | storing a finished upload keeps every stored path an upload path |
| Router.SecretNeverServed | server.js:67-83 | a GET of `/<secret>` is a lookup that answers 404 whenever the secret is not itself shaped like a key |
| Router.UploadThenFetch | server.js:48-81 | round trip: chunks within the limit and then the end of the stream answer with the key, and a GET of `/<key>` right after answers 200 with the chunks' bytes in order |
| Router.Server.constructor | server.js:26 | a fresh, empty store whose capacity is the floor of max |
| Router.Server.Handle | server.js:70-83 | an authorized POST starts a fresh session and leaves the store alone; any other non-GET answers 404; a GET answers the lookup's response and refreshes the key's recency; the store keeps holding only upload paths, so a non-POST request for `/<secret>` answers 404 unless the secret is itself shaped like a key |
| Router.Start | server.js:9-26 | startup rejects exactly when the corrected validation does, with the same EARG field; otherwise the server has the validated secret, a maxSize of at least one and an empty store |
| Router.StartAbcd | test.js:17-33 | a server started with secret `abcd` and the tests' valid options has that secret, an empty store of capacity floor(max), and the given or default maxSize |
| Router.UploadChunk | server.js:38-72 | a one-chunk upload within the limit answers with its key and stores the chunk under `/<key>` |
| Router.BasicUpload | test.js:35-47 | uploading `hello world` answers with the key, and a GET of the key returns `hello world` |
| Router.UploadTooLarge | test.js:75-90 | with maxSize 1, an eleven-byte upload answers 413 and stores nothing |
| Router.UploadStalls | test.js:141-162 | a client that writes `msg` and stalls: the timer armed before the chunk writes nothing and leaves the session listening, the current timer answers 408, and a late end stores nothing |
| Router.MaxAmountRespected | test.js:92-116 | with max 2, after uploads A, B and C the GETs of B and C succeed and the GET of A answers 404 |
| Router.DistinctPaths | server.js:50 | distinct random bytes give distinct storage paths |
| Router.FetchAfterThree | test.js:103-111 | after storing A, B and C with room for two, fetching B, then C, then A finds B and C and misses A |

## Left out

- The HTTP server's lifecycle (server.js:84-103) is not modelled: listening, the `closePromise`, the `error`/`close` events and the abort signal. These are I/O and event plumbing around the handler.
- Real timers and clocks are not modelled. A timer firing is an input event carrying the handle it was armed under, and the `timeout` value only passes through `Config`.
- `maxAge` is passed to the store unchecked and is not modelled. Age-based expiry needs a clock.
- The internals of the `lru` package are left out. The store is modelled by its observable behaviour as a recency list: `set` makes a key the most recent and evicts the least recent one beyond `max`, and `get` on a hit makes the key the most recent.
- `crypto.randomBytes(6)` is an input: the six bytes arrive with the `End` event.
- String-valued numeric options (`max: "2"`) and ±Infinity are not modelled. Option values are undefined, null, NaN or a finite number.
- Config.Validate: the text of the EARG error messages is not modelled, only which option was rejected.
- Response headers other than the status code and the status message are not modelled, and neither is the `'utf-8'` encoding argument of `res404`.
- `upload.js` is not part of this model. It is the client used by the tests, and its own client-side timeout (test.js:118-132) is left out with it.
- Concurrency between sessions is not modelled. Each handler runs to completion on one event loop, so the model's sequential method calls cover every interleaving of whole events.

## Findings

| source | as written | input that shows it | evidently intended | confidence | as-written member | corrected member |
|---|---|---|---|---|---|---|
| server.js:16 | the `maxSize` default is chosen on `isNaN(maxSize) \|\| max === null`; `max` has already been rejected when null, so a null `maxSize` falls through to `maxSize >= 1`, which is false, and is rejected | `{ secret: 'abcd', max: 1, maxSize: null }` is rejected with EARG, while `timeout: null` takes its default | `maxSize === null` takes the 3 MiB default, as `timeout === null` does | high (not executed) | Config.Validate, with Config.NullMaxSizeRejected | Config.ValidateIntended |
| server.js:19 | `maxSize \|= 0` truncates to a signed 32-bit integer after the `>= 1` check | `maxSize: 2147483648` is accepted as -2147483648 and `maxSize: 4294967296` as 0, so every non-empty chunk then answers 413 | an accepted `maxSize` stays a positive whole number (the floor of the given value) | high (not executed) | Config.Validate, with Config.LargeMaxSizeWraps | Config.ValidateIntended |
