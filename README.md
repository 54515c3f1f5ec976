# go-spotify core, modelled in Dafny

go-spotify is a web app for Spotify users. It runs as a Gin server on Cloud
Run, with a few Firestore-triggered Cloud Functions beside it. This project
models the sequential logic at its core and proves what that logic promises.

- **List and ID helpers (utils.go).**
  - `chunkIDs` splits track IDs into batches.
  - `fullTrackGetMany` looks the batches up one after another.
  - `appendIfUnique` is an order-preserving unique insert.
  - `normalizeRecentlyPlayed` drops play-history "hiccups": an item that repeats the item before it within one 30-second slot.
  - `joinArtists` and `searchType` are string helpers.
- **Authentication state machine (auth.go).**
  - `kaszka` is an in-memory TTL cache of Spotify clients, keyed by session.
  - Firestore holds each user's OAuth token under `users/<user>/tokens<path>`.
  - `AuthenticationRequired` either redirects to Spotify's consent page or makes sure a client for the session is cached. It refreshes the stored token when the token is within 4m30s of expiring.
  - `clientMagic` hands endpoints the cached client, or builds one from the stored token.
- **Request middleware (middleware.go, and the identical `Redirector` in main.go).**
  - The Cloud Run to custom-domain redirect.
  - The header rule.
  - A per-key rate limiter kept in a TTL cache.
- **Counting Cloud Functions (cloudcounter.go, beancouner.go).**
  - They take the changed document's ID from the Firestore event's resource name.
  - They increment `count` in `popular_tracks/<id>`.

Files:

- `wrappers.dfy`: `Option` and `Result`.
- `go_strings.dfy`: Go's `strings.Index`, `Split`, `Join` and `HasPrefix`, with `Split`/`Join` round trips.
- `go_cache.dfy`: the go-cache semantics the source relies on, as a class over a map with an explicit clock.
  - `Get` misses an expired entry.
  - `Set` and `SetDefault` overwrite.
  - `Add` refuses a key with a live entry.
  - Duration 0 means the cache default; a negative duration means "never expires".
- `firestore.dfy`: the document store, as a class over a map from path to field map.
  - `Set` replaces a document.
  - `Set` with `MergeAll` replaces only the given fields.
  - `Increment` adds to an integer field, or sets a missing field.
- `utils.dfy`, `auth.dfy`, `middleware.dfy`: one module per source file.
- `firestore_event.dfy`: the event type and document-ID extraction that both Cloud Functions share.
- `cloud_counter.dfy`, `beancounter.dfy`: the two Cloud Functions.

Conventions:

- The clock is an integer number of nanoseconds.
- Everything the program asks of the outside world is a parameter of the operation that asks:
  - Spotify's `GetTracks`;
  - whether a Firestore write succeeds;
  - the token that `spotifyClient.Token()` returns after a refresh;
  - the OAuth authorisation URL;
  - whether the Cloud Functions context carries metadata;
  - a rate limiter's `Allow` answer.
- A Go run-time panic is an explicit outcome (`Panicked`):
  - a type assertion on a nil session value in `AuthenticationRequired`;
  - the nil token dereferenced at auth.go:78 when Firestore has no token;
  - indexing past the pieces of a resource name without "/documents/".
- Four panics are not outcomes; each has a line under "## Left out":
  - `clientMagic`'s session casts are a precondition;
  - `normalizeRecentlyPlayed`'s unguarded `incoming[0]` is a precondition (non-empty input);
  - a `nil` track pointer in a `fullTrackGetMany` lookup answer is not modelled;
  - the `nil` token after a failed refresh in `AuthenticationRequired` is not modelled.

The model follows the code as written:

- When a batch lookup fails, `fullTrackGetMany` returns the tracks gathered from the earlier batches together with the error. It does not discard them.
- With a batch size below 1, `chunkIDs` returns an empty first batch and then one batch per ID. It does not keep every batch within the size.

## Model

| member | source | states |
|---|---|---|
| Utils.Chunked | utils.go:148-162 | there is always at least one batch, so no IDs give exactly one empty batch |
| Utils.ChunkIDs | utils.go:148-162 | the loop's batches are exactly `Chunked(ids, chunkSize)` |
| Utils.ChunkedSnoc | utils.go:151-159 | one more ID joins the last batch when it has room, otherwise it opens a new batch |
| Utils.ChunkedFlatten | utils.go:148-162 | the batches laid end to end are the IDs in their original order, for every batch size |
| Utils.ChunkedSizes | utils.go:152-158 | with size ≥ 1, every batch but the last holds exactly `size` IDs, and the last holds 1..size (0 only when there are no IDs) |
| Utils.ChunkedBounds | utils.go:152-158 | with size ≥ 1 and n IDs, (count−1)·size < n ≤ count·size; no IDs give one batch |
| Utils.ChunkedCount | utils.go:148-162 | the batch count is max(1, ⌈n/size⌉) |
| Utils.FullTrackGetMany | utils.go:112-131 | no IDs: no lookup and no tracks. Otherwise one lookup per batch of `Chunked(ids, pageLimit)`, in batch order, stopping at the first failure. Success returns every batch's tracks concatenated. Failure returns the wrapped error plus the tracks of the earlier batches |
| Utils.GatheredPerID | utils.go:126-128 | if every lookup answers one track per ID in order, the gathered tracks line up index by index with the IDs, and there are exactly as many |
| Utils.AppendIfUnique | utils.go:271-278 | the scan returns the slice unchanged if `i` is present, else the slice with `i` appended |
| Utils.InsertedContents | utils.go:271-278 | the old elements stay in place, at most one element is added, and the element set gains exactly `i` |
| Utils.InsertedIdempotent | utils.go:271-278 | inserting the same ID twice equals inserting it once |
| Utils.InsertedNoDuplicates | utils.go:271-278 | a duplicate-free list stays duplicate-free |
| Utils.DeduplicatedProperties | helpers.go:122-124 | folding the insert over the recently played IDs gives each ID exactly once, and no other |
| Utils.Normalized | utils.go:287-288 | output is never longer than input, and for non-empty input the first item is always kept |
| Utils.NormalizeRecentlyPlayed | utils.go:286-301 | the loop's output is exactly `Normalized(incoming)` |
| Utils.NormalizedPicks | utils.go:289-298 | the output is the input items at the kept positions: output item k is input item `KeptIndices[k]` |
| Utils.KeptIndicesIncrease | utils.go:289-298 | kept positions strictly increase, so the output is an order-preserving subsequence |
| Utils.KeptIndicesExact | utils.go:289-298 | position j is kept iff j = 0 or item j differs from item j−1 in track or in 30-second slot; the comparison is with the previous input item |
| Utils.NormalizedIsCollapsed | utils.go:289-298 | comparing with the previous input item gives the same list as comparing with the last kept item |
| Utils.NormalizeIdempotent | utils.go:286-301 | the output has no hiccups left, so normalizing it again changes nothing |
| Utils.JoinArtists | utils.go:256-267 | no artists give ""; otherwise the names are joined with the separator, in input order |
| Utils.ArtistsSplitBack | utils.go:256-267 | for at least one artist and a non-empty separator whose first character neither recurs later in the separator nor occurs in any name, splitting the joined string gives back the names (no artists join to "", which splits to [""]) |
| Utils.SearchTypeOf | utils.go:313-326 | "album", "artist" and "playlist" each map to their own type; every other string, "track" included, maps to Track |
| Utils.SearchTypeKeyword | utils.go:313-326 | every search type is reached by its keyword; a string maps back to itself iff it is one of the four keywords |
| GoCache.TtlCache.Get | auth.go:68 | finds a value iff the key is present and its entry has not expired |
| GoCache.TtlCache.Set | auth.go:80 | the key's entry becomes the value, with the expiry the duration selects; other keys are untouched |
| GoCache.TtlCache.SetDefault | auth.go:112 | `Set` with the cache's default duration |
| GoCache.TtlCache.Add | auth.go:126-128 | stores only when the key has no live entry, and reports the refusal otherwise |
| GoCache.StoredThenLooked | auth.go:80 | an entry stored for d > 0 is found until d has elapsed, and missed after |
| Firestore.Merge | auth.go:174-179 | MergeAll: the given fields take their new values, all other fields are kept, and the key set is the union |
| Firestore.Incremented | CloudFunctions/CloudCounter/cloudcounter.go:93-94 | `Increment` in a merge: an integer field grows by the amount, a missing or non-integer field becomes the amount, other fields are kept |
| Firestore.MergeIdempotent | auth.go:174-179 | merging the same fields twice equals merging them once |
| Auth.TokenPath | auth.go:136 | the token document "users/<user>/tokens<path>" lies under the user's profile document, and what follows "/tokens" is the route group path; the same format is used at auth.go:153 and auth.go:173 |
| Auth.UserPath | auth.go:156 | the profile document is `user` in the "users" collection |
| Auth.DecodeToken | auth.go:142-143 | each token field stored with the right type reads back as stored; a missing field reads as its zero value, so an empty document gives the zero token |
| Firestore.Store.Get | auth.go:137 | a document is returned iff one exists at the path, and it is that document |
| Firestore.Store.Set | auth.go:155 | on success the document at the path becomes exactly the data, other documents unchanged; on failure nothing changes; the backend's error is returned |
| Firestore.Store.SetMergeAll | auth.go:156-160 | on success the fields are merged into the document at the path, created empty if missing; on failure nothing changes; the error is returned |
| Firestore.Store.IncrementMergeAll | CloudFunctions/CloudCounter/cloudcounter.go:93-94 | on success the field of the document at the path is incremented as `Incremented` states, created if missing; on failure nothing changes; the error is returned |
| Auth.TokenPathInjective | auth.go:136 | different (user, path) pairs get different token documents when user IDs contain no '/' |
| Auth.TokenPathNotUserPath | auth.go:153-156 | a user's token document is never the user's profile document |
| Auth.DecodeTokenFields | auth.go:142-143 | a stored token reads back as itself |
| Auth.DecodeAfterMerge | auth.go:174-179 | after the four token fields are merged in, the document reads as that token, whatever else it holds |
| Auth.GetTokenFromDB | auth.go:134-147 | a token is found iff its document exists, and it is that document decoded |
| Auth.SaveTokenToDB | auth.go:151-167 | the token document is replaced wholesale, then userID, country and timezone are merged into `users/<user>`. Only the second write's error is reported |
| Auth.SaveThenGet | auth.go:151-160 | after a successful save the token reads back whatever became of the profile merge; a successful merge leaves the profile's three fields set |
| Auth.UpdateTokenInDB | auth.go:171-187 | merges exactly AccessToken, Expiry, RefreshToken and TokenType into the token document, keeping its other fields |
| Auth.UpdateThenGet | auth.go:171-179 | after an update the token document reads back as the new token |
| Auth.NeedsRefresh | auth.go:82 | a token is refreshed iff it expires less than 4m30s after now; an already expired token is always refreshed |
| Auth.AuthenticationRequired | auth.go:41-92 | no user: 303 to the auth URL, nothing changed. Missing authPath/uuid: panic. Live cached client: pass, nothing changed. No stored token: panic. Otherwise cache a client for the token with the default TTL, and write back the refreshed token iff expiry − now < 4m30s. A passed request leaves a live client cached |
| Auth.ClientMagic | auth.go:98-130 | hit: the cached client, re-stored under the same key with the default TTL. Miss without a token: nil, cache unchanged. Miss with a token: a new client for it, added. Any client returned is live in the cache |
| Middleware.Redirector | middleware.go:18-34 | redirects iff gcr is "YES" and the host is the Cloud Run domain; a redirect is 303 to "https://" + customDomain + path, followed by "?" + query when the query is non-empty (`RedirectTarget`) |
| Middleware.RedirectTarget | middleware.go:22-25 | the target starts with "https://" + domain + path; with a query it continues with '?' and exactly the query, without one it ends there |
| Middleware.RedirectTargetParses | main.go:99-102 | (main.go's copy of the Redirector, identical to middleware.go's) for a domain with no '/' or '?' and a path that starts with '/' and holds no '?', the target gives back domain, path and query; "?" is written iff the query is non-empty |
| Middleware.RedirectDecodedQuestionMark | middleware.go:22-25 | the decoded path is written unescaped, so a request path "/a?b" (sent as "/a%3Fb") with no query is redirected to path "/a" with query "b" |
| Middleware.Headers | middleware.go:39-46 | Service-Worker-Allowed is always "/"; Cache-Control is "max-age=86400" iff RequestURI starts with "/static/"; all other headers are kept |
| Middleware.HeadersIdempotent | middleware.go:39-46 | applying the header rule twice equals applying it once |
| Middleware.NewLimiterSet | middleware.go:48 | the limiter cache starts empty with a 15-minute default lifetime |
| Middleware.RateLimiter | middleware.go:53-70 | a live limiter for the key is reused; otherwise the new one is stored for its expiry. The request continues iff that limiter allows it, and the key's live limiter afterwards is the one consulted |
| Middleware.LimiterShared | middleware.go:56-62 | with a positive lifetime (`expire` > 0), a newly created limiter serves every request with that key until its lifetime runs out, and those requests store nothing new |
| FirestoreEvent.FullPath | CloudFunctions/CloudCounter/cloudcounter.go:85 | the document path exists iff the name contains "/documents/"; it is the text after the first "/documents/", up to the next one if there is another, so it contains no "/documents/" |
| FirestoreEvent.DocumentID | CloudFunctions/CloudCounter/cloudcounter.go:87-89 | split on "/", drop the first piece, join with "/": everything after the first '/', or "" if there is none |
| FirestoreEvent.FullPathOf | CloudFunctions/CloudCounter/cloudcounter.go:85 | for "<prefix>/documents/<rest>", the document path is `rest` when neither part hides another separator |
| FirestoreEvent.DocumentIDOfName | CloudFunctions/CloudCounter/cloudcounter.go:85-89 | for "<prefix>/documents/<coll>/<id>", with no '/' in coll, no "/documents/" in "<prefix>/documents" and none in "<coll>/<id>", the document path is "<coll>/<id>" and the document ID is `id` |
| FirestoreEvent.DocumentIDOfSingleSegment | CloudFunctions/beancouner.go:88-92 | a single-segment document path gives the empty document ID |
| CloudCounter.CounterPath | CloudFunctions/CloudCounter/cloudcounter.go:92 | the counter document is `doc` in the "popular_tracks" collection |
| CloudCounter.CloudCounter | CloudFunctions/CloudCounter/cloudcounter.go:75-105 | no "/documents/": panic before any write. Otherwise one merge-increment of `count` on popular_tracks/<doc>; a write error is returned as "beancounter: …", else nil |
| CloudCounter.EventCountsTrack | CloudFunctions/CloudCounter/cloudcounter.go:85-97 | an event on `<prefix>/documents/<coll>/<id>`, with no '/' in coll, no "/documents/" in "<prefix>/documents" and none in "<coll>/<id>", adds exactly 1 to popular_tracks/<id>, keeps its other fields and touches no other document |
| CloudCounter.RecountedAddsUp | CloudFunctions/CloudCounter/cloudcounter.go:92-94 | n successful events on one document add n to its count and change no other field |
| Beancounter.HelloFirestore | CloudFunctions/beancouner.go:78-111 | missing metadata: "metadata.FromContext: …" is returned and nothing is written. Otherwise the same outcome and write as CloudCounter |

## Left out

- The `clientChannel` handoff between the OAuth callback and the login handlers is not modelled: it is goroutines and blocking channel receives, that is, concurrency.
- The float64 helpers (`asAttribute`, `averageFloat`, `getTrackAttributes`) are left out: floating point.
- The reflection helpers (`getItemPropertyValue`, `getSpotifyIDs`) are left out: runtime reflection.
- The HTTP handlers, the recommendation and time-zone orchestration, and the Firestore/OIDC/metadata set-up functions are left out: they are I/O wiring around the modelled core.
- go-cache's background janitor is not modelled. It only deletes entries that lookups already treat as absent.
- Firestore reads cannot fail in the model except by a missing document. Transient read errors are not modelled.
- Firestore.Incremented: Firestore integers are 64-bit and an increment that overflows is clamped to the int64 bound; the model's integers are unbounded. Double fields, which Firestore increments as doubles, are not part of the model's value types.
- Firestore timestamps have microsecond precision. The model stores the clock reading unchanged.
- A stored token field of the wrong type decodes to its zero value. `DataTo` would also report an error, which the source ignores anyway.
- Only the four exported `oauth2.Token` fields are stored and decoded.
- `getTokenFromDB` also writes the token into its `firestoreToken` argument. No caller reads it there, so the model omits that side effect.
- HTTP headers are modelled as one value per name. `c.Header` replaces all values, which is the only case that arises.
- Utils.FullTrackGetMany: `pageLimit` is a package-level constant whose value the model leaves open, so it is a parameter.
- Utils.FullTrackGetMany: the lookup is a function of the batch, so two identical batches (duplicate IDs with a page limit of 1, say) always get the same answer; a transient failure on only one of them is not represented.
- Utils.FullTrackGetMany: a `nil` track pointer in a lookup answer, which would panic when dereferenced, is not modelled.
- Auth.ClientMagic: the three string type assertions on the session values are a precondition (`Complete(session)`), not a `Panicked` outcome, because the source documents that `clientMagic` is only called behind `AuthenticationRequired`, which has already panicked or redirected on a nil value.
- Middleware.RedirectTargetParses: holds only for paths without '?'. The source writes the decoded `URL.Path` into the target unescaped, so a path holding an escaped '?' is redirected to a different resource (`RedirectDecodedQuestionMark`); the model keeps the source's behaviour.
- Utils.NormalizeRecentlyPlayed: the source indexes `incoming[0]` unguarded, so empty input is a precondition.
- Utils.NormalizeRecentlyPlayed: timestamps are nanoseconds since Go's zero time, where `Truncate` rounds down.
- CloudCounter.CloudCounter: for an empty document ID, or one that contains '/', the Firestore client may refuse the document reference. The model leaves that to the write-failure parameter.
- Auth.AuthenticationRequired: the refreshed token is an input. The refresh itself, its errors and the `nil` token a failed refresh would dereference are not modelled.
- Firestore event timestamps, field values and the update mask are not modelled, because the functions do not read them.
