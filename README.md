# Crates: suggestion route, batch assignment, eras and session tokens

A Dafny model of the core of a Next.js application that sorts a user's saved
Spotify albums into "crates" (user-defined genres). The model covers:

- `POST /api/crates/suggest`:
  - clamping of `limit` and `offset`;
  - the `crate_id` check;
  - exclusion of already reviewed album ids;
  - genre enrichment through Spotify's `/albums` and `/artists` batch
    endpoints (chunks of 20 and 50, one per-album genre merge);
  - the prompt line of each candidate;
  - the filtering and enrichment of the suggestions the completion API
    returns;
  - the order in which the handler checks its preconditions.
- `POST /api/album-crate/batch`: the process-wide sliding-window rate limiter
  (`rlStore` and `rateLimit`) as a class with a mutable map, and the
  handler's check order.
- The Eras page: the loop that groups albums by release year into a `Map`,
  and the comparator sort that orders the years newest first with "Unknown"
  last.
- The player bar's `msToMinSec`.
- The next-auth `jwt` and `session` callbacks, and how
  `refreshSpotifyAccessToken` merges the token endpoint's reply into the
  token.

Every external collaborator is a parameter: the session, the environment,
the Spotify endpoints, the database queries, the completion API,
`JSON.parse` and the clock. A handler is a function of them, and a JSON
answer is a `Response` (a body with 200, or a status with an `{error}`
message).

Modules, one per file:

| module | what it holds |
|---|---|
| `Wrappers` | `Option` |
| `JsonValue` | JSON values, JavaScript truthiness, property reads, `filter(isString)` |
| `Text` | decimal rendering, `padStart`, `trim`, `join` |
| `Seqs` | `filter`, `slice`, `Array.from(new Set(...))`, chunking |
| `OrderedMap` | a JavaScript `Map` as an insertion-ordered list of entries |
| `Requests` | the environment, the session, the development bypass, responses |
| `Enrichment` | the chunked fetch loops and the genre merge |
| `Suggest` | the pure steps of the suggest route |
| `SuggestRoute` | the suggest handler |
| `BatchRoute` | the rate limiter class and the batch handler |
| `Eras` | the grouping loop and the sort |
| `PlayerBar` | `msToMinSec` |
| `SpotifyToken` | the refresh merge |
| `AuthCallbacks` | the `jwt` and `session` callbacks |

Behaviour of the code worth noting:

- A crate the caller does not own yields a 404 error.
- An empty `album_ids` list in the batch route is answered with
  `{updated: 0}` and status 200.
- In the suggest route, a missing completion key is checked before the body
  is read, so a missing key with a blank `crate_id` gives a 500.
- Enrichment failures are not all swallowed alike. A chunk request answered
  with a non-2xx status is skipped and the other chunks still count. Only a
  thrown error drops all genres.

## Model

| member | source | states |
|---|---|---|
| Suggest.ClampLimit | src/app/api/crates/suggest/route.ts:94 | the limit lies in [1, 500]; absent means 500; a value inside the range is kept; values below and above saturate |
| Suggest.ClampOffset | src/app/api/crates/suggest/route.ts:95 | the offset lies in [0, 5000]; absent means 0; a value inside the range is kept; values below and above saturate |
| Suggest.NormalizeCrateId | src/app/api/crates/suggest/route.ts:93 | a falsy `crate_id` becomes ""; a string is trimmed; a TypeError happens exactly when the value is truthy and not a string |
| Suggest.CrateIdBlankIffRejected | src/app/api/crates/suggest/route.ts:93-101 | a string `crate_id` normalises to "" (and so is rejected) if and only if it is whitespace only |
| Text.TrimEmptyIffBlank | src/app/api/crates/suggest/route.ts:93 | `trim()` gives "" exactly for a whitespace-only string |
| Text.Trim | src/app/api/crates/suggest/route.ts:93 | the result is a contiguous part of the input with only whitespace around it, and it neither starts nor ends with whitespace |
| JsonValue.StringArray | src/app/api/crates/suggest/route.ts:96-98 | a non-array gives []; an array gives exactly its string elements |
| JsonValue.StringItemsInOrder | src/app/api/crates/suggest/route.ts:97 | the strings kept are a subsequence of the array, so their order is kept |
| JsonValue.StringItemsCount | src/app/api/crates/suggest/route.ts:97 | as many strings come out as the array holds |
| Suggest.ExcludeCandidates | src/app/api/crates/suggest/route.ts:133-134 | the candidates are a subsequence of the raw rows; none is excluded; every raw row that is not excluded is kept |
| Suggest.ExcludeNothing | src/app/api/crates/suggest/route.ts:133-134 | with an empty exclusion list every raw row is a candidate, in order |
| Suggest.PromptLines | src/app/api/crates/suggest/route.ts:166-174 | one line per candidate, in order; each line starts with the candidate's id followed by a space, a vertical bar and a space |
| Suggest.YearPartDecodes | src/app/api/crates/suggest/route.ts:171 | the year segment is present iff the year is truthy, and its digits parse back to the year |
| Text.IntToStringRoundTrip | src/app/api/crates/suggest/route.ts:171 | an integer's decimal form parses back to the same integer |
| Suggest.GenrePartDecodes | src/app/api/crates/suggest/route.ts:167-168 | the genre segment is present iff the album has genres; if no genre contains ';', the list splits back into exactly those genres |
| Text.JoinSplitRoundTrip | src/app/api/crates/suggest/route.ts:168 | `join("; ")` of non-empty, semicolon-free parts splits back into the same parts |
| Suggest.KeptSuggestions | src/app/api/crates/suggest/route.ts:235-238 | exactly the first 30 admissible suggestions are kept, in the model's order, or all of them when fewer are admissible |
| Suggest.InfoByIdGet | src/app/api/crates/suggest/route.ts:241 | `infoById.get(id)` is the last candidate carrying `id`, or nothing when no candidate does |
| Suggest.LastWithSpec | src/app/api/crates/suggest/route.ts:241 | the last-carrier lookup fails iff no candidate has the id; otherwise it returns the candidate at the last position with that id |
| Suggest.EnrichSuggestion | src/app/api/crates/suggest/route.ts:242-249 | the id comes from the answer and names a candidate; the score is kept only when it is a number; the model's reason is passed on unchanged when truthy and dropped otherwise; the display fields come from the last candidate with that id |
| Suggest.FilterSuggestions | src/app/api/crates/suggest/route.ts:236-249 | at most 30 suggestions, each naming a candidate, one per kept suggestion with the same id |
| SuggestRoute.Answer | src/app/api/crates/suggest/route.ts:235-238 | a TypeError (500) happens exactly for a `null` parse or truthy non-array `suggestions`; a missing list gives no suggestions; an answer names only candidates |
| SuggestRoute.HandleCompletion | src/app/api/crates/suggest/route.ts:209-233 | a thrown call gives 500 with its message; a non-2xx status gives the upstream message, or "OpenAI error <status>"; unparsable content gives the non-JSON message; missing content gives no suggestions; success names only candidates |
| SuggestRoute.ExcludedNeverSuggested | src/app/api/crates/suggest/route.ts:133-238 | an answer drawn from the filtered candidates never names an excluded album |
| SuggestRoute.FromCandidates | src/app/api/crates/suggest/route.ts:133-138 | no candidate left means `{suggestions: [], candidates_count: 0}`; errors are 500; at most 30 suggestions, none excluded |
| SuggestRoute.Ask | src/app/api/crates/suggest/route.ts:140-233 | every failure of the completion step is a 500; an answer carries at most 30 suggestions, each naming a candidate, and the number of candidates |
| SuggestRoute.Handle | src/app/api/crates/suggest/route.ts:103-131 | 401 iff the caller is anonymous; errors are 401, 404 or 500; success needs Supabase configured and a known caller, and carries at most 30 suggestions, none excluded |
| SuggestRoute.Post | src/app/api/crates/suggest/route.ts:79-131 | a missing completion key gives 500 first; 400 iff the key is set and the `crate_id` is blank; 401 iff the id is given and the caller is anonymous; 404 and success only past both checks; success never names an excluded album |
| SuggestRoute.BlankCrateIdRejected | src/app/api/crates/suggest/route.ts:99-101 | a whitespace-only `crate_id` gives 400, whoever calls and whatever the services answer |
| SuggestRoute.BypassIgnoresSpotify | src/app/api/crates/suggest/route.ts:143 | under the development bypass, neither Spotify's `/me` nor the enrichment endpoints affect the answer |
| Requests.ResolveCaller | src/app/api/crates/suggest/route.ts:76-77 | the bypass applies iff there is no token, a dev user id is set and the environment is not production; otherwise the caller is anonymous iff the session has no token |
| Enrichment.AlbumArtists | src/app/api/crates/suggest/route.ts:40-43 | an album's entry is keyed by its id and holds exactly the non-empty artist ids of its `artists`, in their order |
| Enrichment.ArtistGenres | src/app/api/crates/suggest/route.ts:67-69 | an artist's entry is keyed by its id and holds its first five genres, or all of them when it has fewer |
| Enrichment.FetchInChunks | src/app/api/crates/suggest/route.ts:29-44 | the loop over slices of `size` ids computes the chunk walk over the ids cut into chunks |
| Enrichment.FetchAlbumsArtists | src/app/api/crates/suggest/route.ts:22-46 | `fetchAlbumsArtists` is the walk over chunks of 20 album ids |
| Enrichment.FetchArtistsGenres | src/app/api/crates/suggest/route.ts:48-72 | `fetchArtistsGenres` is the walk over chunks of 50 distinct artist ids |
| Enrichment.WalkSkipsFailedChunk | src/app/api/crates/suggest/route.ts:36 | a chunk answered with a non-2xx status changes nothing: the walk equals the walk without it |
| Enrichment.WalkFailsIffSomeRequestThrew | src/app/api/crates/suggest/route.ts:32-37 | a fetch as a whole fails iff one of its requests threw |
| Enrichment.ArtistsGenresCapped | src/app/api/crates/suggest/route.ts:68 | every artist in the result has at most five genres, and artists are listed once |
| Enrichment.RequestsCoverIds | src/app/api/crates/suggest/route.ts:28-30 | album requests carry 1..20 consecutive ids and together all ids in order; artist requests carry 1..50 distinct ids, each in exactly one request |
| Seqs.Dedup | src/app/api/crates/suggest/route.ts:54 | `Array.from(new Set(s))` has no repeats and the same members as `s` |
| Seqs.DedupFirstSeenOrder | src/app/api/crates/suggest/route.ts:54 | de-duplication lists elements in the order of their first occurrence |
| Seqs.ChunksFlatten | src/app/api/crates/suggest/route.ts:29-30 | the slices, read in order, give back the input |
| Seqs.ChunksSized | src/app/api/crates/suggest/route.ts:29-30 | every slice is non-empty and at most `n` long, and there is the least number of them |
| Enrichment.CollectArtistIds | src/app/api/crates/suggest/route.ts:147-148 | the artist ids of all albums, album after album, in map order |
| Enrichment.AddAll | src/app/api/crates/suggest/route.ts:155 | adding genres to the insertion-ordered set gives the de-duplication of all genres seen so far |
| Enrichment.MergeAlbumGenres | src/app/api/crates/suggest/route.ts:153-158 | the per-album callback computes the merged genres of the album's artists |
| Enrichment.MergedGenresSpec | src/app/api/crates/suggest/route.ts:153-158 | merged genres: exactly min(5, number of distinct genres) of them, no repeats, each a genre of one of the album's artists, in first-seen order, and they are the first five distinct ones (all of them when there are fewer) |
| Enrichment.MergeGenresByAlbum | src/app/api/crates/suggest/route.ts:151-160 | the map loop computes the per-album merge |
| Enrichment.GenresByAlbumGet | src/app/api/crates/suggest/route.ts:151-160 | looking an album up in the merged map gives the merge of exactly its own artists' genres |
| Enrichment.GenresByAlbumCapped | src/app/api/crates/suggest/route.ts:151-160 | the merged map lists each album once, with at most five distinct genres |
| Enrichment.EnrichGenres | src/app/api/crates/suggest/route.ts:142-164 | the `try` block computes the merged genres when both fetches complete, and an empty map when either threw |
| Enrichment.EnrichedGenresCapped | src/app/api/crates/suggest/route.ts:142-164 | after enrichment each album is listed once, with at most five distinct genres |
| BatchRoute.Recent | src/app/api/album-crate/batch/route.ts:15 | the kept timestamps are a subsequence of the stored ones: every stored timestamp after the cutoff, each as often as it is stored, and no other |
| Seqs.FilterMultiset | src/app/api/album-crate/batch/route.ts:15 | `filter` keeps each passing value as often as it occurs and no other value |
| BatchRoute.Step | src/app/api/album-crate/batch/route.ts:11-23 | a call is accepted iff fewer than `limit` recent timestamps remain; the key then keeps the recent ones plus `now` when accepted; no other key changes |
| BatchRoute.StepKeepsBounded | src/app/api/album-crate/batch/route.ts:16-22 | a store holding at most `limit` timestamps per key keeps that bound |
| BatchRoute.BurstVerdicts | src/app/api/album-crate/batch/route.ts:11-23 | within one window, the calls of a burst are accepted until `limit` timestamps are held, and every later one is refused |
| BatchRoute.EleventhBatchRefused | src/app/api/album-crate/batch/route.ts:62-66 | the first ten batch updates of a user within a minute are accepted and the eleventh is refused |
| BatchRoute.Route.RateLimit | src/app/api/album-crate/batch/route.ts:10-23 | `rateLimit` updates `rlStore` and returns the verdict as one step of the limiter |
| BatchRoute.Route.Post | src/app/api/album-crate/batch/route.ts:37-89 | the handler answers and updates `rlStore` as the request's outcome says |
| BatchRoute.Limited | src/app/api/album-crate/batch/route.ts:62-89 | the limiter always runs; 429 iff it refuses; 404 iff an accepted request names a crate the user does not own; success reports the count of updated rows |
| BatchRoute.Handle | src/app/api/album-crate/batch/route.ts:37-89 | the production guard comes first and leaves the store unchanged; an empty id list gives `{updated: 0}`; 401 iff the request gets that far with an anonymous caller; 404, 429 and any change of the store only past those checks |
| BatchRoute.HandleKeepsBounded | src/app/api/album-crate/batch/route.ts:63 | requests keep at most ten timestamps per key in the store |
| BatchRoute.BypassRateLimited | src/app/api/album-crate/batch/route.ts:58-66 | under the development bypass, a request with album ids is refused with 429 iff the limiter refuses the bypass user's key |
| Eras.Group | src/app/eras/page.tsx:45-53 | the grouping loop computes the grouped map of the albums |
| Eras.GroupedKeys | src/app/eras/page.tsx:45-53 | the groups appear in the order their year is first met |
| Eras.GroupedGet | src/app/eras/page.tsx:45-53 | a year's group holds exactly that year's albums in input order; a year without albums has no group |
| Eras.GroupedSize | src/app/eras/page.tsx:45-53 | the groups together hold as many albums as were given |
| Eras.SortEntries | src/app/eras/page.tsx:55-62 | the sort returns a permutation of the entries that is sorted under the comparator |
| Eras.GroupByYear | src/app/eras/page.tsx:44-64 | `grouped` is the loop followed by the sort |
| Eras.ErasKeysUnique | src/app/eras/page.tsx:44-64 | no year appears twice among the eras |
| Eras.ErasAreYears | src/app/eras/page.tsx:44-64 | each era holds exactly the albums of its year, in input order, and is never empty |
| Eras.ErasCoverAlbums | src/app/eras/page.tsx:44-64 | each album's year has an era, and the eras hold as many albums as were given |
| Eras.ErasOrdered | src/app/eras/page.tsx:54-62 | years are strictly descending, and "Unknown", if present, is last |
| PlayerBar.MsToMinSec | src/components/player/PlayerBar.tsx:5-11 | zero and negative inputs read "0:00" |
| PlayerBar.MsToMinSecDecodes | src/components/player/PlayerBar.tsx:5-11 | for a positive input the text is `m:ss`, `ss` is two digits below 60, and `m * 60 + ss` is the whole number of seconds |
| PlayerBar.UnderASecond | src/components/player/PlayerBar.tsx:6-10 | anything under a second reads "0:00" |
| SpotifyToken.Refresh | src/lib/spotify.ts:11-55 | a success takes the new access token, expires `expires_in` seconds later, and keeps the old refresh token unless a new one came; a failure keeps both tokens and sets the expiry to 0 |
| SpotifyToken.RefreshKeepsRefreshToken | src/lib/spotify.ts:39-54 | a token that has a refresh token keeps one whatever the reply |
| AuthCallbacks.JwtCallback | src/lib/auth.ts:21-62 | on sign-in, the account's tokens, the expiry and the user are taken and other claims kept; an unexpired token is returned unchanged; otherwise the refresh result replaces the three token fields |
| AuthCallbacks.Refreshed | src/lib/auth.ts:45-61 | the refresh path changes only the three token fields, as the refresh merge says |
| AuthCallbacks.FailedRefreshRetries | src/lib/auth.ts:40-61 | a still-valid token is returned unchanged; for an expired one a failed refresh sets the expiry to 0, and the next `jwt` call, at any time, takes the refresh path again, also after repeated failures |
| AuthCallbacks.RefreshedTokenReused | src/lib/auth.ts:40-42 | after a successful refresh, the new token is reused without another refresh until it expires |
| AuthCallbacks.SessionCallback | src/lib/auth.ts:63-70 | the session carries the JWT's access token, and the JWT's user when it has one, else the session's own |

## Left out

- Values of `limit` and `offset` that are not JSON numbers (strings, booleans, `NaN`), and JavaScript's coercion of them, are not modelled. Both are `Option<real>`.
- Requests.TypeErrorMessage: the wording of a runtime `TypeError` belongs to the JavaScript engine. The model only fixes that such an error becomes a 500 at the handler's `catch`.
- Requests.BodyErrorMessage: the wording of the error `req.json()` raises belongs to the runtime. It is a placeholder constant.
- The thrown text of `getSpotifyUserId` is not modelled. The `/me` call is a parameter, and its failure message is passed through unchanged.
- The outer `catch`'s "Unknown error" for a thrown non-`Error` value is not modelled. Every failure of a collaborator carries a message.
- The HTTP calls are parameters: Spotify, the Supabase queries, the completion API and `getServerSession`. Request URLs, headers, `encodeURIComponent` and query construction are not modelled.
- The completion payload is not modelled: the model selection (`OPENAI_MODEL`), the temperature and `response_format`.
- `JSON.parse` of the completion content is a parameter. A `None` result plays a thrown parse error.
- Concurrency on `rlStore` is not modelled. Each request runs to completion before the next one starts, and `Date.now()` is the `now` parameter.
- A `null` element in Spotify's `albums` or `artists` answer is not modelled. Spotify sends one for an unknown id, and `a.artists` on it would throw and drop all genres.
- Enrichment.AlbumArtists: an artist id that is a non-string truthy value is not modelled. Artist ids are strings, and `filter(Boolean)` drops the empty ones.
- Eras: a `release_year` that is not a finite number (`NaN`, `Infinity`, a string) is not modelled. It would be grouped under "Unknown", and years are integers here.
- Eras.Group: the in-place `arr.push(a)` on the array held by the `Map` is modelled on values. The loop reassigns the entry, which has the same effect because each array belongs to one key.
- Eras.SortEntries: the engine's sorting algorithm is not modelled. It is an insertion sort under the same comparator, and the outcome is the same because the keys are distinct.
- PlayerBar.MsToMinSec: `NaN` (which reads "0:00") is not modelled, nor the exponent notation of huge numbers. The input is a real number.
- SpotifyToken.Refresh: `expires_in` is taken to be an integer number of seconds.
- SpotifyToken.Refresh: the reasons a refresh fails are not modelled: a network error, an unreadable body, a non-2xx status. All of them lead to the same `catch`. Its `console.error` logging is left out.
- AuthCallbacks.JwtCallback: next-auth's own claims are carried along as an opaque map. Missing `access_token` or `refresh_token` fields on the account are `None`.
- SuggestRoute: a `null` crate description reads as "", which gives the same "(none)" as JavaScript's `||`.
- SuggestRoute.Ask: the Spotify access token is not passed to the two batch endpoints. They are parameters already bound to the caller.
