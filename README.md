# Words playlist: a Dafny model of the word-to-playlist core

The application takes comma-separated words, runs one catalog search per word, shows the
singles each search returned, lets the user tick tracks, and creates a playlist holding the
ticked tracks. This project models the logic behind that page and the small request helper
it uses. It proves properties of the model with Dafny.

- `js.dfy` (module `Js`): the JavaScript built-ins the page relies on. `Option` stands
  for a value that may be `undefined`. `TemplateText` is what `${v}` prints. `Trim` is
  `String.prototype.trim` over the ECMAScript whitespace and line-terminator set. `Split`
  and `Join` are `split`/`join` with a one-character separator.
- `seqs.dfy` (module `Seqs`): `IsSubsequence`, the order fact shared by the result
  filter and the selected-keys list.
- `words.dfy` (module `Words`): the tokenizer of `handleSubmit`.
- `search.dfy` (module `Search`): tracks, the `{chunkChar, data}` batches, and the
  append-only accumulation of search completions.
- `display.dfy` (module `Display`): the single-only filter and the artist attribution text.
  The attribution is defined for any `Wording` of its fixed words, so the proofs about its
  shape do not depend on the literal text; `English` is the wording the list renders.
- `selection.dfy` (module `Selection`): the `selected` object as a class `SelectionStore`.
  It has a key-order field and a `map<string, bool>` field.
- `spotify_service.dfy` (module `SpotifyService`): the token holder class `Spotify`, plus
  the create-playlist and add-tracks requests as data values.
- `home.dfy` (module `Home`): the page state as a class `HomePage` that records its remote
  calls in a trace. `Workflow` is the specification of the create-playlist workflow. Three
  client methods at the end go end to end through the page. `TwoWordSearch` submits two
  words. `TwoAnswers` receives two answers in either order. `TwoTrackPlaylist` ticks two
  tracks and creates a playlist.

Behaviours of the code that the model keeps:

- The attribution is not Oxford style. Every artist but the last renders as `by N, ` and
  the last as `and N.`. Two artists give "by Alice, and Bob.".
- Empty pieces between commas are kept and searched for. Only an entirely empty input is
  ignored.
- There is no re-authentication on a rejected token and there are no named failure
  outcomes. The code returns early at its three guards. A failed user lookup leaves `user`
  undefined, so reading `user.id` throws before the create call. A rejected create promise
  leaves `createPlaylist` undefined, so reading `.id` throws before the add call.
- A create response that is not an error at the promise level, such as a non-2xx answer
  with a JSON error body, has no `id`. The add call is still made, addressed to
  `.../playlists/undefined/tracks`. The model keeps this. `CreateAnswered(None)` leads to an
  add request whose URL reads back the playlist "undefined".
- `createPlaylist` in the helper has no token guard. Without a token it still builds the
  request, with the header `Bearer undefined`.

## Model

| member | source | states |
|---|---|---|
| `Js.Trim` | src/pages/index.tsx:94 | the trimmed string is empty exactly when the input is all whitespace; otherwise it neither starts nor ends with whitespace; it is never longer than the input |
| `Js.TrimRemovesSurroundingWhitespace` | src/pages/index.tsx:94 | whitespace + core + whitespace trims to exactly that core, when the core has no whitespace at its ends: trim removes the surrounding whitespace and nothing else |
| `Js.TrimIdempotent` | src/pages/index.tsx:94 | trimming twice gives the same result as trimming once |
| `Js.Split` | src/pages/index.tsx:94 | `split(",")` gives one more piece than there are commas, and no piece contains a comma |
| `Js.JoinSplit` | src/pages/index.tsx:94 | joining the pieces with the separator gives back the input: splitting loses nothing |
| `Js.SplitJoin` | src/pages/index.tsx:94 | splitting the join of separator-free pieces gives back exactly those pieces, in order |
| `Words.Tokenize` | src/pages/index.tsx:90-99 | an input gives no queries if and only if it is empty |
| `Words.TokenCount` | src/pages/index.tsx:92-94 | a non-empty input with k commas gives k + 1 queries; none contains a comma or starts or ends with whitespace |
| `Words.TokenizeJoined` | src/pages/index.tsx:94-98 | an input that is the comma-join of comma-free pieces gives exactly those pieces trimmed, in input order, empty ones included |
| `Words.WhitespaceOnlyInput` | src/pages/index.tsx:92-94 | a non-empty input made only of whitespace gives one query, the empty string |
| `Words.SunMoon` | src/pages/index.tsx:94 | "sun, moon" gives the queries "sun" then "moon" |
| `Search.AcceptedAppend` | src/pages/index.tsx:79-88 | handling completions one after another appends the same batches as handling them all at once: accumulation is append-only and composes |
| `Search.AcceptedCountsSuccesses` | src/pages/index.tsx:80-87 | exactly one batch per successful search; every batch carries the query it answered and that search's tracks |
| `Search.AllFoundAccepted` | src/pages/index.tsx:82 | when every search succeeds, the i-th completion becomes the i-th new batch, tagged with its query |
| `Search.FailuresAddNothing` | src/pages/index.tsx:84-86 | failed searches add no batch |
| `Display.Shown` | src/pages/index.tsx:210-212 | a track is shown if and only if it is in the batch and its album type is "single"; each single appears as many times as in the batch, and no other track appears |
| `Display.ShownKeepsOrder` | src/pages/index.tsx:210-212 | the shown tracks keep the order of the batch |
| `Display.NoSinglesShowsNothing` | src/pages/index.tsx:212 | a batch without singles shows nothing |
| `Display.AttributionIsPhrase` | src/pages/index.tsx:223-245 | the per-artist spans concatenate to: nothing for no artist, "by X." for one, and for n ≥ 2 "by Aᵢ, " for each i < n followed by "and Aₙ." |
| `Display.TwoArtists` | src/pages/index.tsx:223-245 | two artists read "by Alice, and Bob." |
| `Display.ThreeArtists` | src/pages/index.tsx:223-245 | three artists read "by Alice, by Bob, and Cara." |
| `Selection.Toggled` | src/pages/index.tsx:103-115 | after a toggle, the key is present and selected if and only if it was not selected before (absent counts as not selected); no other key changes |
| `Selection.SelectedKeys` | src/pages/index.tsx:117-119 | a key is listed if and only if it is a key of the store mapped to `true`, and the listed keys keep the key order |
| `Selection.SelectedKeysDistinct` | src/pages/index.tsx:117-119 | the listed keys are distinct |
| `Selection.ToggleTwice` | src/pages/index.tsx:103-115 | toggling a key twice restores whether it is selected and every other key; a key that was absent is now present as `false` |
| `Selection.ToggleSelectedKeys` | src/pages/index.tsx:103-119 | after a toggle the selected keys are the old ones, with the toggled key added if it was unselected or removed if it was selected |
| `Selection.SelectionStore.constructor` | src/pages/index.tsx:101 | the store starts empty |
| `Selection.SelectionStore.Toggle` | src/pages/index.tsx:103-115 | the flags become the toggled flags; an existing key keeps its position and a new key goes last; the store invariant (distinct keys, order matches the map) is kept |
| `Selection.SelectionStore.AllSelected` | src/pages/index.tsx:117-119 | exactly the keys mapped to `true`, each once, in key-insertion order |
| `SpotifyService.CreateTargetsUser` | src/utils/spotifyservice.ts:31-32 | the create request's URL is `/v1/users/{userId}/playlists` and reads back exactly the user id it was built for |
| `SpotifyService.AddTargetsPlaylist` | src/utils/spotifyservice.ts:51 | the add request's URL is `/v1/playlists/{playlist_id}/tracks` and reads back exactly the playlist id it was built for |
| `SpotifyService.EndpointsDistinct` | src/utils/spotifyservice.ts:31-51 | no add-tracks URL is a create-playlist URL |
| `SpotifyService.CreateBodyFromParams` | src/utils/spotifyservice.ts:34-43 | the create body takes name and description from the arguments; it is public if and only if `public` was given as `true`, so an omitted flag means `false` |
| `SpotifyService.Spotify.constructor` | src/utils/spotifyservice.ts:3-5 | a new helper has neither token |
| `SpotifyService.Spotify.SetAccessToken` | src/utils/spotifyservice.ts:7-9 | the access token becomes the given value; the refresh token is unchanged |
| `SpotifyService.Spotify.SetRefreshToken` | src/utils/spotifyservice.ts:16-18 | the refresh token becomes the given value; the access token is unchanged |
| `SpotifyService.Spotify.GetAccessToken` | src/utils/spotifyservice.ts:11-14 | "No access token set" until an access token was set, then the last one set |
| `SpotifyService.Spotify.GetRefreshToken` | src/utils/spotifyservice.ts:20-23 | "No refresh token set" until a refresh token was set, then the last one set |
| `SpotifyService.Spotify.CreatePlaylist` | src/utils/spotifyservice.ts:25-46 | always builds the request, with no token guard, addressed to the given user; without a token the header is "Bearer undefined" |
| `SpotifyService.Spotify.AddTracksToPlaylist` | src/utils/spotifyservice.ts:48-60 | sends nothing and returns "No access token set" if and only if no access token is set; otherwise sends the given uris in order at position 0, addressed to the given playlist |
| `Home.SubmitSearches` | src/pages/index.tsx:90-99 | an empty submission searches nothing; otherwise there are k + 1 searches for k commas, the i-th for the i-th piece trimmed |
| `Home.NoCallsIffGuarded` | src/pages/index.tsx:126-134 | the workflow makes no remote call if and only if nothing is selected, there is no session token, or the name is empty |
| `Home.GuardOrder` | src/pages/index.tsx:128-134 | the guards run in order (selection, then session token, then name), and the first that fails decides where the run stops |
| `Home.CallOrder` | src/pages/index.tsx:137-164 | at most the user lookup, create and add, each once, in that order; a failed lookup stops before create and a rejected create stops before add |
| `Home.CreateUsesDraftAndUser` | src/pages/index.tsx:137-153 | once the guards pass and the user is known, create goes to that user with the draft's name and description, private, with the session token |
| `Home.AddUsesCreatedIdAndSelection` | src/pages/index.tsx:147-165 | once create has answered, add is always sent, to the answered id ("undefined" when absent), with the whole `allSelected` list in order at position 0 |
| `Home.HomePage.constructor` | src/pages/index.tsx:51-59 | the page starts with no words, no batches, nothing selected, an empty draft and no call made |
| `Home.HomePage.AccessToken` | src/pages/index.tsx:53 | the session token takes priority when there is one; the result is undefined only when both the session token and the fallback token are |
| `Home.HomePage.Submit` | src/pages/index.tsx:90-99 | the trace grows by exactly the searches of the tokenized words; nothing else changes |
| `Home.HomePage.SearchEach` | src/pages/index.tsx:96-98 | one search call per query, in query order |
| `Home.HomePage.Receive` | src/pages/index.tsx:79-88 | a successful completion appends one batch tagged with its query; a failed one leaves the list unchanged |
| `Home.HomePage.ReceiveAll` | src/pages/index.tsx:79-88 | completions handled in arrival order append exactly their accepted batches after the existing ones |
| `Home.HomePage.ToggleOption` | src/pages/index.tsx:103-115 | the selection becomes its toggle at the given uri |
| `Home.HomePage.CreatePlaylist` | src/pages/index.tsx:126-165 | the trace grows by exactly the calls of `Workflow` for the current selection, session token, draft and remote outcomes; without a session token nothing is called, whatever the fallback token |

## Left out

- `getStaticProps` (src/pages/index.tsx:14-49): a network fetch of a client-credentials token. Its result is the `staticToken` parameter of `HomePage`.
- The `spotify-web-api-js` calls `getMe` and `searchTracks` are a foreign library. Their outcomes are inputs: the user id or a failure, and a sequence of search completions.
- `fetch`, promise chaining and JSON parsing are left out. A request is a data value; the create answer is `CreateOutcome`. The handling of the add response (src/utils/spotifyservice.ts:62-68) only logs, so it is left out.
- Concurrent search completions are not modelled. Their arrival order is an input sequence to `ReceiveAll`.
- next-auth sign-in and sign-out, `src/component/modal.tsx`, JSX layout, checkboxes, CSS and `console.log` are presentation or authentication UI. The session token is a field of `HomePage`.
- The playlist-name input handler (src/pages/index.tsx:262) is not modelled. It replaces the draft with `{name}` and drops `desc`. The draft is a field that clients set directly.
- Home.HomePage.CreatePlaylist: the page creates its request helper on every render and calls `setAccessToken` even with an undefined token. The model sets the helper's token only when one is defined. For a fresh helper this is the same state.
- Selection.SelectionStore.AllSelected: the result is in key-insertion order. JavaScript puts integer-like keys first in ascending order. Track uris are never integer-like, so the model does not represent that ordering.
- `Js.Trim` uses the whitespace set as an explicit list. It includes the Unicode space separators U+1680, U+2000 to U+200A, U+202F, U+205F and U+3000. Later Unicode versions are not tracked.
- The `display_name` that `getUser` returns is never used, so it is left out.
- `src/types/playlist.ts` contains only type declarations. Only the `id` of the created playlist is modelled.
