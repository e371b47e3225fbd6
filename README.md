# own-playlist: playlist state, share store and token cache

A Dafny model of the logic in the own-playlist application, a web app for
searching a music catalog, collecting up to ten liked tracks and sharing
them through a short link. The model covers three pieces.

- **The client playlist** (`client/src/App.js`, and the stand-alone
  `client/src/ShareCreatePage.jsx`). This is an ordered list of tracks keyed
  by `id` and capped at `MAX_PLAYLIST = 10`. A toggle removes every entry
  with the track's id, or appends the track, or raises the cap notice when
  the list is full. Clearing needs confirmation. At mount the list is read
  back from local storage and truncated to ten. The share button sends a
  request only for a non-empty list and a non-blank nickname, and it sends
  the trimmed nickname. The list transforms are functions in module
  `Playlist`. The components are classes (`App.MainApp`,
  `ShareCreate.ShareCreatePage`) whose methods update the state.
- **The share-snapshot store** (`server/server.js`). This maps ids to
  `{createdAt, ownerName, playlist}`. POST rejects a missing, non-array or
  empty playlist with 400. Otherwise it normalises the owner name to its
  trim, or to `"Someone"`, and writes the snapshot under a fresh id. GET
  answers the snapshot or 404. The store is the `db` field of class
  `Server.Backend`. The id generator and the clock are parameters.
- **The catalog token cache** (`server/server.js`, `getAccessToken`). The
  cached token is reused while it is set and `now < tokenExpiresAt`.
  Otherwise it is refreshed, and the new expiry is
  `now + (expires_in - 60) * 1000`. A rejected refresh throws and leaves the
  cache as it was. The search handler's guards sit on top of it.

JavaScript's `String.prototype.trim` is modelled over the ECMAScript
white-space and line-terminator characters (module `JsString`).
`JSON.parse` is a function parameter that returns `None` when it throws.
Local-storage reads, `window.confirm`, the clock, the id generator and the
catalog's answers are all inputs.

Two facts about the code are worth stating up front:
- Rehydration keeps a stored list as it is, duplicates included: nothing
  deduplicates on load.
- Generated ids have at most eight characters.

## Model

| member | source | states |
|---|---|---|
| `JsString.Trim` | client/src/App.js:175-180 | the trim of a name is trimmed at both ends and no longer than the name |
| `JsString.TrimIsSlice` | client/src/App.js:180 | the trim is the slice of the name between a blank prefix and a blank suffix |
| `JsString.TrimOfTrimmed` | server/server.js:133-134 | a name with no white space at either end is its own trim |
| `JsString.TrimIdempotent` | server/server.js:133-134 | trimming twice is trimming once |
| `JsString.TrimEmptyIffBlank` | client/src/App.js:175 | `!name.trim()` holds exactly when every character of the name is white space |
| `Playlist.HasId` | client/src/App.js:147 | `some` on ids: the id is present exactly when some track of the list carries it |
| `Playlist.RemoveId` | client/src/App.js:149 | the filter keeps exactly the entries whose id differs; it shrinks the list iff the id was present |
| `Playlist.RemoveIdAppend` | client/src/App.js:149 | the filter distributes over concatenation, so kept entries stay in their original order |
| `Playlist.RemoveAbsentId` | client/src/App.js:149 | filtering out an absent id returns the list unchanged |
| `Playlist.RemoveIdKeepsIds` | client/src/App.js:149 | every id left after the filter was in the list and is not the removed id |
| `Playlist.ConsKeepsUnique` | client/src/App.js:149 | a track put in front of a list without its id keeps ids unique |
| `Playlist.RemoveIdKeepsUnique` | client/src/App.js:149 | the filter preserves unique ids |
| `Playlist.AppendKeepsUnique` | client/src/App.js:155 | appending a track whose id is absent preserves unique ids |
| `Playlist.ToggleOutcomeOf` | client/src/App.js:147-154 | the handler removes iff the id is present, raises the cap notice iff it is absent at 10 or more, and appends iff it is absent below 10 |
| `Playlist.Toggle` | client/src/App.js:147-155 | after a toggle the id is present exactly when it was absent and there was room; the list grows by at most one, and only below the cap |
| `Playlist.TogglePresentRemoves` | client/src/App.js:147-149 | toggling a present track leaves no entry with its id and keeps every entry with another id |
| `Playlist.TogglePresentKeepsOrder` | client/src/App.js:147-149 | toggling a present track filters each part of the list in place, so the other entries keep their order |
| `Playlist.ToggleAbsentWithRoom` | client/src/App.js:150-155 | toggling an absent track below the cap appends it after the unchanged earlier entries |
| `Playlist.ToggleAbsentWhenFull` | client/src/App.js:151-154 | toggling an absent track at the cap leaves the list unchanged and raises the cap notice |
| `Playlist.ToggleInvariant` | client/src/App.js:147-155 | one toggle keeps a list within the cap within it and keeps ids unique |
| `Playlist.ToggleAllWithinCap` | client/src/App.js:146-157 | no sequence of toggles takes a list of at most 10 beyond 10 |
| `Playlist.ToggleAllKeepsUnique` | client/src/App.js:146-157 | no sequence of toggles breaks unique ids |
| `Playlist.ToggleTwiceRestores` | client/src/App.js:147-155 | adding an absent track and toggling it again returns the original list exactly |
| `Playlist.ToggleTwiceMembership` | client/src/App.js:147-155 | within the cap, two toggles of one track restore whether its id is present |
| `Playlist.SliceTo` | client/src/App.js:96 | `slice(0, n)` is the prefix of length `min(length, n)` |
| `Playlist.Rehydrate` | client/src/App.js:91-100 | a missing, empty, unparsable or non-array stored value gives `[]`; a stored array gives its first `min(n, 10)` elements |
| `Playlist.RehydrateKeepsUnique` | client/src/App.js:96 | a stored list with unique ids rehydrates to one with unique ids |
| `Playlist.ShareGuard` | client/src/App.js:169-191 | no request for an empty list or a blank name; otherwise the request carries the trimmed, non-empty name and the unchanged list |
| `App.MainApp.constructor` | client/src/App.js:91-109 | the playlist is the rehydrated stored list, within the cap; the nickname is the stored one or `""` |
| `App.MainApp.ToggleLike` | client/src/App.js:146-157 | the new list is the toggle of the old one, with the outcome; the cap and unique ids are preserved; the nickname is unchanged |
| `App.MainApp.ClearPlaylist` | client/src/App.js:159-166 | an empty list gives the notice; otherwise the list is emptied iff the user confirms |
| `App.MainApp.CreateShare` | client/src/App.js:169-191 | the decision is the share guard applied to the current list and nickname |
| `ShareCreate.ShareCreatePage.constructor` | client/src/ShareCreatePage.jsx:10-16 | the page starts loading with an empty list and an empty name |
| `ShareCreate.ShareCreatePage.Load` | client/src/ShareCreatePage.jsx:18-38 | the list is the rehydrated stored list; the saved name is adopted only when it is non-empty and the stored list did not fail to parse; loading ends |
| `ShareCreate.ShareCreatePage.CreateShare` | client/src/ShareCreatePage.jsx:40-61 | the share guard decides; an empty list also navigates home |
| `Server.Fresh` | server/server.js:66 | a null or empty cached token is never reused, nor any token at or after its expiry; a truthy one before expiry is |
| `Server.ExpiryAfterRefresh` | server/server.js:90 | a refreshed token outlives the refresh time iff its lifetime exceeds the 60-second margin, and never by more than its lifetime |
| `Server.TokenReuseWindow` | server/server.js:66-90 | a non-empty token refreshed at `t0` is reused at `t1` exactly while `t1 - t0 < (expires_in - 60) * 1000` |
| `Server.ShortLivedTokenNotReused` | server/server.js:90 | a token granted for at most 60 seconds is never reused |
| `Server.PlaylistAccepted` | server/server.js:126 | a missing, non-array or empty playlist is refused; any array with at least one track is accepted |
| `Server.DefaultOwnerTrimmed` | server/server.js:135 | the default label `"Someone"` is non-empty and trimmed |
| `Server.SafeName` | server/server.js:132-135 | the stored name is the trim of a string owner name that is not blank, and `"Someone"` otherwise; it is never empty |
| `Server.SafeNameOfTrimmed` | server/server.js:132-135 | a non-empty trimmed name is stored unchanged |
| `Server.SafeNameIdempotent` | server/server.js:132-135 | normalising an already stored name changes nothing |
| `Server.OwnerOrDefault` | server/server.js:171 | the empty (falsy) stored name reads as `"Someone"`; any other name is returned as stored |
| `Server.Lookup` | server/server.js:158-174 | an id answers 404 iff it is not stored; a stored id answers its playlist and its name, defaulted |
| `Server.OtherSharesUnchanged` | server/server.js:140-144 | writing one id leaves the lookup of every other id unchanged |
| `Server.ShareRoundTrip` | server/server.js:137-173 | after an accepted POST stores under `id`, GET `id` returns the posted playlist and the normalised name |
| `Server.ClientShareStoredAsSent` | server/server.js:123-144 | a non-empty playlist with a non-blank name passes the client's share guard; the request is accepted, stored with the trimmed name unchanged, and read back as sent |
| `Server.LookupAsWritten` | server/server.js:162-173 | the lookup as written: inherited `Object.prototype` names answer success with `"Someone"` and no playlist; other ids agree with `Lookup` |
| `Server.PrototypeNameFoundAsWritten` | server/server.js:162 | GET `toString` on a store without it answers success as written, where 404 is meant |
| `Server.IsGeneratedId` | server/server.js:58-60 | a generated id (at most eight lower-case base-36 digits) has no `/`, `?` or `#`, so the share link ends in a single path segment |
| `Server.GeneratedIdsAvoidPrototype` | server/server.js:58-60 | no generated id (at most eight lower-case base-36 digits) is an inherited name, so POSTed shares read back the same either way |
| `Server.Backend.constructor` | server/server.js:35-36 | the token cache starts empty with expiry 0; the store holds what was persisted |
| `Server.Backend.GetAccessToken` | server/server.js:63-93 | reuse without fetching iff the cache is fresh; a rejected refresh fails and leaves the cache; a granted one caches the token with expiry `now + (expires_in - 60) * 1000` |
| `Server.Backend.Search` | server/server.js:96-120 | a missing or empty `q` answers 400 and leaves the cache alone; a failed token or catalog fetch answers 500; otherwise the catalog's answer is passed through |
| `Server.Backend.PostShare` | server/server.js:123-155 | an unacceptable playlist answers 400 and leaves the store; otherwise the store gains the snapshot under `id`, other ids are unchanged, and the answer carries `id` and its link |
| `Server.Backend.GetShare` | server/server.js:158-174 | the answer is the lookup of `id` in the store: 404 iff absent, otherwise its playlist and defaulted name |

## Findings

| source | as written | input that shows it | evidently intended | confidence | as-written member | corrected member |
|---|---|---|---|---|---|---|
| server/server.js:162 | `!db[id]` tests a plain object, so the names it inherits from `Object.prototype` are truthy; GET answers `{success: true, ownerName: "Someone"}` with no playlist | `GET /api/share/toString` on a store with no share `toString` | 404 for every id that was never stored | not executed; high | `Server.LookupAsWritten`, shown by `Server.PrototypeNameFoundAsWritten` | `Server.Lookup`, used by `Server.Backend.GetShare` |

Generated ids never collide with these names (`Server.GeneratedIdsAvoidPrototype`).
So the bug only affects GET requests for ids that were never stored.

## Left out

- JSX rendering, React hook plumbing, `HeaderAction`, tabs, scroll reset and the `sharing` flag: these are UI with nothing to state.
- Local-storage writes (client/src/App.js:119-126, 181; client/src/ShareCreatePage.jsx:53): browser side effects. Only the reads at mount are modelled, as inputs.
- `localStorage.getItem` throwing (storage disabled): not modelled. Storage reads are plain inputs.
- The client's search handler (client/src/App.js:128-144): a fetch and a render.
- What happens after a share request is sent (client/src/App.js:194-208; client/src/ShareCreatePage.jsx:66-78): the fetch, the clipboard, alerts and navigation. The model ends with the request decision.
- `JSON.parse` and JSON values: parsing is a parameter. Arrays are modelled as arrays of tracks. Stored arrays whose elements are not track objects are not modelled.
- `fetch` to the catalog, the Basic-auth header and the search URL encoding: foreign network calls. Their results are abstract inputs. A missing `access_token` is modelled as the empty string, which is falsy like `undefined`.
- `loadDB`/`saveDB` (server/server.js:39-56): file I/O and serialisation. The store is an in-memory map, so an unreadable file read as `{}` is not modelled. Hand-edited entries with falsy or non-string fields are not modelled either.
- `saveDB` failures: `saveDB` catches and logs a write error (server/server.js:51-55), and POST still answers `success: true` (server/server.js:146-154). The share is then lost, and a later GET answers 404. `PostShare` always updates `db`, so `ShareRoundTrip` and `ClientShareStoredAsSent` hold only when the file write succeeds.
- `generateId` (server/server.js:58-60) and `Date.now()`: the id and the time are parameters. Ids are not assumed unique, and a collision overwrites.
- A request with no JSON body, where destructuring `req.body` throws, and a repeated `q` parameter that arrives as an array: Express behaviour outside the core.
- JavaScript numbers are doubles. Times and `expires_in` are modelled as unbounded integers, so fractional or non-numeric `expires_in` is not covered.
- Express wiring, CORS, request logging and the two `app.listen` calls.
- Races between concurrent share writes or token refreshes: concurrency, not a designed guarantee.
- client/src/SharePage.jsx (its name default repeats server/server.js:171) and client/src/apiConfig.js (one constant): SharePage.jsx is not part of this model.
