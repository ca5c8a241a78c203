# Moody, modelled in Dafny

Moody is a React single-page application. The user describes a mood, or
picks one of nine preset moods. A generative model then proposes songs, and
the app plays them through an embedded YouTube player. The app also keeps a
"Recent History" list and a "Favorites" list in the browser's local storage.

This project models the parts of the app whose behaviour can be stated
precisely:

- **`VideoId`** is `getYoutubeId`. It reproduces the one regular expression
  as a scan over the string:
  - the greedy `^.*` settles on the rightmost marker on the first line;
  - the five marker alternatives;
  - the optional `?`, `v` and `=`;
  - the `[^#&?]*` group;
  - the 11-character guard.

  `YoutubeIdMatchesRegex` proves that the scan finds the match the regular
  expression describes.
- **`SongLists`** holds the pure list computations of `addToHistory`,
  `toggleFavorite` and `isFavorite`. Each list is keyed by `youtubeQuery`
  and ordered most recent first.
- **`Recommendations`** is the recommendation service:
  - the preset prompt lookup with its fallback to the id;
  - the one-to-one mapping of the model's JSON array into songs;
  - the ids `ai-<time>-<index>`;
  - the catch-all that returns an empty list.
- **`Playback`** is the `Player` component: what it shows, and its
  `showFallback` flag as a small class.
- **`FavoriteButton`** is the heart button under the player, written both as
  the JavaScript behaves and as corrected. The two differ on an empty
  playlist (see Findings).
- **`Controller`** is the `App` component as a class. It has the component's
  state fields and the store, and one method per event handler. `Valid()`
  ties the store to the lists. `Healthy()` is the pair of list invariants
  that every handler keeps: distinct keys, and at most 20 history entries.
- **`Types`** and **`Wrappers`** hold the records, the screen enumeration,
  the catalogue of nine moods, and `Option`.

Outside inputs are parameters:
- **The generative-model call** is `gemini: string -> ModelReply`, which
  returns either `Failed` or `Parsed(items)`. `Failed` covers a transport
  error, a reply that is not JSON, and JSON that is not an array.
- **`Date.now()`** is `clock: nat -> nat`. The source reads the clock once
  per array element, inside the map callback, so the clock is indexed by
  element.
- **`localStorage`** is a `map<string, seq<Song>>`.

Strings are `seq<char>`: one character is one Unicode scalar value, where
JavaScript counts UTF-16 code units (see "## Left out" for where this
matters).

Two points where the code departs from what one would read off its types or
its button labels; the model follows the code in both:

- **Refresh of a custom playlist** (`App.tsx:258`) calls
  `handleCustomMoodSubmit`, which re-reads the input field, not the stored
  mood's description. `Controller.App.Valid` proves that the two always
  coincide on the playlist screen, because the field can be edited only on
  the home screen. So `Refresh` can be stated with the description.
- **The `Song` record** (`types.ts:2-8`) has no `youtubeUrl`, yet
  `services/geminiService.ts:47` writes one and `App.tsx:66` reads it. The
  model's `Song` has an optional `youtubeUrl`.

`App.tsx:155` and `App.tsx:377` write the mood icons as the UTF-8 bytes of
U+2728 and U+1F4BF read as Windows-1252 (`âœ¨`, `ðŸ’¿`). The model uses the two
characters; no code path reads an icon.

## Model

| member | source | states |
|---|---|---|
| `VideoId.YoutubeId` | App.tsx:10-15 | null for the empty string; any id it returns has exactly 11 characters and none of `#`, `&`, `?` |
| `VideoId.YoutubeIdMatchesRegex` | App.tsx:12-14 | the scan returns `g` exactly when the input is non-empty, `g` has 11 characters, and `g` is the maximal `[^#&?]*` run after `\??v?=?` following the rightmost marker match on the first line |
| `VideoId.MarkerLength` | App.tsx:12 | the length of the marker alternative starting at a position: 0, or 2, 5, 6 or 9, beginning with `y`, `v`, `/`, `e` or `w` and ending in `/` or `?` |
| `VideoId.LastMarker` | App.tsx:12 | the downward scan finds the rightmost marker at or before a bound, and reports none only when no marker starts in that range |
| `VideoId.RunEnd` | App.tsx:12 | the run from a position contains no stop character and ends at a stop character or at the end of the string |
| `VideoId.PlainQueryHasNoId` | App.tsx:10-15 | a search phrase with no `/` and no `?` yields no id, under both patterns |
| `VideoId.WatchLinkYieldsId` | App.tsx:12-14 | `https://www.youtube.com/watch?v=<id>` followed by `&`/`#` parameters yields the id |
| `VideoId.ShortLinkYieldsId` | App.tsx:12-14 | `https://youtu.be/<id>` yields the id when the id does not start with `v` |
| `VideoId.EmbedLinkYieldsId` | App.tsx:12-14 | `.../embed/<id>` yields the id when the id does not start with `v` |
| `VideoId.VLinkYieldsId` | App.tsx:12-14 | `.../v/<id>` yields the id when the id does not start with `v` |
| `VideoId.KnownLinks` | App.tsx:12-14 | `https://www.youtube.com/watch?v=dQw4w9WgXcQ&list=x` and `https://youtu.be/dQw4w9WgXcQ` both yield `dQw4w9WgXcQ` |
| `VideoId.LeadingVIsSwallowed` | App.tsx:12-14 | as written, a short link whose id starts with `v` yields null; the intended pattern yields the id |
| `VideoId.IntendedYoutubeId` | App.tsx:10-15 | the corrected extraction keeps the same guarantees: null for the empty string, and 11 characters with no stop character |
| `VideoId.PatternsDifferOnlyOnBareV` | App.tsx:12 | the written and intended patterns disagree only where a `v` without a following `=` comes right after the marker and its optional `?` |
| `VideoId.IntendedShortLinkYieldsId` | App.tsx:12-14 | the intended pattern yields every valid id from a short link |
| `VideoId.IntendedWatchLinkYieldsId` | App.tsx:12-14 | the intended pattern yields every valid id from a watch link |
| `VideoId.IntendedEmbedLinkYieldsId` | App.tsx:12-14 | the intended pattern yields every valid id from an embed link |
| `VideoId.IntendedVLinkYieldsId` | App.tsx:12-14 | the intended pattern yields every valid id from a `/v/` link |
| `SongLists.WithoutKey` | App.tsx:169 | the filter keeps exactly the entries whose key differs, and never grows the list |
| `SongLists.IsFavorite` | App.tsx:190 | true exactly when some entry shares the song's `youtubeQuery` |
| `SongLists.AddToHistory` | App.tsx:168-170 | the new history has 1 to 20 entries; its head is the song; no other entry has the song's key; every entry is the song or came from the old list |
| `SongLists.AddToHistoryKeepsInvariant` | App.tsx:168-170 | distinct keys are preserved, and the result has at most 20 entries |
| `SongLists.AddToHistoryKeepsOrder` | App.tsx:169-170 | after the head come the old entries with other keys, in their old order, cut to fit, so the entries after the head are an ordered subsequence of the old list |
| `SongLists.ReplayMovesToFront` | App.tsx:168-170 | replaying a history entry in a list with distinct keys moves it to the front and leaves the others in order |
| `SongLists.NewSongEvictsOldest` | App.tsx:170 | a song not yet in the history is prepended to it, and on a full history exactly the oldest entry is dropped |
| `SongLists.ToggleFavorite` | App.tsx:177-184 | `isFavorite` flips; an absent song is prepended to the unchanged list; a present song's key disappears, and the other entries stay |
| `SongLists.ToggleFavoriteKeepsNoDup` | App.tsx:178-184 | toggling keeps keys distinct |
| `SongLists.ToggleFavoriteRemovalKeepsOrder` | App.tsx:181 | removal is the filter, and keeps the remaining favourites in their order |
| `SongLists.ToggleTwiceRestores` | App.tsx:178-184 | toggling a song that is not a favourite twice restores the list exactly |
| `SongLists.ToggleTwiceKeepsOthers` | App.tsx:178-184 | toggling any song twice leaves every other key's entries as they were, in order; a song that was a favourite comes back at the front |
| `Recommendations.Decimal` | services/geminiService.ts:43 | the decimal text of a number is non-empty and contains digits only |
| `Recommendations.AiId` | services/geminiService.ts:43 | the id starts with `ai-` and is at least five characters long; `Recommendations.AiIdInjective` shows it determines both numbers |
| `Recommendations.DecimalInjective` | services/geminiService.ts:43 | different numbers have different decimal texts |
| `Recommendations.AiIdInjective` | services/geminiService.ts:43 | an id `ai-<ts>-<idx>` determines both its time and its index |
| `Recommendations.ToSong` | services/geminiService.ts:43-47 | the song keeps the item's title and artist, uses its link both as the search query and as the URL, has no thumbnail, and gets the id `ai-<ts>-<idx>` |
| `Recommendations.MapItems` | services/geminiService.ts:42-48 | the mapped array has the same length and order, with element `i` built from item `i` at clock reading `i` |
| `Recommendations.InterpretMood` | services/geminiService.ts:7-53 | a failed call or parse gives `[]`; otherwise one song per parsed item, in order, copying title and artist, with both `youtubeQuery` and `youtubeUrl` set to the item's URL, no thumbnail, and id `ai-<clock(i)>-<i>` |
| `Recommendations.InterpretMoodIdsDistinct` | services/geminiService.ts:42-43 | the ids from one call are pairwise distinct, whatever the clock reads |
| `Recommendations.PromptFor` | services/geminiService.ts:68 | a known id gets its own prompt (no prompt is empty, so the fallback to the id never applies to them); any other id is sent as itself |
| `Recommendations.GetSongsByMoodId` | services/geminiService.ts:55-70 | `interpretMood` of the id's prompt; its meaning is stated by `Recommendations.MoodIdSelectsPrompt` and `Recommendations.FailSoft` |
| `Recommendations.MoodIdSelectsPrompt` | services/geminiService.ts:55-70 | a known id gets its own prompt and any other id is sent as itself; the songs are what the model returns for that prompt |
| `Recommendations.EveryPresetHasPrompt` | services/geminiService.ts:57-65 | every mood of the catalogue has an entry in the prompt map, so no preset selection falls back to its id |
| `Recommendations.FailSoft` | services/geminiService.ts:49-52 | a failed model call reaches the caller as the empty list |
| `Playback.Source` | App.tsx:66 | the link is used when present and non-empty; otherwise the search query |
| `Playback.ViewOf` | App.tsx:65-117 | nothing without a song; the fallback card (title and link) exactly when the link yields no id or the flag is set; otherwise the embedded video with the 11-character id |
| `Playback.WatchLinkIsEmbedded` | App.tsx:66-68 | a song with a watch link is embedded, or shown as the card when the flag is set |
| `Playback.SearchPhraseFallsBack` | App.tsx:66-68 | a song known only by a search phrase always gets the card |
| `Playback.Player.constructor` | App.tsx:58 | the flag starts cleared |
| `Playback.Player.Receive` | App.tsx:61-63 | a different song clears the flag; the same song keeps it |
| `Playback.Player.ReportPlaybackError` | App.tsx:110 | from the video view, "Playback Error?" sets the flag and shows the card |
| `Playback.Player.TryAgain` | App.tsx:87 | from the card, "Try loading again" clears the flag; the video returns exactly when the link yields an id |
| `FavoriteButton.SlotAt` | App.tsx:284-285 | `songs[idx]` is a song exactly when the index is in range |
| `FavoriteButton.SameKey` | App.tsx:178 | comparing keys throws exactly when either side is not a song |
| `FavoriteButton.SomeAsWritten` | App.tsx:190 | `favorites.some(...)` as JavaScript runs it: the first match stops it, and a non-song compared before a match throws; `FavoriteButton.AsWrittenAgreesOnSongs` ties it to `SongLists.IsFavorite` |
| `FavoriteButton.FindAsWritten` | App.tsx:178 | `prev.find(...)`: the first element with the key, `undefined` if none, a throw on a non-song met first; tied to the list model by `FavoriteButton.AsWrittenAgreesOnSongs` |
| `FavoriteButton.FilterAsWritten` | App.tsx:181 | `prev.filter(...)`: visits every element, so any non-song throws; tied to `SongLists.WithoutKey` by `FavoriteButton.AsWrittenAgreesOnSongs` |
| `FavoriteButton.ToggleAsWritten` | App.tsx:176-186 | `toggleFavorite` as written, on JavaScript values: a found song means filter, otherwise prepend; equal to `SongLists.ToggleFavorite` on real songs by `FavoriteButton.AsWrittenAgreesOnSongs` |
| `FavoriteButton.AsWrittenAgreesOnSongs` | App.tsx:176-190 | on real songs, the JavaScript `some`/`find`/`filter` code computes exactly `SongLists.IsFavorite` and `SongLists.ToggleFavorite` |
| `FavoriteButton.EmptyPlaylistRenderThrows` | App.tsx:285 | an empty playlist with at least one favourite makes the heart's render throw |
| `FavoriteButton.EmptyPlaylistClickStoresUndefined` | App.tsx:284 | an empty playlist with no favourites stores `undefined` as a favourite on a click, after which every `isFavorite` throws |
| `FavoriteButton.HeartLit` | App.tsx:285 | the heart is lit exactly for a current song that shares a key with a favourite |
| `FavoriteButton.FavoriteClick` | App.tsx:284 | corrected click: no change without a current song; otherwise the current song's favourite status flips |
| `FavoriteButton.FavoriteClickKeepsNoDup` | App.tsx:178-184 | the corrected click keeps keys distinct |
| `FavoriteButton.CorrectedAgreesOnSongs` | App.tsx:284-285 | with a current song, the corrected click and heart are the code as written |
| `Controller.CustomMood` | App.tsx:152-158 | the custom mood has id `custom`, and the typed text is its description |
| `Controller.BlankIffAllWhitespace` | App.tsx:150 | `trim()` gives the empty string exactly when every character is ECMAScript whitespace or a line terminator |
| `Controller.Trim` | App.tsx:150 | `trim()`: whitespace removed from both ends; its meaning is stated by `Controller.BlankIffAllWhitespace` and `Controller.TrimKeepsInner` |
| `Controller.TrimStartSpec` | App.tsx:150 | trimming the front drops exactly a whitespace prefix: what remains is a suffix of the input that is empty or starts with a non-blank character |
| `Controller.TrimEndSpec` | App.tsx:150 | trimming the back drops exactly a whitespace suffix: what remains is a prefix of the input that is empty or ends with a non-blank character |
| `Controller.TrimKeepsInner` | App.tsx:150 | the trimmed text is a slice of the input that starts and ends with non-blank characters |
| `Controller.NoPresetIsCustom` | App.tsx:258 | no catalogue mood has the id `custom` or `rec`, so refreshing a preset playlist always re-selects it |
| `Controller.App.CurrentSong` | App.tsx:274 | the current song is present exactly when the index is inside the playlist |
| `Controller.App.IsFavoriteShown` | App.tsx:190 | a heart is filled exactly when a favourite shares the song's key |
| `Controller.App.constructor` | App.tsx:121-135 | the home screen with nothing loaded; each list is the one stored under its key, or empty when absent |
| `Controller.App.SetCustomMood` | App.tsx:216 | typing on the home screen sets the field and nothing else |
| `Controller.App.Navigate` | App.tsx:23-47 | the navigation bar switches to Home, Favorites or History and changes nothing else |
| `Controller.App.AddToHistory` | App.tsx:167-174 | history becomes the list model's new history, and `moody_history` holds it; the list invariants are kept |
| `Controller.App.ToggleFavorite` | App.tsx:176-188 | favourites become the list model's result, the song's heart flips, and `moody_favorites` holds the result; the list invariants are kept |
| `Controller.App.Present` | App.tsx:138-145 | the common tail of both fetch handlers: the playlist screen for the mood, not loading, the recommended songs at index 0, the first of them added to the history and stored exactly when there is one; favourites and the field untouched |
| `Controller.App.HandleMoodSelect` | App.tsx:137-146 | the playlist screen for the mood, not loading, with the songs the service returns for its id and index 0; history gains the first song exactly when there is one; favourites and the field stay |
| `Controller.App.HandleCustomMoodSubmit` | App.tsx:148-165 | blank text changes nothing; otherwise the playlist screen for the custom mood, with the model's songs for the untrimmed text, index 0, not loading, and history gaining the first song exactly when there is one |
| `Controller.App.Refresh` | App.tsx:256-263 | the same mood again: a custom playlist asks with its description, any other re-selects its id; index 0, not loading; history gains the first song, and `moody_history` is written, exactly when there is one; favourites and the field stay |
| `Controller.App.SelectUpNext` | App.tsx:320-323 | the picked row becomes the current song, and goes to the head of the stored history |
| `Controller.App.PlaySaved` | App.tsx:373-378 | a one-song playlist of the saved song at index 0, on the playlist screen, with the `rec` mood; history, favourites and store are untouched |
| `Controller.App.ToggleListedFavorite` | App.tsx:384 | the heart of a Favorites or History row toggles that song |
| `Controller.App.ToggleCurrentFavorite` | App.tsx:284 | the corrected heart under the player: no change on an empty playlist; otherwise the current song toggles and is stored |

## Left out

- The generative-model call itself is left out. So are its prompt wording, the search tool and `console.error`. The call is the function parameter `gemini`, and the typed text is what that function receives.
- `localStorage` and JSON as mechanisms are left out. The store is a map from key to list. A stored text that does not parse would make the startup load throw: that load has no `try`, and the model does not describe that crash. A key that is present with an empty list behaves like an absent one.
- Overlapping fetches are not modelled (concurrency). Each handler runs atomically, so the loading screen between `setIsLoading(true)` and the answer, and any click made during it, are not modelled.
- Rendering is left out: JSX, styles, `Navbar`'s markup, the iframe `src` and `window.location.origin`. So are the `Math.random()` list keys and the "Save Playlist" and "Share" buttons, which have no handlers.
- `Playback.Player.Receive`: it compares songs by value, while React's effect compares the object reference. Two value-equal songs from separate fetches therefore keep the flag here. The model also does not capture the render that shows the stale flag for one frame before the effect clears it.
- The Player's remounting is not modelled. The player is unmounted while loading and when the screen changes, which also clears the flag.
- `Playback.ViewOf` uses the corrected `VideoId.IntendedYoutubeId`. The as-written `VideoId.YoutubeId` differs only as `VideoId.PatternsDifferOnlyOnBareV` states.
- `Controller.App.ToggleCurrentFavorite` models the corrected click. The as-written click on an empty playlist lives in `FavoriteButton` (see Findings).
- `VideoId.YoutubeId` and `VideoId.IntendedYoutubeId` measure the 11-character id guard, and the `.` of `youtu.be`, in Unicode scalar values. JavaScript measures them in UTF-16 code units, so a link with characters outside the Basic Multilingual Plane can yield an id here where the source yields null (an id of eleven U+1F600, say, is 22 code units), or the reverse for the `.`.
- Object keys inherited from JavaScript's prototype chain (`toString`, for example) are not modelled. No path through the interface looks one up in the prompt map.
- `Controller.App.HandleMoodSelect` requires a mood whose id is not `custom`, and `Controller.App.PlaySaved` and `Controller.App.ToggleListedFavorite` require a song from the list on screen. These requires are the interface's callers, not checks in the code.

## Findings

| source | as written | input that shows it | evidently intended | confidence | as-written member | corrected member |
|---|---|---|---|---|---|---|
| App.tsx:12-14 | `\??v?=?` after the marker swallows a leading `v` of the id itself after `youtu.be/`, `embed/` and `v/`, leaving 10 characters, so the result is null | `https://youtu.be/vABCDEFGHIJ` (a valid 11-character id starting with `v`) | after the optional `?`, either the pair `v=` or a lone optional `=`: a `v` is part of the link's syntax only when `=` follows it | high, not executed | `VideoId.LeadingVIsSwallowed` | `VideoId.IntendedShortLinkYieldsId` |
| App.tsx:284-285 | on an empty playlist (a failed or empty recommendation), `songs[currentSongIndex]` is `undefined`, and `isFavorite`/`toggleFavorite` read its `youtubeQuery` | the model call fails, then the favourites are non-empty (render throws) or empty (a click stores `undefined`, which later throws) | the heart does nothing and is unlit when no song is current | high, not executed | `FavoriteButton.EmptyPlaylistClickStoresUndefined` | `FavoriteButton.FavoriteClick` |
