# beads-mvp-app screens, modelled in Dafny

This project models the logic of two screens of a React Native app.

- The library screen keeps an in-memory list of library items consistent with a
  remote `documents` table and an object store. It loads the table on mount. It
  adds a picked file by uploading it and then saving its metadata. It adds a
  typed link locally.
- The feed screen keeps view state: the feed of beads with its `loading` and
  `refreshing` flags, the set of expanded cards, and audio playback. Playback
  is a small state machine over the current sound and the playing bead.

Every remote call is an input to the model. So are the document picker, the
clock (`Date.now()`) and the audio library. A `fetch` reply is its `ok` flag
plus what `text()` and `json()` yield. A promise is an `Attempt`: either a
value, or an error with its `message`. The upload method returns the remote
requests it issued, in order. That is how "no metadata insert after a failed
upload" becomes a postcondition.

Files:

- `outcomes.dfy`: `Option` and `Attempt`.
- `js_text.dfy`: the JavaScript string behaviour the screens use. That is
  `trim` with the ECMAScript whitespace set, `split('.').pop()`, the decimal
  text of `Date.now()` together with its parse-back, and `length` counted in
  UTF-16 code units.
- `library.dfy`: the catalog-row mapping, storage key and URL derivation, the
  alert texts, and the `LibraryScreen` class (`items`, `linkInput`,
  `modalVisible`).
- `feed.dfy`: toggling, the display predicates, the `Sound` class and the
  `FeedScreen` class. `FeedScreen.Valid()` keeps every sound other than the
  current one unloaded.

Two details of the code shape the model:

- A successful upload appends the saved row's `type` as returned, without the
  `'PDF'` default a load applies (screens/LibraryScreen.js:119 against :44).
  `SavedItem` states exactly when the two agree.
- Link ids and storage keys come from the clock, and the code promises
  nothing about collisions, so item ids are not proved unique.

Two behaviours of the code as written are stated rather than corrected:

- A card whose `audio_url` is missing or empty still shows a play button,
  because `audio_url !== null` holds. Tapping it does nothing
  (`PlayButtonCoversPlayable`).
- If `createAsync` rejects after the previous sound was unloaded, the previous
  bead stays marked as playing while its sound is unloaded (`PlayAudio`,
  switch case with `!started`). Tapping that bead again then changes
  nothing, because the pause rejects on the unloaded sound.

## Model

| member | source | states |
|---|---|---|
| `JsText.TrimStart` | screens/LibraryScreen.js:135 | the leading-whitespace strip used by `trim`: a suffix of the input that starts with non-whitespace, everything removed being whitespace |
| `JsText.TrimEnd` | screens/LibraryScreen.js:135 | the trailing-whitespace strip used by `trim`: a prefix of the input that ends with non-whitespace, everything removed being whitespace |
| `JsText.Trim` | screens/LibraryScreen.js:135 | `linkInput.trim()` is empty exactly when every character is ECMAScript whitespace, and is otherwise bounded by non-whitespace characters |
| `JsText.AfterLastShape` | screens/LibraryScreen.js:68 | `name.split('.').pop()` is the dot-free suffix after the last '.', and is the whole name exactly when the name has no '.' |
| `JsText.AfterLastOfJoin` | screens/LibraryScreen.js:68-69 | taking the text after the last '.' of `stamp + "." + ext` gives back `ext` when `ext` has no '.' |
| `JsText.DecimalDigits` | screens/LibraryScreen.js:137 | the decimal text of `Date.now()` is non-empty, all digits, and starts with '0' only for zero |
| `JsText.ParseDecimalOfDecimal` | screens/LibraryScreen.js:137 | reading the decimal text of a clock value back gives that value |
| `JsText.Utf16Length` | screens/HomeScreen.js:185 | `content.length` counts UTF-16 code units: between the number of characters and twice that, and exactly the number of characters when all lie in the Basic Multilingual Plane |
| `Library.AlertText` | screens/LibraryScreen.js:86-128 | the text `'Failed to save document info.'` is shown for the refused metadata insert and for no other alert, and the success text for full success and for no other alert |
| `Library.AlertTextsDistinct` | screens/LibraryScreen.js:86-128 | distinct alerts have distinct texts: in particular the upload-stage `'Upload failed: ' + errorText` never reads like `'Failed to save document info.'`, like an `'Upload error: '` alert or like the success alert |
| `Library.MetadataAlert` | screens/LibraryScreen.js:108-128 | the metadata stage ends with the success alert exactly when the insert saved at least one row, and with `'Failed to save document info.'` exactly when the catalog refused the insert with a readable reason |
| `Library.HydratedItem` | screens/LibraryScreen.js:41-46 | a loaded row keeps its id and title, and its `url` becomes `uri`; its type is the row's when truthy and `'PDF'` otherwise |
| `Library.Hydrate` | screens/LibraryScreen.js:41-46 | the load maps rows to items one for one: same length, same order, each item the mapping of its row |
| `Library.SavedItem` | screens/LibraryScreen.js:116-121 | a saved row becomes an item with its id, title and url as `uri`, its type copied as returned; that item equals the one a reload would show for the same row iff the row's type is truthy |
| `Library.StorageKey` | screens/LibraryScreen.js:68-69 | both parts of the storage key read back: the text after its last '.' is the file name's extension, and the digits before that dot denote the clock value |
| `Library.UploadUrl` | screens/LibraryScreen.js:75 | the object name reads back from the upload address: a key without '/' is the text after its last '/' |
| `Library.PublicUrl` | screens/LibraryScreen.js:75-93 | the public address is the upload address with `public/` inserted right after `/storage/v1/object/` |
| `Library.LinkItem` | screens/LibraryScreen.js:136-141 | a link item has type `'Link'`, the untrimmed input as both title and uri, and an id whose digits read back as the clock value |
| `Library.LibraryScreen.constructor` | screens/LibraryScreen.js:20-22 | the screen starts with an empty list, an empty link field and the modal hidden |
| `Library.LibraryScreen.OpenModal` | screens/LibraryScreen.js:153 | the "+" button shows the modal |
| `Library.LibraryScreen.CloseModal` | screens/LibraryScreen.js:175-199 | closing or cancelling hides the modal |
| `Library.LibraryScreen.EditLink` | screens/LibraryScreen.js:191 | typing sets the link field |
| `Library.LibraryScreen.LoadLibrary` | screens/LibraryScreen.js:26-51 | a successful listing replaces the list wholesale with the mapped rows; a thrown request, a non-ok status (logged as 'Failed to fetch documents') or an unreadable body leaves the list unchanged |
| `Library.LibraryScreen.UploadPdf` | screens/LibraryScreen.js:59-131 | a cancelled or empty pick issues nothing and changes nothing. Otherwise the requests are the file read, then the upload to the derived key once the blob is read, then the metadata insert with the public URL only if the upload was ok. The list gains the saved row as its last item, and the modal closes, only on full success. Every failure leaves the list and the modal unchanged and raises its stage's alert |
| `Library.LibraryScreen.FinishUpload` | screens/LibraryScreen.js:108-125 | the metadata stage: only an ok insert reply with at least one row appends that row (type copied as returned) and closes the modal; a thrown insert, a non-ok reply (alert 'Failed to save document info.'), an unreadable body or an empty row list changes nothing; every outcome yields the stage's alert `MetadataAlert` |
| `Library.LibraryScreen.UploadLink` | screens/LibraryScreen.js:134-146 | blank input changes nothing; otherwise one link item is appended after the unchanged prior items, the field is cleared and the modal closes |
| `Feed.Toggled` | screens/HomeScreen.js:72-82 | toggling flips the tapped card's membership and leaves every other card's unchanged |
| `Feed.ToggleTwice` | screens/HomeScreen.js:72-82 | toggling the same card twice restores the set |
| `Feed.Playable` | screens/HomeScreen.js:87 | the addresses that stop at the null check are exactly the missing, the null and the empty one |
| `Feed.HasAudio` | screens/HomeScreen.js:128 | a card without the play button (`audio_url === null`) holds nothing `playAudio` would play |
| `Feed.PlayButtonCoversPlayable` | screens/HomeScreen.js:87-128 | every bead `playAudio` would play shows the play button; the beads that show it but are not played are exactly those whose `audio_url` is missing or empty |
| `Feed.ShowsReadMore` | screens/HomeScreen.js:185 | "Tap to read more" never shows on an expanded card or on content of at most 100 characters, always shows on a collapsed card with over 200 characters, and for content within the Basic Multilingual Plane shows exactly on a collapsed card with over 200 characters |
| `Feed.Sound.constructor` | screens/HomeScreen.js:105-108 | a created sound has the requested uri and is playing |
| `Feed.FeedScreen.constructor` | screens/HomeScreen.js:20-26 | the screen starts loading, with no beads, no expanded card, no sound and no playing bead |
| `Feed.FeedScreen.AtMostOneLoaded` | screens/HomeScreen.js:99-111 | under the screen's invariant the only sound that can be loaded is the current one |
| `Feed.FeedScreen.FetchFeed` | screens/HomeScreen.js:47-61 | the beads are replaced only by a truthy `feed`, a thrown request or body leaves them, and `loading` and `refreshing` are false after every outcome |
| `Feed.FeedScreen.OnRefresh` | screens/HomeScreen.js:67-70 | pull to refresh raises `refreshing` before the feed request completes |
| `Feed.FeedScreen.ToggleCard` | screens/HomeScreen.js:72-82 | tapping a card replaces the expanded set by its toggle |
| `Feed.FeedScreen.PlayAudio` | screens/HomeScreen.js:84-123 | a falsy address changes nothing. Tapping the playing bead pauses the same sound, clears the playing bead and loads nothing, unless that sound is already unloaded, when the rejected pause changes nothing. Otherwise the previous sound is unloaded before a fresh sound is created; the new sound becomes current and its bead is marked playing. A rejected call stops the sequence where it happened. At most one sound stays loaded throughout |
| `Feed.FeedScreen.OnPlaybackStatus` | screens/HomeScreen.js:114-118 | a status with `didJustFinish` clears the playing bead, and a playing current sound has stopped at its end; any other status leaves both |

## Left out

- Network, file, picker and audio I/O (`fetch`, `blob`, `DocumentPicker`, `Audio.Sound`, `setAudioModeAsync`) are outcome parameters. An `alert` is a returned `Alert` value whose shown text is `AlertText`. A `console` line is returned where it reports a failed load, and is dropped elsewhere.
- Request headers and credentials (API key, bearer token, `Prefer`) are not modelled. The object store's content type and upsert directive are part of the upload request.
- Races between overlapping asynchronous calls, such as two uploads finishing out of order or a load finishing after an upload, are not modelled. Neither are React's stale closures over state. Each operation runs to completion on the state it starts from.
- A picker promise that rejects is not modelled. It rejects outside the `try`, so no state changes. A picked asset without a `name` is not modelled either.
- The mount-time effect cleanup that unloads `currentSound` is not modelled. It captures the initial null sound, so it never does anything.
- The unused `playingAudio` state is not modelled.
- Date formatting with `toLocaleDateString`, all rendering and styles, the tab navigator, and the profiles screen's fetch-and-render are not modelled.
- Catalog rows with a null `id`, `title` or `url` are not modelled. Only the `type` column is nullable here.
- The audio library's own behaviour enters through two facts: `pauseAsync` rejects on a sound that is not loaded, and `unloadAsync` on such a sound resolves at once. Other sound states (buffering, seeking, looping) are not modelled.
- `JsText.Decimal`: covers integral clock values below 10^21, where `Number#toString` uses plain digits.
- `JsText.Utf16Length`: Dafny strings hold Unicode scalar values, so lone surrogates in `content` are not representable.
- The message of the TypeError raised when the insert returns no row (`MissingRowMessage`) is the Hermes engine's wording. Other JavaScript engines word it differently.
- Unique item ids are not proved, because the code derives ids from the clock and promises nothing about collisions.
- The object orphaned when the metadata insert fails is not reconciled. This matches the code.
