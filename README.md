# Video watchlist widget — Dafny model

The system is a single browser script (`static/js/script.js`) behind a small
video watchlist page. A user pastes a YouTube link; the script extracts the
video identifier, appends a `{id, watched}` record to a list kept in the
browser's local storage under the key `videos`, and renders one card per
record (thumbnail, link, a "Watched"/"Mark Watched" button and a "Remove"
button). The list can be exported to and imported from a JSON file, and a
light/dark theme preference is kept under the key `theme`.

This project models the script's logic in four modules:

- `Wrappers` (`wrappers.dfy`): the `Option` type that stands for JavaScript's
  `null`.
- `VideoId` (`video_id.dfy`): `extractVideoId` as a pure function over an
  already parsed URL, together with `URLSearchParams.get` (first value of a
  query name, section 6.2 of the WHATWG URL Standard). A link that the `URL`
  constructor rejects is the input `None`.
- `Watchlist` (`watchlist.dfy`): the record and card types, the card
  projection of `renderVideos`, and a class `VideoList` whose fields are the
  `videos` storage slot, the array the latest render loaded (the array the
  button handlers close over and mutate), and the rendered cards. Its methods
  are the page's handlers: add, toggle, remove, export and import. Its
  invariant `Valid()` says that the handlers' array equals the stored list and
  the cards are exactly its projection; every handler that re-renders
  establishes it. Toggle and remove do not rely on it: they save the array
  the last render loaded, whatever the slot holds by then.
- `Theme` (`theme.dfy`): a class `ThemeSwitch` holding the `theme` storage slot
  and whether the body carries the `dark` class. Its invariant says the page is
  dark exactly when `"dark"` is stored, from page load on.

The URL parser and `String.prototype.trim` are foreign library code. `Add`
takes them as function parameters (`parse`, `trim`).

Two facts about the script shape the model:
- `JSON.parse` on line 11 throws on malformed stored text rather than
  recovering. The storage slot here is typed `Option<seq<Video>>`, so only
  "absent" (loads as `[]`) and "a list" exist, and no recovery is modelled.
- Toggle and remove positions are the `forEach` indices of the rendered array
  (line 33), so those handlers require `index < |shown|`.

## Model

| member | source | states |
|---|---|---|
| `VideoId.SearchParamsGet` | static/js/script.js:24 | `None` exactly when no entry has the name; otherwise the value of the first entry with that name |
| `VideoId.ExtractVideoId` | static/js/script.js:18-28 | unparsable link gives `None`; host `youtu.be` gives the pathname without its first character (empty for an empty path); any other host gives the first `v` value, `None` iff there is no `v` entry |
| `VideoId.WatchLinkYieldsId` | static/js/script.js:24 | a link on any non-short host whose query starts with `v=X` yields exactly `X` |
| `VideoId.ShortLinkYieldsId` | static/js/script.js:21-22 | `https://youtu.be/X` yields exactly `X`, including `X = ""` |
| `VideoId.BareShortLinkRejected` | static/js/script.js:79-80 | a bare short link yields `""`, which the add handler's truthiness test refuses |
| `VideoId.Truthy` | static/js/script.js:80 | the add handler's `if (id)`: `null` and `""` are refused, every non-empty identifier is accepted |
| `VideoId.MissingParamYieldsNothing` | static/js/script.js:24 | a non-short link with no `v` entry yields `None` |
| `VideoId.FirstOfRepeatedParamWins` | static/js/script.js:24 | with `v` repeated, the first value is returned |
| `Watchlist.MessagesDistinct` | static/js/script.js:87-120 | the four alert texts ("Please enter a valid YouTube link.", "Watchlist imported successfully!", "Invalid file format.", "Error reading file.") are pairwise different |
| `Watchlist.Load` | static/js/script.js:11 | an absent slot loads as the empty list; a stored list loads as itself |
| `Watchlist.CardFor` | static/js/script.js:37-50 | thumbnail is `https://img.youtube.com/vi/` + id + `/0.jpg` and link is `https://youtu.be/` + id (the id recoverable from each); a watched record reads "Watched" with class `watch-btn watched`, an unwatched one "Mark Watched" with class `watch-btn` |
| `Watchlist.CardForInjective` | static/js/script.js:38-49 | distinct records never get the same card |
| `Watchlist.RenderCards` | static/js/script.js:33-49 | exactly one card per record, in list order, each the record's card |
| `Watchlist.Toggled` | static/js/script.js:52 | same length; only the record at `index` changes, keeping its id and flipping `watched` |
| `Watchlist.ToggledTwice` | static/js/script.js:51-53 | toggling the same position twice restores the list |
| `Watchlist.Removed` | static/js/script.js:61 | length drops by one; records before `index` stay put; record `j+1` moves to `j` from `index` on; the multiset loses exactly the removed record |
| `Watchlist.VideoList.constructor` | static/js/script.js:147 | page load renders the stored list; an absent slot shows the empty list |
| `Watchlist.VideoList.GetVideos` | static/js/script.js:10-12 | returns `Load` of the slot: the stored list, or the empty list when the key is absent |
| `Watchlist.VideoList.SaveVideos` | static/js/script.js:14-16 | the slot is overwritten with the given list |
| `Watchlist.VideoList.RenderVideos` | static/js/script.js:30-33 | the handlers' array is reloaded from storage and the cards are its projection |
| `Watchlist.VideoList.Add` | static/js/script.js:77-89 | a truthy id appends `{id, watched: false}` to the list loaded afresh from the slot, saves it and re-renders; otherwise the invalid-link alert and no state change |
| `Watchlist.VideoList.ToggleWatched` | static/js/script.js:51-55 | the slot becomes `Some(Toggled(a, index))` where `a` is the array the last render loaded, whatever the slot held; the page re-renders from it |
| `Watchlist.VideoList.Remove` | static/js/script.js:60-64 | the slot becomes `Some(Removed(a, index))` where `a` is the array the last render loaded (so removing the last record stores `[]`, not an absent key); the page re-renders from it |
| `Watchlist.VideoList.Export` | static/js/script.js:92-93 | the exported data is the stored list |
| `Watchlist.VideoList.Import` | static/js/script.js:109-121 | an array replaces the stored list with a success alert and re-renders; a non-array or a parse failure raises its own alert and changes nothing |
| `Watchlist.ExportThenImport` | static/js/script.js:92-115 | importing the just-exported list succeeds and leaves the stored list unchanged |
| `Watchlist.ConcurrentWriteLost` | static/js/script.js:51-53 | a list saved to the slot by another page of the same origin is overwritten by the next watch-button press here, which stores the toggled render-time array |
| `Theme.StartupTheme` | static/js/script.js:144 | an absent stored theme gives "light"; the result is "dark" iff "dark" is stored |
| `Theme.NextTheme` | static/js/script.js:137-138 | the next theme is "dark" or "light", and is "dark" iff the current one is not |
| `Theme.NextThemeTwice` | static/js/script.js:137-138 | from either theme, two toggles give the starting theme |
| `Theme.ThemeSwitch.constructor` | static/js/script.js:143-144 | page load applies the saved theme, so the page is dark iff "dark" is stored |
| `Theme.ThemeSwitch.ApplyTheme` | static/js/script.js:128-134 | the body is dark exactly when the name is "dark" |
| `Theme.ThemeSwitch.Toggle` | static/js/script.js:136-141 | whatever the slot holds, the page flips between dark and light (read from the body class) and the new theme's name is stored |
| `Theme.ToggleTwice` | static/js/script.js:136-141 | two presses of the theme button give the page back its theme |

## Left out

- DOM construction, the `alert` dialogs themselves (the handlers return which alert they raise), event wiring and clearing the input box (lines 1-7, 31, 34-42, 45-47, 66-73, 85, 87): presentation.
- Watchlist.CardFor: `link` is the template string `https://youtu.be/` + id, not the `href` the page ends up with. Line 43 puts the id into `innerHTML` unescaped, so an id containing `"`, `<` or `&` (reachable through a percent-decoded `v` value or an imported file) yields a different `href` and can inject markup; HTML parsing is not modelled.
- Other pages of the same origin writing the `videos` or `theme` key: modelled only as a direct write to the slot (`Watchlist.ConcurrentWriteLost`); the `storage` event and any interleaving inside a handler are not.
- The `URL` parser and `String.prototype.trim`: foreign library behaviour, passed to `Add` as functions; hostname normalisation and percent-decoding of query entries happen inside them.
- JSON text and `localStorage`: the `videos` slot holds the list as a value, so `saveVideos` followed by `getVideos` is the identity; JSON's own round trip is not modelled.
- Stored values that `JSON.parse(...) || []` would also treat as empty (`"null"`, `"false"`, `"0"`) or would return as a non-array: the slot cannot hold them in this model.
- Watchlist.VideoList.Import: imported elements are typed as `{id, watched}` records, while the script accepts any array without checking its elements; a malformed element (say, one without `id`) is not modelled.
- Export's Blob, object URL and download, and the `FileReader` callback (lines 94-100, 106-108, 123): I/O. Only the exported value and the array-check-then-replace decision are kept; selecting no file (line 107) does nothing and is not modelled.
- Errors thrown by `saveVideos` or `renderVideos` inside the import's `try` (for example a full storage quota), which would also raise "Error reading file.": storage failures are not modelled.
