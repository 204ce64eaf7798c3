# Foxhole map viewer: a Dafny model of the data side

The viewer is a desktop map for the game Foxhole. It polls the Foxhole War
API, keeps a short history of per-map war reports and derives casualty
rates, activity indicators and faction colours from them. Two small server
scripts write the same history file on a schedule. This project models that
logic and proves properties of it:

- **The conditional-fetch client** (`FoxholeAPI` in api_client.py).
  - `ApiClient.FoxholeApi` is a class holding the two maps it keeps per
    endpoint: `etags` (validators) and `cache` (bodies).
  - `MakeRequest` sends `If-None-Match` (section 13.1.2 of RFC 9110) when a
    validator is stored. It answers a `304 Not Modified` (section 15.4.5 of
    RFC 9110) from the cache.
  - Its state change is specified by the pure function `ApiClient.Handle`.
    `Handle` decodes the body before it stores anything. It differs from the
    order of api_client.py:35-37 on one reply only: a 200 that carries an
    ETag and whose body does not decode (see "## Findings").
    `ApiClient.HandleAsWritten` keeps the code's own order.
- **Map names** (`ApiMapName` / `get_api_map_name`).
  - The server scripts append `Hex` to every map but MarbanHollow.
  - The viewer first strips the activity indicators and every space from a
    map-list entry, then does the same.
  - The three copies of the map list, and the two server copies of the
    name function, are identical and modelled once (`WarReports`).
- **The tick snapshot and the history.**
  - Every `update_war_reports` fetches each map's report. A map whose
    fetch fails or returns an empty report is skipped.
  - The viewer (`Viewer.MapViewer`) drops one entry, by `pop(0)`, whenever
    an append takes it past twelve. It keeps at most twelve snapshots once it
    holds at most twelve; a longer loaded history keeps its length.
  - The collector of server/app.py (`ServerApp`) keeps the last six, by
    slicing.
  - The updater script (`Updater`) overwrites the file with the current
    snapshot alone.
- **Rates and colours.**
  - Casualties per hour compare the first and last of the last six entries
    (`Viewer.CasualtiesPerHour`), with each component clamped at zero.
  - The activity indicator has three tiers.
  - Also modelled: the structure count per faction with its colour, and the
    colours of the rate labels.
- **Visibility** (`Visibility`). Which icons and labels the map draws, given
  the checkbox states of the settings panel. A setting the panel does not
  know reads as checked.

Inputs and outputs that the programs get from the outside are modelled as
values:

- the HTTP reply, as a function `Request -> Reply` passed to the client;
- the outcome of each per-map fetch, as a sequence of `Outcome`s;
- what reading the history file gives, as a `FileRead`;
- the document written, as the method's result.

JSON values are the datatype `Json.Json`, with Python's truth test and
`dict.get`. The string operations the code relies on are written out in
`Text`: `str.replace` with an empty replacement, and `str.strip` with
Python's whitespace set.

The `AVAILABLE_MAPS` list is split into groups of three, so that facts about
each name are checked one small group at a time.

Where the code and its documentation disagree, the model follows the code:

- The collector of server/app.py does not fall back to an empty history on
  every load failure. A document whose `reports` value is not a list gets
  past the load and then breaks `reports.append` (server/app.py:55). Neither
  `update_war_reports` nor the `while True` loop of server/app.py:67-72
  catches that `AttributeError`, so the collector process exits before
  writing (`LoadError.ReportsNotAList`). `ServerApp.FileAfter` models a
  failed tick as leaving the file as it was, and its later ticks as runs of
  the script after a restart.
- The viewer's constructor catches only a missing file and a decode error.

## Model

| member | source | states |
|---|---|---|
| `ApiClient.RequestFor` | api_client.py:18-23 | The URL is the base URL, a slash and the endpoint. `If-None-Match` is sent exactly when the endpoint has a stored validator, and it carries that value. The params are passed through. |
| `ApiClient.IsErrorStatus` | api_client.py:41 | The statuses `raise_for_status` raises on, defined as 400 to 599. Its contract states only that neither 200 nor 304 is one of them, so those two are never answered by raising. |
| `ApiClient.Fetch` | api_client.py:16-42 | One call of `_make_request` on values: the request sent is exactly `RequestFor` of the state, so its URL, its `If-None-Match` value and its params are those of api_client.py:18-25. The new state and the outcome are `Handle` of the reply to that request, and equal key sets of the two maps stay equal. |
| `ApiClient.HandleAsWritten` | api_client.py:25-42 | The code as written: on a 200 with an ETag the validator is stored whether or not the body decodes. An undecodable body then raises, leaving the cache untouched. No other endpoint's keys or values change. |
| `ApiClient.Handle` | api_client.py:25-42 | Handling of a reply, with the body decoded before either map is written. Only the requested endpoint's entries can change, keys are never removed, and equal key sets of `etags` and `cache` stay equal. |
| `ApiClient.AsWrittenAgreesElsewhere` | api_client.py:27-42 | The code's order and the corrected order give the same state and outcome on every reply except a 200 with an ETag and an undecodable body. On that reply the code stores the validator and raises, while the corrected order changes nothing and raises. |
| `ApiClient.HandleCases` | api_client.py:27-42 | A 304 returns `cache[endpoint]` with no change, or fails with the missing key. A decodable 200 with an ETag stores both and returns the body. Without an ETag the body is returned and nothing changes. Any other status changes nothing: 400-599 raise, the rest return None. |
| `ApiClient.RevalidatedReplyIsCachedBody` | api_client.py:22-37 | After a 200 stored validator `tag` and body `v`, the next request carries `tag`. A 304 to it returns `v` and changes nothing. |
| `ApiClient.NoValidatorNoShortcut` | api_client.py:22-30 | With no stored validator no header is sent. A 304 then fails with the missing cache key and leaves the state as it was. |
| `ApiClient.ConditionalRequestNeverMisses` | api_client.py:13-37 | From a state whose two maps have equal key sets, a request that carries `If-None-Match` never fails for a missing cache entry. |
| `ApiClient.ParamsAreNotPartOfTheKey` | api_client.py:16-25 | Two calls that differ only in `params` and get the same reply leave the same state and return the same outcome. The cache key is the endpoint alone. |
| `ApiClient.AsWrittenLosesCoherence` | api_client.py:35-38 | From an empty client, a 200 with ETag `v1` and an undecodable body leaves `etags` and `cache` with different keys. The next request sends `v1`, and a 304 to it fails for the missing cache entry. The corrected handler keeps the keys equal. |
| `ApiClient.EndpointsAreDistinct` | api_client.py:44-79 | The four endpoint families never share a cache key, and within a family different maps give different keys. |
| `ApiClient.MapDataEndpoint` | api_client.py:54 | The endpoint is `maps/`, the map name and `/dynamic/public`, in that order and nothing else. |
| `ApiClient.StaticMapDataEndpoint` | api_client.py:58 | The endpoint is `maps/`, the map name and `/static`, in that order and nothing else. |
| `ApiClient.WarReportEndpoint` | api_client.py:79 | The endpoint is `warReport/` followed by the map name and nothing else. |
| `ApiClient.FoxholeApi.constructor` | api_client.py:11-14 | A new client has empty `etags` and `cache`. |
| `ApiClient.FoxholeApi.MakeRequest` | api_client.py:16-42 | Sends `RequestFor` of the old state. The new state and the outcome are `Handle` of the old state and the reply. The equal-keys invariant is kept. This is the corrected order, which differs from api_client.py:35-37 on an undecodable 200 that carries an ETag. |
| `ApiClient.FoxholeApi.GetMapData` | api_client.py:44-54 | Requests `maps/{map}/dynamic/public` with no params. The request sent is `RequestFor` of the old state, so it carries `If-None-Match` exactly when that endpoint has a stored validator. The new state and outcome are `Handle` of the reply. |
| `ApiClient.FoxholeApi.GetStaticMapData` | api_client.py:56-58 | Requests `maps/{map}/static` with no params. The request sent is `RequestFor` of the old state, so it carries `If-None-Match` exactly when that endpoint has a stored validator. The new state and outcome are `Handle` of the reply. |
| `ApiClient.FoxholeApi.GetWarData` | api_client.py:60-67 | Requests `war` with no params. The request sent is `RequestFor` of the old state, so it carries `If-None-Match` exactly when that endpoint has a stored validator. The new state and outcome are `Handle` of the reply. |
| `ApiClient.FoxholeApi.GetWarReport` | api_client.py:69-79 | Requests `warReport/{map}` with no params. The request sent is `RequestFor` of the old state, so it carries `If-None-Match` exactly when that endpoint has a stored validator. The new state and outcome are `Handle` of the reply. |
| `Text.RemoveChar` | main.py:664-667 | `str.replace(c, "")`: the result lacks `c` and holds only characters of the input. |
| `Text.LeadingSpaces` | main.py:664 | The length of the whitespace run a string starts with: everything before it is whitespace, and the character at it is not. |
| `Text.TrailingSpaces` | main.py:664 | The length of the whitespace run a string ends with: everything after the cut is whitespace, and the character before it is not. |
| `Text.Strip` | main.py:664 | `str.strip()` with Python's whitespace set: the result is a slice `s[i..j]` of the input with only whitespace before `i` and from `j` on, and it neither starts nor ends with whitespace. These facts fix the result. |
| `Text.RemoveAll` | main.py:687 | `str.replace(pat, "")` for a non-empty pattern: the result is never longer than the input. |
| `Text.RemoveAllAbsent` | main.py:687 | A name without the pattern is left unchanged. |
| `WarReports.ApiMapName` | server/app.py:20-24 | The API name is MarbanHollow, or ends in `Hex`. |
| `WarReports.ApiMapNameInjective` | server/update_war_reports.py:17-21 | Different map names get different API names, so no two maps share a report. |
| `WarReports.StripHexSuffix` | main.py:687 | For a name without `Hex`, removing every `Hex` from its API name gives the name back. |
| `WarReports.AvailableMapNameIsPlain` | main.py:575-619 | No map name contains `Hex`, and each is made of ASCII letters only. |
| `WarReports.AscendingIsDistinct` | server/app.py:32-38 | A list in which every name comes strictly before the next in code-point order has no name twice, so the per-map loop fills each snapshot key at most once. |
| `WarReports.AvailableMapsAreDistinct` | main.py:575-619 | The map list is in strictly ascending alphabetical order, so no map is listed twice. |
| `WarReports.SnapshotOf` | server/update_war_reports.py:26-35 | The snapshot of one tick holds only maps from the list. |
| `WarReports.Kept` | server/app.py:35 | `if report:` keeps only a returned report that is truthy: never None, false, zero, an empty string, an empty list or an empty dict. |
| `WarReports.SnapshotKeys` | server/app.py:29-38 | A map is in the snapshot exactly when some fetch for it returned a truthy report. |
| `WarReports.SnapshotAt` | main.py:745-754 | With distinct map names (which `AVAILABLE_MAPS` has, by `WarReports.AvailableMapsAreDistinct`), a map is in the snapshot exactly when its own fetch returned a truthy report, and it then maps to that report. |
| `WarReports.FailureIsIsolated` | server/update_war_reports.py:30-35 | Turning one map's outcome into an exception removes exactly that map from the snapshot. The loop goes on for the rest. |
| `WarReports.CollectSnapshot` | main.py:745-754 | The per-map loop builds exactly `SnapshotOf` of the maps and outcomes. |
| `WarReports.LastN` | server/app.py:56 | `s[-n:]`: the last `min(n, len)` elements, as a suffix of `s`. |
| `WarReports.LastNAppend` | server/app.py:55-56 | Trimming before an append and trimming after it give the same list. |
| `WarReports.LastNKeepsNewest` | server/app.py:55-56 | After an append and a trim, the new entry is last and the list holds at most `n` entries. What precedes the new entry is the newest part of the old list, in order. |
| `WarReports.Document` | server/app.py:62 | The document written is a dict whose only key is `reports`, holding the history as a list. The viewer (main.py:764) and the updater (server/update_war_reports.py:40) write the same shape. |
| `WarReports.ReportsField` | server/app.py:45 | `existing_data.get('reports', [])`: a missing key gives the empty history and a list gives its items. Any other value is the `ReportsNotAList` error, because it later breaks `reports.append`. |
| `WarReports.ReportsRoundTrip` | server/app.py:45-62 | The document `{"reports": r}` reads back as `r`. |
| `Viewer.StripIndicator` | main.py:662-664 | One round of the indicator loop removes that indicator and adds no character. |
| `Viewer.CleanMapName` | main.py:661-667 | The cleaned name has no space and no indicator, and holds only characters of the entry. |
| `Viewer.GetApiMapName` | main.py:659-674 | The API name is the server scripts' `ApiMapName` of the cleaned entry: MarbanHollow stays as it is and every other cleaned name gets `Hex` appended. It has no space and no indicator, and is MarbanHollow exactly when the cleaned name is. |
| `Viewer.CleanNameIsFixed` | main.py:662-667 | A name with neither spaces nor indicators is its own cleaned name. |
| `Viewer.CleanIsIdempotent` | main.py:662-667 | Cleaning twice is cleaning once. |
| `Viewer.ViewerAgreesWithServer` | main.py:659-674 | On a name of letters only, the viewer's API name equals the server scripts'. |
| `Viewer.ViewerAgreesOnAvailableMaps` | main.py:575-619 | Every listed map gets the same API name in the viewer as in the server scripts. |
| `Viewer.StripShownIndicator` | main.py:662-664 | Removing the indicator shown after a plain name, and stripping, gives the name. |
| `Viewer.CleanShownName` | main.py:662-667 | A plain name followed by a space and any indicator cleans back to the name. |
| `Viewer.CleanNameIsFixedForLetters` | main.py:659-674 | A plain name is already clean and gets the server's API name. |
| `Viewer.ShownNameRoundTrip` | main.py:795 | For any indicator the list can show, the entry `name indicator` leads back to the server's API name of `name`. |
| `Viewer.DisplayTextRoundTrip` | main.py:780-796 | For every rate, the entry shown for a plain map name leads back to that map's API name. |
| `Viewer.DisplayText` | main.py:795 | With no indicator the entry is the map name. Otherwise it is the name, one space and the indicator. |
| `Viewer.CasualtiesPerHour` | main.py:676-715 | Fewer than two history entries give `(0, 0)`, and every rate computed is non-negative. The report is looked up under the name with every `Hex` removed. |
| `Viewer.RateUnder` | main.py:683-715 | The rate read from the entries' reports under one key. Fewer than two entries give `(0, 0)`. |
| `Viewer.Counter` | main.py:700-703 | `report.get(key, 0)`: a missing counter reads as 0 and an integer as itself. It fails with `NotANumber` only for a present value that is not a number. |
| `Viewer.Growth` | main.py:708-709 | `max(0, last - first)`: defined exactly when both counters are numbers. It is then either 0 or the difference, and never below the difference. |
| `Viewer.RateUsesOnlyWindowEnds` | main.py:683-691 | The rate depends only on the first entry of the six-entry window and on the last entry. |
| `Viewer.RateIgnoresOlderEntries` | main.py:683 | Entries before the last six never change the rate. |
| `Viewer.RateIsClampedGrowth` | main.py:700-715 | With integer counters at both ends, each component is `max(0, last - first)`. |
| `Viewer.RateOfMissingMapIsZero` | main.py:690-697 | A map missing or empty at either end of the window has rate `(0, 0)`. The exception is a report at the other end that is truthy but not a dict: the diagnostic message calls `.keys()` on it and raises. |
| `Viewer.RateOfOneSidedOddReport` | main.py:693-696 | The history `[{"Foo": 5}, {}]` fails for `Foo`, because the message calls `.keys()` on the number. |
| `Viewer.RateKeyOfApiName` | main.py:687 | A listed map is looked up under its own name whether it is asked for by plain name or by API name. |
| `Viewer.RateExample` | main.py:676-715 | Two entries whose colonial counter grew from 10 to 40 give `(30, 0)`. |
| `Viewer.ActivityIndicator` | main.py:717-727 | The indicator is empty or one indicator character. It is empty exactly when the summed rate is below 50. |
| `Viewer.ActivityIsMonotone` | main.py:717-727 | A larger total never gives a lower tier. |
| `Viewer.ActivityThresholds` | main.py:720-727 | Red from 1001, orange from 501 to 1000, yellow from 50 to 500, none below 50. |
| `Viewer.RateColors` | main.py:938-939 | A label is red exactly when its own rate is the larger one, and green otherwise. |
| `Viewer.RateColorsNeverBothRed` | main.py:938-939 | The two labels are never both red. They share a colour exactly on a tie. |
| `Viewer.ItemsToCount` | main.py:731-736 | Empty or falsy map data, or data without `mapItems`, gives nothing to count. A `mapItems` list is counted item by item. |
| `Viewer.Iterate` | main.py:736 | `for item in ...`: a list gives its items. Any other value gives no items or the `TypeError` that iterating it raises. |
| `Viewer.TeamOf` | main.py:737 | `item['teamId']` succeeds exactly on a dict that has the key, and gives its value. A dict without it raises `KeyError`. |
| `Viewer.CountsWithinItems` | main.py:736-740 | No item counts for both factions, so the two counts together never exceed the items. |
| `Viewer.CountStructures` | main.py:729-741 | Succeeds exactly when every item has a `teamId`. The counts are then the numbers of `WARDENS` and `COLONIALS` items. |
| `Viewer.FactionColor` | main.py:787-792 | Blue exactly when wardens hold more, green exactly when colonials hold more, black exactly on a tie. |
| `Viewer.ViewerLoad` | main.py:631-636 | A missing or undecodable file gives an empty history. |
| `Viewer.ViewerLoadRoundTrip` | main.py:634 | A document the window wrote reads back as the history it held. |
| `Viewer.ViewerAppend` | main.py:757-759 | The snapshot goes last and the order is kept. One entry leaves the front only when the list grows past twelve. |
| `Viewer.ViewerAppendIsWindow` | main.py:756-759 | Up to twelve entries, appending is keeping the last twelve. A longer loaded history keeps its length. |
| `Viewer.ViewerHistoryIsLastTwelve` | main.py:756-759 | After any number of ticks from at most twelve entries, the history is the last twelve of everything appended. |
| `Viewer.MapViewer.constructor` | main.py:631-636 | The window starts with the loaded history. |
| `Viewer.MapViewer.UpdateWarReports` | main.py:743-766 | Appends the tick's snapshot by `ViewerAppend`, so a history of at most twelve stays so. Returns the document it writes, which holds the new history. |
| `Visibility.ItemSetting` | main.py:386-418 | Each categorised icon type consults one panel setting, never a label setting. |
| `Visibility.VisibilityState` | settings_panel.py:127-133 | A known setting reads as its checkbox state, and an unknown one as visible. |
| `Visibility.ShouldDrawItem` | main.py:381-420 | Without a panel everything is drawn, and an uncategorised icon is always drawn. A categorised icon follows its one setting. |
| `Visibility.ShouldDrawText` | main.py:422-430 | `Major` labels follow `major_locations`, all others `minor_locations`. Without a panel every label is drawn. |
| `Visibility.ItemDependsOnOneSetting` | main.py:389-418 | Panels that agree on an icon's setting agree on the icon. The label settings never affect an icon. |
| `Visibility.UncheckingHidesItsIcons` | main.py:389-420 | Unchecking a setting hides exactly the icons that consult it, besides those already hidden. |
| `Visibility.AllCheckedDrawsEverything` | settings_panel.py:127-133 | With every known setting checked, or none known, every icon and label is drawn. |
| `ServerApp.ServerLoad` | server/app.py:41-52 | The load fails only for a dict whose `reports` value is not a list. Every other unusable file gives an empty history. |
| `ServerApp.ServerLoadRoundTrip` | server/app.py:45-62 | A document the collector wrote reads back as its reports. |
| `ServerApp.Tick` | server/app.py:40-65 | A tick fails exactly when the load fails. Otherwise the next load of what it writes is the last six of the loaded history plus the snapshot. |
| `ServerApp.TickKeepsNewest` | server/app.py:54-57 | The written history has at most six entries, however long the loaded one. The snapshot is last, preceded by the newest loaded entries in order. |
| `ServerApp.UpdateWarReports` | server/app.py:26-65 | The per-map loop and the load, append and trim give exactly `Tick` of the file and the snapshot. |
| `ServerApp.TicksKeepLastSix` | server/app.py:67-72 | After any number of ticks, the file holds the last six of its first history followed by every snapshot. |
| `ServerApp.FileAfter` | server/app.py:67-72 | The file after a sequence of ticks loads exactly when the first file loads. It is either the first file unchanged or a file that loads as at most six reports. |
| `ServerApp.BadReportsFieldIsPermanent` | server/app.py:45-56 | A `reports` value that is not a list makes every later run fail before it writes, and the file never changes again. |
| `ServerApp.BadFileStartsFresh` | server/app.py:41-52 | A missing, unreadable, undecodable or non-dict file makes the tick write the snapshot alone. |
| `Updater.UpdateWarReports` | server/update_war_reports.py:23-43 | The document written reads back, by either consumer, as exactly one report: this tick's snapshot. |
| `Updater.CollectorExtendsUpdaterFile` | server/update_war_reports.py:38-40 | A collector tick that reads the updater's file writes the old snapshot followed by the new one. |

## Left out

- Qt widgets and painting: the map list rebuild, the selection restore and `on_map_selected` (main.py:768-804, 911-920). The model covers the text of each list entry (`DisplayText`) and the API name it leads back to.
- Pan, zoom, hit-testing and tooltips: floating-point geometry.
- Timers, `time.sleep` and `threading.Timer`. `ServerApp.FileAfter` strings ticks together as a sequence instead.
- The exit of the collector process on an uncaught `AttributeError` (server/app.py:55, 67-72). In `ServerApp.FileAfter` a failed tick leaves the file as it was, and each later tick stands for a run after a restart.
- Real network and file I/O. The reply, the per-map fetch outcomes and the file read are inputs; the written document is an output. A failure to write, which every program catches and prints, is not modelled.
- JSON text: encoding and decoding are taken to round-trip, so a written document is modelled as read back as itself.
- Floating-point numbers in JSON. Counters are integers or booleans; other values make the rate fail with `NotANumber`.
- Printing and logging. The exceptions raised while the messages are built are modelled.
- server/foxhole_map_viewer_api_wsgi.py is not part of this model: it only serves the file.
- map_icons.py is not part of this model except the `IconType` values the visibility dispatch compares.
- settings_panel.py is not part of this model except the names of its checkboxes and the rule that an unknown setting is visible.
- Viewer.CountStructures: takes the fetched map data as its input. The fetch through the client, and an exception from it (which `count_structures` does not catch), are not modelled.
- Viewer.MapViewer.constructor: requires a history that loads. An unreadable file or a document that is not a dict raises in the constructor, and a `reports` value that is not a list breaks its first update. Those runs end the program.
- Viewer.MapViewer.UpdateWarReports: takes the per-map outcomes as input, not the fetch through `get_api_map_name` and the client. That fetch is `ApiClient.FoxholeApi.GetWarReport`, and the map names it sends are covered by `Viewer.ViewerAgreesOnAvailableMaps`.
- Visibility.ShouldDrawItem: takes the item's `iconType` instead of the item. When a settings panel exists, an item without `iconType` raises `KeyError` at main.py:386; that error path is not modelled.
- Visibility.ShouldDrawText: takes the label's `mapMarkerType` instead of the label. When a settings panel exists, a label without `mapMarkerType` raises `KeyError` at main.py:427; that error path is not modelled.
- Concurrency: the viewer and the collector may write files at the same time; atomic writes and locking are not part of the code.

## Findings

| source | as written | input that shows it | evidently intended | confidence | as-written member | corrected member |
|---|---|---|---|---|---|---|
| api_client.py:35-37 | On a 200 with an `ETag`, `etags[endpoint]` is written before `response.json()`. | From an empty client, a 200 reply with ETag `v1` whose body is not valid JSON. It raises, but `etags` now holds `v1` and `cache` holds nothing. The next request sends `If-None-Match: v1`; a 304 to it raises `KeyError` on `cache[endpoint]` (`ApiClient.AsWrittenLosesCoherence`). | Store the validator and the body together, after the body has decoded, so that the two maps always have the same keys and a 304 never misses the cache. | not executed | `ApiClient.HandleAsWritten` | `ApiClient.Handle` |
