# Map gallery core, modelled in Dafny

This project models the logic behind the travel-photo map gallery: the
Polaroid-style markers on a Leaflet map, the pages that manage albums and
images on the map, and the album edit panel.

- **Marker engine** (`imageMarkerUtils.ts`, in both its album version and
  its older image version):
  - the zoom interpolation and the marker dimensions derived from it;
  - the composition of card, icon container and anchors;
  - the viewport filter, which shows one album per country at low zoom and
    everything in view above it;
  - the caption fallback and its HTML escaping;
  - the choice between the cover photo and the "Cover Missing" placeholder;
  - the clear-then-add rebuild of the marker layer.
- **Gallery controllers** (`mapGallery.tsx`, in both versions):
  - the `debounce` helper, and how each page wires it to the marker
    redraw on `zoomend` and `moveend`, including the stale redraw that
    wiring allows;
  - the handlers for marker click, edit save, delete and the new-album
    draft;
  - picking a location on the map, and the map click that completes it;
  - the case-insensitive country search;
  - the fly-to target, with its per-country centre and zoom adjustments.
- **Album edit panel** (`ImageEditPanel.tsx`):
  - view switching, and the initialisation from the album it is given;
  - image selection, and deletion of the selected images;
  - adding internal images;
  - the cover decision on submit;
  - cancel, and the location label.

## How the model is organised

Each page and the panel is a Dafny `class` whose fields are the page's
React state. Each handler is a method that states the complete new state.

- The two pages keep their state in one datatype field `st`. Each handler
  preserves `Valid(st)`:
  - an open panel always has something to show;
  - no panel is open while a location is being picked;
  - on the album page, the edit panel and the new-album panel are never
    open together.
- The panel's callbacks (`onSave`, `onClose`, `onDelete`,
  `onStartPickLocation`) are recorded as events appended to an `outbox`.
- Each page also holds a `redraw` field, a `MarkerRedraw.Redraw` value.
  It records the list the current debounced wrapper closes over, that
  wrapper's pending call, the pending calls of replaced wrappers, and
  every redraw so far.

These parts of the environment are modelled as plain values:

| environment | modelled as |
|---|---|
| browser storage | a `map<string, string>` |
| a Leaflet layer group | a `Layer` class holding the sequence of marker descriptors |
| the map's bounds test | a predicate parameter `inView` |
| bounds of a country shape | its centre and fitting zoom, passed in |
| a conversion from `FileReader` | a name with `Some(data)` or `None` |
| generated ids and today's date | parameters |
| the timer queue | elapsed milliseconds passed to `TimePasses` |

The loops are methods proved against recursive specification functions:

- the `forEach` filters (`SelectRepresentatives`, `SelectInView`);
- the marker loop (`AddMarkers`);
- the two deletion loops (`PartitionSelection`, `RemoveKeys`);
- the upload loop (`StoreUploads`).

The properties the source promises are then proved as lemmas about those
functions.

Number handling:

- Zoom and coordinates are `real`.
- `Math.round(x)` is `Floor(x + 0.5)`.
- JavaScript truthiness of an optional string is modelled by `""` standing
  for both the empty string and `undefined`.

## Model

| member | source | states |
|---|---|---|
| Common.Max | src/component/imageEditPannel/imageMarkerUtils.ts:71-76 | `Math.max` on integers: the result is at least both arguments and is one of them |
| Common.MaxReal | src/component/mapComponent/mapGallery.tsx:305 | `Math.max` on zooms: at least both arguments and one of them |
| Common.MinReal | src/component/mapComponent/mapGallery.tsx:304 | `Math.min` on zooms: at most both arguments and one of them |
| Common.Round | src/component/imageEditPannel/imageMarkerUtils.ts:66 | `Math.round` lands within half a unit of its argument, with ties going up |
| Common.RoundMonotone | src/component/imageEditPannel/imageMarkerUtils.ts:66-76 | rounding preserves order, so rounded dimensions never shrink as the input grows |
| Common.RoundOfInt | src/component/imageEditPannel/imageMarkerUtils.ts:66 | an integer rounds to itself |
| ListById.UpdateWhere | src/component/mapComponent/mapGallery.tsx:99-101 | mapping over the list by id keeps its length |
| ListById.RemoveWhere | src/component/mapComponent/mapGallery.tsx:417-419 | filtering by id never lengthens the list |
| ListById.UpdateWherePointwise | src/component/mapComponent/mapGallery.tsx:99-101 | element i becomes `f(x)` exactly when its id matches and stays `x` otherwise |
| ListById.UpdateWhereAbsent | src/component/mapComponent/mapGallery.tsx:223-232 | when no element carries the id, the map-by-id leaves the list unchanged |
| ListById.RemoveWhereKeepsOthers | src/component/mapComponent/mapGallery.tsx:416-420 | the filtered list holds exactly the elements with another id, in their original order |
| ListById.RemoveWhereIdempotent | src/app/gallery/mapGallery.tsx:314-317 | deleting the same id twice is the same as deleting it once |
| ListById.RemoveAfterUpdate | src/component/mapComponent/mapGallery.tsx:416-420 | an id-preserving update (a move or a save) followed by deleting that id is the same as deleting it |
| HtmlEscape.ReplaceAll | src/component/imageEditPannel/imageMarkerUtils.ts:60 | `replace(/c/g, rep)` leaves a string without `c` as it is, and a replacement without `c` leaves no `c` behind |
| HtmlEscape.ReplaceAllKeepsAbsent | src/component/imageEditPannel/imageMarkerUtils.ts:60 | a character in neither the text nor the replacement is absent from the result |
| HtmlEscape.ReplaceAllConcat | src/component/imageEditPannel/imageMarkerUtils.ts:60 | a global replace distributes over concatenation |
| HtmlEscape.EscapeLeavesNoMarkup | src/component/imageEditPannel/imageMarkerUtils.ts:60 | the escaped caption contains no raw `<`, `>` or `"` |
| HtmlEscape.EscapePlain | src/component/imageEditPannel/imageMarkerUtils.ts:60 | any other character passes through the escaper unchanged |
| HtmlEscape.EscapeAmpersand | src/component/imageEditPannel/imageMarkerUtils.ts:60 | `&` becomes `&amp;` and is not escaped again by the later replacements |
| HtmlEscape.EscapeLessThan | src/component/imageEditPannel/imageMarkerUtils.ts:60 | `<` becomes `&lt;` |
| HtmlEscape.EscapeGreaterThan | src/component/imageEditPannel/imageMarkerUtils.ts:60 | `>` becomes `&gt;` |
| HtmlEscape.EscapeQuote | src/component/imageEditPannel/imageMarkerUtils.ts:60 | `"` becomes `&quot;` |
| HtmlEscape.EscapeSingle | src/component/imageEditPannel/imageMarkerUtils.ts:60 | the four chained replacements on one character give that character's entity |
| HtmlEscape.EscapeIsEscapeEach | src/component/imageEditPannel/imageMarkerUtils.ts:60 | because `&` is replaced first, the chained replacements equal escaping each character on its own |
| HtmlEscape.UnescapeEscapeEach | src/component/imageEditPannel/imageMarkerUtils.ts:60 | decoding the four entities undoes the per-character escaping |
| HtmlEscape.UnescapeEscape | src/component/imageEditPannel/imageMarkerUtils.ts:60 | escaping loses nothing: decoding the escaped caption gives back the caption |
| MarkerGeometry.Interpolate | src/component/imageEditPannel/imageMarkerUtils.ts:22-28 | `minValue` at or below the lower threshold, `maxValue` at or above the upper one, proportional in between, and within `[minValue, maxValue]` |
| MarkerGeometry.InterpolateMonotone | src/component/imageEditPannel/imageMarkerUtils.ts:22-28 | for ordered thresholds and values, interpolation never decreases as the input grows |
| MarkerGeometry.PhotoWidth | src/component/imageEditPannel/imageMarkerUtils.ts:62-67 | the photo width always lies in [40, 160]: 40 at zoom 7 or less and 160 at zoom 13 or more |
| MarkerGeometry.PhotoWidthMonotone | src/component/imageEditPannel/imageMarkerUtils.ts:62-66 | a higher zoom never gives a narrower photo |
| MarkerGeometry.Scaled | src/component/imageEditPannel/imageMarkerUtils.ts:69-76 | `max(floor, round(base * scale))` stays between the floor and `max(floor, base)`, and reaches the latter at full photo width |
| MarkerGeometry.ScaledMonotone | src/component/imageEditPannel/imageMarkerUtils.ts:69-76 | a wider photo never gives a smaller derived dimension |
| MarkerGeometry.DimensionsAt | src/component/imageEditPannel/imageMarkerUtils.ts:62-76 | for every zoom, each derived dimension respects its floor (border 4, caption 15, pin 10, pin font 14, caption font 8, buffer 6) and its base size, and the photo is square |
| MarkerGeometry.DimensionsMonotone | src/component/imageEditPannel/imageMarkerUtils.ts:62-76 | every dimension grows, or stays the same, as the zoom grows |
| MarkerGeometry.DimensionsAtMinZoom | src/component/imageEditPannel/imageMarkerUtils.ts:62-76 | at zoom 7 or less the dimensions are exactly the floors, with a 40-pixel photo |
| MarkerGeometry.DimensionsAtMaxZoom | src/component/imageEditPannel/imageMarkerUtils.ts:62-76 | at zoom 13 or more the dimensions are exactly the base sizes |
| MarkerGeometry.IconLayout | src/component/imageEditPannel/imageMarkerUtils.ts:81-196 | card width is photo + 2·border; container is card + buffer wide and card + pin + buffer tall; anchor is (container width / 2, pin + buffer / 2); popup anchor is (0, −card height / 2 − pin) |
| MarkerGeometry.AnchorInsideIcon | src/component/imageEditPannel/imageMarkerUtils.ts:108-112 | for positive sizes, the anchor lies strictly inside the icon and the popup opens above it |
| ViewportFilter.SelectVisible | src/component/imageEditPannel/imageMarkerUtils.ts:41-56 | the filter's output equals `Visible`: one representative per country at zoom 5 or less, all in-view pins above |
| ViewportFilter.SelectRepresentatives | src/component/imageEditPannel/imageMarkerUtils.ts:41-51 | the low-zoom `forEach` with its `displayedCountries` set computes `Representatives`, starting from an empty set |
| ViewportFilter.ConsiderPin | src/component/imageEditPannel/imageMarkerUtils.ts:44-50 | one `forEach` step (push and mark a new in-view country; push an in-view pin without a country; skip otherwise) keeps the loop invariant |
| ViewportFilter.SelectInView | src/component/imageEditPannel/imageMarkerUtils.ts:53-55 | the high-zoom `forEach` computes the in-view pins in order |
| ViewportFilter.RepresentativesOfCountry | src/component/imageEditPannel/imageMarkerUtils.ts:41-51 | for each country, the low-zoom selection holds exactly its first in-view pin, or nothing if it was already displayed, so an out-of-view first pin does not block a later one |
| ViewportFilter.RepresentativesUntagged | src/component/imageEditPannel/imageMarkerUtils.ts:48-49 | at low zoom every in-view pin without a country is selected, in order |
| ViewportFilter.InViewOfCountry | src/component/imageEditPannel/imageMarkerUtils.ts:53-55 | at high zoom each country keeps all its in-view pins |
| ViewportFilter.LowZoomSelection | src/component/imageEditPannel/imageMarkerUtils.ts:41-51 | at zoom 5 or less, each country shows exactly its first in-view pin (none if it has no pin in view), and every in-view pin without a country is shown |
| ViewportFilter.HighZoomSelection | src/component/imageEditPannel/imageMarkerUtils.ts:52-56 | above zoom 5 the selection is exactly the in-view pins of every country, in input order |
| ViewportFilter.RepresentativesSubsequence | src/component/imageEditPannel/imageMarkerUtils.ts:41-51 | the low-zoom selection is an order-preserving subsequence of the input and contains only in-view pins |
| ViewportFilter.InViewSubsequence | src/component/imageEditPannel/imageMarkerUtils.ts:52-56 | the high-zoom selection is an order-preserving subsequence of the input and contains only in-view pins |
| ViewportFilter.VisibleSubsequence | src/component/imageEditPannel/imageMarkerUtils.ts:41-56 | in both regimes the output is an order-preserving subsequence containing only in-view pins |
| MarkerLayer.Layer.constructor | src/component/mapComponent/mapGallery.tsx:354-356 | a new layer group holds no markers |
| MarkerLayer.Layer.ClearLayers | src/component/imageEditPannel/imageMarkerUtils.ts:33 | `clearLayers` empties the layer |
| MarkerLayer.Layer.AddLayer | src/component/imageEditPannel/imageMarkerUtils.ts:199-200 | `addTo` appends exactly the one marker |
| AlbumMarkers.AlbumRenderSpec | src/component/imageEditPannel/imageMarkerUtils.ts:62-112 | an album marker uses the shared dimensions with caption font base 14, and its card height is 2·border + photo + caption |
| AlbumMarkers.AlbumGeometryAtMinZoom | src/component/imageEditPannel/imageMarkerUtils.ts:81-196 | at zoom 7 or less the icon is 54×79 with its anchor at (27, 13), its popup anchor at (0, −41.5) and an 8-pixel caption |
| AlbumMarkers.AlbumGeometryAtMaxZoom | src/component/imageEditPannel/imageMarkerUtils.ts:81-196 | at zoom 13 or more the icon is 196×251 with its anchor at (98, 31), its popup anchor at (0, −132) and a 14-pixel caption |
| AlbumMarkers.AlbumAnchorInside | src/component/imageEditPannel/imageMarkerUtils.ts:108-112 | at every zoom an album marker's anchor lies inside its icon and its popup opens above it |
| AlbumMarkers.Caption | src/component/imageEditPannel/imageMarkerUtils.ts:59 | the caption fallback (title, then country, then "Untitled Album") never yields an empty caption |
| AlbumMarkers.CoverFor | src/component/imageEditPannel/imageMarkerUtils.ts:114-135 | the cover photo is shown exactly when the cover key is non-empty and has non-empty stored data, and shows that data; otherwise the "Cover Missing" placeholder appears with a font of at least 8 |
| AlbumMarkers.MarkersFor | src/component/imageEditPannel/imageMarkerUtils.ts:58-204 | one marker per selected album |
| AlbumMarkers.UpdateImageMarkersOnMap | src/component/imageEditPannel/imageMarkerUtils.ts:30-205 | after an update the layer holds exactly `LayerAfterUpdate`: it is cleared first, and stays empty for missing or empty data, whatever it held before |
| AlbumMarkers.AddMarkers | src/component/imageEditPannel/imageMarkerUtils.ts:58-204 | the marker loop appends the markers of the selected albums, in order, after what the layer held |
| AlbumMarkers.MarkersForPointwise | src/component/imageEditPannel/imageMarkerUtils.ts:58-204 | marker i is built from album i |
| AlbumMarkers.MarkerCaptionEscaped | src/component/imageEditPannel/imageMarkerUtils.ts:59-60 | a marker's caption is the escaped caption fallback and contains no raw `<`, `>` or `"` |
| AlbumMarkers.LayerMarkersForwardTheirAlbums | src/component/imageEditPannel/imageMarkerUtils.ts:199-204 | the rebuilt layer has one marker per selected album, in order; marker i carries (and its click forwards) the i-th selected album, which is in view, under its escaped caption |
| AlbumMarkers.SameCountryScenario | src/component/imageEditPannel/imageMarkerUtils.ts:41-56 | three in-view albums of one country show as one marker at zoom 3 and as three at zoom 10 |
| ImageMarkers.ImageRenderSpec | src/app/gallery/imageMarkerUtils.ts:84-114 | an image marker uses the shared dimensions with caption font base 30, and its card height is border + photo + caption |
| ImageMarkers.ImageGeometryAtMinZoom | src/app/gallery/imageMarkerUtils.ts:84-155 | at zoom 7 or less the icon is 54×75 with its anchor at (27, 13), its popup anchor at (0, −39.5) and an 8-pixel caption |
| ImageMarkers.ImageGeometryAtMaxZoom | src/app/gallery/imageMarkerUtils.ts:84-155 | at zoom 13 or more the icon is 196×239 with its anchor at (98, 31), its popup anchor at (0, −126) and a 30-pixel caption |
| ImageMarkers.ImageCardOneBorderShorter | src/app/gallery/imageMarkerUtils.ts:102-125 | at the same zoom, the image card and its icon container are each one border shorter than the album version's, with the same widths and the same anchor; the image card is always at least the photo plus 19 pixels, the border floor of 4 plus the caption floor of 15 |
| ImageMarkers.Caption | src/app/gallery/imageMarkerUtils.ts:80 | the caption fallback (caption, then country, then "Untitled") never yields an empty caption |
| ImageMarkers.MarkersFor | src/app/gallery/imageMarkerUtils.ts:79-164 | one marker per selected image |
| ImageMarkers.UpdateImageMarkersOnMap | src/app/gallery/imageMarkerUtils.ts:53-165 | after an update the layer holds exactly `LayerAfterUpdate`: it is cleared first, and stays empty for missing or empty data |
| ImageMarkers.AddMarkers | src/app/gallery/imageMarkerUtils.ts:79-164 | the marker loop appends the markers of the selected images, in order |
| ImageMarkers.MarkersForPointwise | src/app/gallery/imageMarkerUtils.ts:79-164 | marker i is built from image i |
| ImageMarkers.MarkerCaptionEscaped | src/app/gallery/imageMarkerUtils.ts:80-81 | a marker's caption is the escaped caption fallback and contains no raw `<`, `>` or `"` |
| ImageMarkers.LayerMarkersForwardTheirImages | src/app/gallery/imageMarkerUtils.ts:158-163 | the rebuilt layer has one marker per selected image, in order; marker i carries (and its click forwards) the i-th selected image, shows its url and has its escaped caption |
| Debounce.Call | src/component/mapComponent/mapGallery.tsx:47-50 | a call cancels any pending timer, schedules its own arguments a full wait ahead, and runs nothing now |
| Debounce.Elapse | src/component/mapComponent/mapGallery.tsx:49 | a pending call runs exactly once, with its own arguments, when its time is up; until then it only counts down; an idle state does not change |
| Debounce.ElapseAdditive | src/component/mapComponent/mapGallery.tsx:49 | letting a and then b milliseconds pass is the same as letting a + b pass |
| Debounce.Settle | src/component/mapComponent/mapGallery.tsx:49 | once every pending timer has run, nothing is pending |
| Debounce.BurstKeepsLatest | src/component/mapComponent/mapGallery.tsx:48-49 | during a burst of calls closer together than the wait, nothing runs, and the pending call is the last one's, a full wait ahead |
| Debounce.BurstRunsOnceWithLastArgs | src/component/mapComponent/mapGallery.tsx:45-51 | a burst runs the function exactly once, with the last call's arguments |
| Debounce.SpacedCallsAllRun | src/component/mapComponent/mapGallery.tsx:45-51 | calls at least a full wait apart each run once, in order, with their own arguments |
| Debounce.Debouncer.constructor | src/component/mapComponent/mapGallery.tsx:46 | a fresh debounced wrapper has no pending timer and has run nothing |
| Debounce.Debouncer.Invoke | src/component/mapComponent/mapGallery.tsx:47-50 | the wrapper's state after a call is `Call` of its state before |
| Debounce.Debouncer.Tick | src/component/mapComponent/mapGallery.tsx:49 | the wrapper's state after time passes is `Elapse` of its state before |
| MarkerRedraw.Initial | src/component/mapComponent/mapGallery.tsx:262-264 | at mount the wrapper closes over the initial list, is idle and has drawn nothing; the wiring starts in due order and up to date |
| MarkerRedraw.Moved | src/component/mapComponent/mapGallery.tsx:392-402 | a `zoomend` or `moveend` event calls the current wrapper: its pending call becomes the captured list, a full 250 ms ahead; nothing is drawn, nothing stranded changes, and an up-to-date wiring stays so |
| MarkerRedraw.DrawnNow | src/component/mapComponent/mapGallery.tsx:404-408 | the immediate effect draws the captured list once and leaves every timer as it was |
| MarkerRedraw.Rebuilt | src/component/mapComponent/mapGallery.tsx:262-264 | a render with a new list, as written: the new wrapper is idle and closes over the new list, and the old wrapper's pending call is kept, after the already stranded ones |
| MarkerRedraw.RebuiltClearing | src/component/mapComponent/mapGallery.tsx:392-402 | the corrected rebuild: the same, except that the old wrapper's pending call is dropped |
| MarkerRedraw.ElapseQueue | src/component/mapComponent/mapGallery.tsx:45-51 | waiting on a queue of timers keeps every timer either run or still waiting, and a waiting timer always has time left |
| MarkerRedraw.Pass | src/component/mapComponent/mapGallery.tsx:45-51 | waiting runs the due stranded calls, in queue order, before the current wrapper's |
| MarkerRedraw.ScheduledMoved | src/component/mapComponent/mapGallery.tsx:45-51 | a map event keeps every timer within one wait and the queue in due order |
| MarkerRedraw.ScheduledDrawnNow | src/component/mapComponent/mapGallery.tsx:404-408 | the immediate redraw keeps the queue in due order |
| MarkerRedraw.ScheduledRebuilt | src/component/mapComponent/mapGallery.tsx:262-264 | the rebuild as written keeps the queue in due order: the stranded call goes last |
| MarkerRedraw.ScheduledRebuiltClearing | src/component/mapComponent/mapGallery.tsx:392-402 | the corrected rebuild, the one the pages use, keeps the queue in due order and within one wait |
| MarkerRedraw.ScheduledPass | src/component/mapComponent/mapGallery.tsx:45-51 | waiting keeps the queue in due order and within one wait, so running due calls in queue order runs them in the order their times come up |
| MarkerRedraw.ElapseQueueSorted | src/component/mapComponent/mapGallery.tsx:45-51 | waiting keeps a sorted queue sorted |
| MarkerRedraw.ElapseQueueCeiling | src/component/mapComponent/mapGallery.tsx:45-51 | a timer still waiting was `dt` further off before |
| MarkerRedraw.ElapseQueueAllDue | src/component/mapComponent/mapGallery.tsx:45-51 | a queue whose timers are all due runs all of them |
| MarkerRedraw.FullWaitSettles | src/component/mapComponent/mapGallery.tsx:45-51 | 250 ms after any reachable state nothing is pending or stranded: a stale redraw comes at most one wait late |
| MarkerRedraw.StaleRedrawAsWritten | src/component/mapComponent/mapGallery.tsx:262-264 | as written, a pan with the old list, a new list within 250 ms, and the rest of the wait draw the old list, the new list and then the old list again: the map ends up showing a list the page no longer holds |
| MarkerRedraw.RebuiltClearingUpToDate | src/component/mapComponent/mapGallery.tsx:392-408 | with the corrected rebuild, a new list and its immediate redraw leave the wiring up to date: nothing stranded, any pending call and the last redraw both carry the new list |
| MarkerRedraw.UpToDatePass | src/component/mapComponent/mapGallery.tsx:45-51 | waiting keeps an up-to-date wiring up to date, and every redraw it runs draws the captured list |
| MarkerRedraw.RebuiltWhenIdle | src/component/mapComponent/mapGallery.tsx:262-264 | with no call pending, the rebuild as written is the corrected one: the stale redraw needs a pan or zoom less than one wait before the list changes |
| MarkerRedraw.NoStaleRedrawWhenCleared | src/component/mapComponent/mapGallery.tsx:392-408 | the scenario of `StaleRedrawAsWritten` with the corrected rebuild draws the old list and then the new one, and nothing after |
| CountryView.TrimStart | src/component/mapComponent/mapGallery.tsx:427 | drops exactly the leading white space: the result is a suffix, starts with a non-blank character, and only white space was dropped |
| CountryView.TrimEnd | src/component/mapComponent/mapGallery.tsx:427 | drops exactly the trailing white space |
| CountryView.TrimEmptyIffBlank | src/component/mapComponent/mapGallery.tsx:427 | `query.trim() === ""` holds exactly when the query is all white space |
| CountryView.LowerChar | src/component/mapComponent/mapGallery.tsx:434 | lower-casing leaves no upper-case ASCII letter and keeps every other character |
| CountryView.ToLower | src/component/mapComponent/mapGallery.tsx:434 | `toLowerCase` keeps the length and lower-cases position by position |
| CountryView.ToLowerIdempotent | src/component/mapComponent/mapGallery.tsx:434 | lower-casing twice is lower-casing once |
| CountryView.MatchesAreExactlyTheMatching | src/component/mapComponent/mapGallery.tsx:433-435 | the filtered features are exactly those whose lower-cased name contains the lower-cased query, in their original order |
| CountryView.Take | src/component/mapComponent/mapGallery.tsx:436 | `slice(0, n)` is a prefix of at most n elements, the whole list when it is short enough |
| CountryView.Search | src/component/mapComponent/mapGallery.tsx:423-438 | a blank query gives no results and a closed dropdown; otherwise the results are the first ten matches, and the dropdown is open exactly when something matched |
| CountryView.SearchShowsMatchingFeatures | src/component/mapComponent/mapGallery.tsx:423-438 | at most ten results, all matching; the dropdown is open exactly when there are results; with ten or fewer matches every match is shown |
| CountryView.ToLowerKeepsBlankness | src/component/mapComponent/mapGallery.tsx:427-434 | lower-casing does not change whether a query is blank |
| CountryView.LowerCharKeepsWhiteSpace | src/component/mapComponent/mapGallery.tsx:427-434 | lower-casing keeps white space as white space and adds no new white space |
| CountryView.SearchIgnoresQueryCase | src/component/mapComponent/mapGallery.tsx:423-438 | searching for the lower-cased query gives the same outcome as searching for the query |
| CountryView.MatchesSameLoweredQuery | src/component/mapComponent/mapGallery.tsx:433-435 | two queries that lower-case alike match the same features |
| CountryView.ComputeFlight | src/component/mapComponent/mapGallery.tsx:470-496 | the centre and zoom assigned step by step equal the adjusted centre and the scaled-then-clamped zoom |
| CountryView.FlightZoomWithinMapRange | src/component/mapComponent/mapGallery.tsx:475-496 | the flight zoom always lies in the map's range [3, 14]; a country without an adjustment keeps its bounds centre, and keeps its fitting zoom when that is in range |
| CountryView.MinZoomAppliedLast | src/component/mapComponent/mapGallery.tsx:491-496 | the minimum zoom is applied after the maximum, so it wins when the two conflict |
| CountryView.AdjustedCountries | src/component/mapComponent/mapGallery.tsx:32-37 | Russia keeps its latitude and gets longitude 95; the USA, Canada and Greenland get their fixed centres; each zoom is scaled by its factor (1.3, 1.7, 1.6, 1.5) and then clamped |
| CountryView.ScaleMonotone | src/component/mapComponent/mapGallery.tsx:485-487 | scaling by a non-negative zoom factor preserves order |
| CountryView.ClampMonotone | src/component/mapComponent/mapGallery.tsx:491-496 | clamping preserves order |
| CountryView.AdjustedZoomMonotone | src/component/mapComponent/mapGallery.tsx:477-496 | a larger fitting zoom never gives a smaller flight zoom |
| CountryView.FlyToCountry | src/component/mapComponent/mapGallery.tsx:439-503 | nothing without a name or geometry; without usable bounds, a point feature is flown to at zoom 6 and anything else is left alone; otherwise it flies to the adjusted target |
| CountryView.Highlights | src/component/mapComponent/mapGallery.tsx:272-280 | a hovered country is highlighted exactly when no location is being picked, it is not the country just zoomed to, and the zoom is below 10 |
| AlbumGallery.NewDraft | src/component/mapComponent/mapGallery.tsx:111-127 | a new draft has the sentinel id, an empty cover key, no images and sits at the origin |
| AlbumGallery.CoverFromForm | src/component/mapComponent/mapGallery.tsx:169-171 | a non-empty form key becomes the cover key and keeps a non-empty cover id; an empty or unchanged key keeps the cover |
| AlbumGallery.DraftFromForm | src/component/mapComponent/mapGallery.tsx:166-179 | before picking, the draft takes the form's title, description, cover and (if given) date, and keeps its id, location and images |
| AlbumGallery.EditedFromForm | src/component/mapComponent/mapGallery.tsx:192-201 | before picking, the edited album takes the form's title, description and cover, and keeps its id, location and date |
| AlbumGallery.LastWithId | src/component/mapComponent/mapGallery.tsx:222-232 | the album left for re-editing is the last album in the list with the picked id (the updater overwrites it on every match); there is none exactly when no album has that id |
| AlbumGallery.NewDraftShowsPrompts | src/component/mapComponent/mapGallery.tsx:107-161 | a fresh draft is headed "New Album", shows the pick-location prompt, and is refused by the save guard |
| AlbumGallery.DraftAcceptance | src/component/mapComponent/mapGallery.tsx:143-151 | a draft with a cover key is accepted after a pick exactly when the picked point is not (0, 0) |
| AlbumGallery.SaveReplacesOnlyMatching | src/component/mapComponent/mapGallery.tsx:98-101 | an edit save keeps the list length and replaces exactly the albums with the saved id |
| AlbumGallery.MapClickMovesOnlyPicked | src/component/mapComponent/mapGallery.tsx:223-232 | a map click moves exactly the albums with the picked id, and changes only their coordinates |
| AlbumGallery.DeleteKeepsOthers | src/component/mapComponent/mapGallery.tsx:416-420 | a delete keeps exactly the albums with another id, in order |
| AlbumGallery.Gallery.constructor | src/component/mapComponent/mapGallery.tsx:61-76 | the page starts with the given albums, no panel open, nothing being picked and an empty search |
| AlbumGallery.Gallery.MapInitialised | src/component/mapComponent/mapGallery.tsx:339-362 | once initialisation finishes, Leaflet, the map and the marker layer are present and the country features are loaded, and the map-ready effect (lines 404-408) draws the album list on the layer at once (`MarkerRedraw.DrawnNow`); nothing else changes |
| AlbumGallery.Gallery.AlbumsPropChanged | src/component/mapComponent/mapGallery.tsx:411-413 | a new `imagesData` prop replaces the album list and nothing else |
| AlbumGallery.Gallery.AlbumMarkerClick | src/component/mapComponent/mapGallery.tsx:83-90 | ignored while picking; otherwise the draft is dropped, the new-album panel closes and the edit panel opens on exactly the clicked album |
| AlbumGallery.Gallery.EditPanelClose | src/component/mapComponent/mapGallery.tsx:92-95 | the edit panel closes and forgets its album |
| AlbumGallery.Gallery.EditPanelSave | src/component/mapComponent/mapGallery.tsx:98-104 | the albums with the saved id are replaced and the edit panel closes; nothing else changes |
| AlbumGallery.Gallery.OpenNewAlbumPanel | src/component/mapComponent/mapGallery.tsx:107-129 | the edit panel closes and the new-album panel opens on a fresh draft |
| AlbumGallery.Gallery.CloseNewAlbumPanel | src/component/mapComponent/mapGallery.tsx:131-141 | the draft and its panel go, and a pick made for the draft is abandoned |
| AlbumGallery.Gallery.SaveNewAlbum | src/component/mapComponent/mapGallery.tsx:143-161 | without a cover key, or with the draft still at the origin, nothing changes; otherwise exactly one album is appended, with the generated id and a date, and the draft closes |
| AlbumGallery.Gallery.StartPickForNewAlbum | src/component/mapComponent/mapGallery.tsx:163-187 | the new-album panel hides; with a draft, the draft takes the form's values and the map waits for a click for the sentinel id; without one, nothing else changes |
| AlbumGallery.Gallery.StartPickForExistingAlbum | src/component/mapComponent/mapGallery.tsx:189-209 | the edit panel closes, the edited album takes the form's values, and the map waits for a click for that album's id |
| AlbumGallery.Gallery.MapClick | src/component/mapComponent/mapGallery.tsx:210-245 | nothing without a picking id or before Leaflet loads; for the sentinel, the draft moves and its panel reopens; otherwise exactly the picked albums move, and the edit panel reopens only if the list updater ran at once; the picking id is cleared in both cases |
| AlbumGallery.Gallery.DeleteAlbum | src/component/mapComponent/mapGallery.tsx:416-420 | every album with the id goes; the rest stay, in order |
| AlbumGallery.Gallery.UpdateAlbumMarkers | src/component/mapComponent/mapGallery.tsx:254-260 | a no-op unless Leaflet, the map and the layer are all present; otherwise the layer is rebuilt from the album list |
| AlbumGallery.Gallery.MapMoved | src/component/mapComponent/mapGallery.tsx:392-402 | once the map is ready, a map event calls the current wrapper (`MarkerRedraw.Moved`); before that nothing changes; an up-to-date wiring stays so |
| AlbumGallery.Gallery.TimePasses | src/component/mapComponent/mapGallery.tsx:254-264 | waiting advances the wiring by `MarkerRedraw.Pass`; when a redraw ran and the map and layer are there, the layer shows the markers of the list the last redraw carried, otherwise it is unchanged; an up-to-date wiring stays so |
| AlbumGallery.Gallery.ListReplaced | src/component/mapComponent/mapGallery.tsx:262-264 | after a render with a new album list the wrapper closes over it, with the corrected rebuild (`MarkerRedraw.RebuiltClearing`), which drops the old wrapper's pending call; once the map and layer are there, the layer is rebuilt from it at once and, when nothing was stranded, the wiring is up to date |
| AlbumGallery.Gallery.SearchChange | src/component/mapComponent/mapGallery.tsx:423-438 | the query is stored, and the results and dropdown become the search outcome for it |
| AlbumGallery.Gallery.SearchFocus | src/component/mapComponent/mapGallery.tsx:525 | focusing the search box reopens the dropdown only when there is a query and something to show |
| AlbumGallery.Gallery.MouseDown | src/component/mapComponent/mapGallery.tsx:507-517 | a mouse-down outside the search box closes the dropdown; inside it, nothing changes |
| AlbumGallery.Gallery.FlyToCountry | src/component/mapComponent/mapGallery.tsx:439-503 | nothing before the map and Leaflet exist; otherwise the flight is requested and, when the bounds were usable, the country becomes the zoomed one and the search box is cleared |
| AlbumGallery.Gallery.CountryClick | src/component/mapComponent/mapGallery.tsx:284-317 | ignored while picking or before the map and Leaflet exist; otherwise the country becomes the zoomed one and the map flies to its adjusted target |
| AlbumGallery.Gallery.HighlightsOnHover | src/component/mapComponent/mapGallery.tsx:272-280 | a highlight needs the map, no pick in progress, a country other than the zoomed one, and a zoom below 10 |
| ImageGallery.MapClickMovesOnlyPicked | src/app/gallery/mapGallery.tsx:115-121 | a map click moves exactly the images with the picked id, and changes only their coordinates |
| ImageGallery.SaveReplacesOnlyMatching | src/app/gallery/mapGallery.tsx:90-93 | a save keeps the list length and replaces exactly the images with the saved id |
| ImageGallery.DeleteKeepsOthers | src/app/gallery/mapGallery.tsx:314-317 | a delete keeps exactly the images with another id, in order, and repeating it changes nothing |
| ImageGallery.Page.constructor | src/app/gallery/mapGallery.tsx:62-72 | the page starts with the given images, the panel closed, nothing being picked and an empty search |
| ImageGallery.Page.MapInitialised | src/app/gallery/mapGallery.tsx:233-257 | once initialisation finishes, Leaflet, the map and the marker layer are present and the country features are loaded, and the map-ready effect (lines 302-307) draws the image list on the layer at once (`MarkerRedraw.DrawnNow`); nothing else changes |
| ImageGallery.Page.ImagesPropChanged | src/app/gallery/mapGallery.tsx:310-312 | a new `imagesData` prop replaces the image list and nothing else |
| ImageGallery.Page.ImageClick | src/app/gallery/mapGallery.tsx:79-83 | ignored while picking; otherwise the panel opens on exactly the clicked image |
| ImageGallery.Page.PanelClose | src/app/gallery/mapGallery.tsx:85-88 | the panel closes and forgets its image |
| ImageGallery.Page.PanelSave | src/app/gallery/mapGallery.tsx:90-96 | the images with the saved id are replaced and the panel closes |
| ImageGallery.Page.StartPickLocation | src/app/gallery/mapGallery.tsx:98-107 | with an image being edited, the picking id becomes its id and the panel closes; without one, nothing changes |
| ImageGallery.Page.MapClick | src/app/gallery/mapGallery.tsx:109-129 | nothing without a picking id or before Leaflet loads; otherwise exactly the picked images move, the picking id is cleared and the panel stays closed |
| ImageGallery.Page.DeleteImage | src/app/gallery/mapGallery.tsx:314-322 | every image with the id goes; the rest stay, in order; the panel is untouched |
| ImageGallery.Page.UpdateImageMarkers | src/app/gallery/mapGallery.tsx:136-145 | a no-op unless Leaflet, the map and the layer are all present; otherwise the layer is rebuilt from the image list |
| ImageGallery.Page.MapMoved | src/app/gallery/mapGallery.tsx:288-299 | once the map is ready, a map event calls the current wrapper (`MarkerRedraw.Moved`); before that nothing changes; an up-to-date wiring stays so |
| ImageGallery.Page.TimePasses | src/app/gallery/mapGallery.tsx:136-149 | waiting advances the wiring by `MarkerRedraw.Pass`; when a redraw ran and the map and layer are there, the layer shows the markers of the list the last redraw carried, otherwise it is unchanged; an up-to-date wiring stays so |
| ImageGallery.Page.ListReplaced | src/app/gallery/mapGallery.tsx:147-149 | after a render with a new image list the wrapper closes over it, with the corrected rebuild (`MarkerRedraw.RebuiltClearing`), which drops the old wrapper's pending call; once the map and layer are there, the layer is rebuilt from it at once and, when nothing was stranded, the wiring is up to date |
| ImageGallery.Page.SearchChange | src/app/gallery/mapGallery.tsx:325-340 | the query is stored, and the results and dropdown become the search outcome for it |
| ImageGallery.Page.SearchFocus | src/app/gallery/mapGallery.tsx:458 | focusing the search box reopens the dropdown only when there is a query and something to show |
| ImageGallery.Page.MouseDown | src/app/gallery/mapGallery.tsx:419-429 | a mouse-down outside the search box closes the dropdown |
| ImageGallery.Page.BackButtonClick | src/app/gallery/mapGallery.tsx:432-437 | the back button empties the query and the results and closes the dropdown |
| ImageGallery.Page.FlyToCountry | src/app/gallery/mapGallery.tsx:342-412 | nothing before the map and Leaflet exist; otherwise the flight is requested and, when the bounds were usable, the country becomes the zoomed one and the search box is cleared |
| ImageGallery.Page.CountryClick | src/app/gallery/mapGallery.tsx:170-205 | ignored while picking or before the map and Leaflet exist; otherwise the country becomes the zoomed one and the map flies to its adjusted target |
| ImageGallery.Page.HighlightsOnHover | src/app/gallery/mapGallery.tsx:156-164 | a highlight needs the map, no pick in progress, a country other than the zoomed one, and a zoom below 10 |
| EditPanel.Stem | src/component/imageEditPannel/ImageEditPanel.tsx:247 | `name.split('.')[0]` is the longest dot-free prefix of the file name |
| EditPanel.SavedAlbum | src/component/imageEditPannel/ImageEditPanel.tsx:223-233 | the album sent to `onSave` keeps the id, location and country, carries the form's title and description with the given cover and images, and keeps the date of an existing album |
| EditPanel.Toggle | src/component/imageEditPannel/ImageEditPanel.tsx:210-212 | toggling removes a selected id and adds an unselected one |
| EditPanel.ToggleTwice | src/component/imageEditPannel/ImageEditPanel.tsx:210-212 | toggling changes only the toggled id, and toggling twice is the identity |
| EditPanel.DeletionPartitions | src/component/imageEditPannel/ImageEditPanel.tsx:217-219 | the kept images are exactly the unselected ones, in original order; the removed keys are exactly the non-empty urls of the selected images |
| EditPanel.CoverWithoutFile | src/component/imageEditPannel/ImageEditPanel.tsx:255-267 | without a new file: no key rejects; an unchanged key keeps the cover item and storage; a changed key makes a new cover item with that key and removes exactly the old key's data |
| EditPanel.CoverWithFile | src/component/imageEditPannel/ImageEditPanel.tsx:243-253 | with a converted file: the cover points at the fresh key holding its data, and the old cover's data goes exactly when it is non-empty, is not the new key and is no longer the form's key; no other storage entry changes |
| EditPanel.UploadKeepsOldCoverDataWhenKeyUntouched | src/component/imageEditPannel/ImageEditPanel.tsx:251 | uploading a new cover while the key field still shows the old key leaves the old cover's data in storage |
| EditPanel.CoverRejections | src/component/imageEditPannel/ImageEditPanel.tsx:254-267 | the submit is rejected exactly when a chosen file fails to convert, or when there is neither a file nor a key |
| EditPanel.ResolvedItemsAreStored | src/component/imageEditPannel/ImageEditPanel.tsx:190-191 | there is at most one item per file; every converted file's item is among them; every item's key is in storage after the upload |
| EditPanel.LocationLabelOf | src/component/imageEditPannel/ImageEditPanel.tsx:302-303 | the label is the "Pick Location" prompt exactly for the sentinel album at (0, 0); otherwise it shows the album's coordinates |
| EditPanel.DisplayTitle | src/component/imageEditPannel/ImageEditPanel.tsx:298 | the heading is never empty: the title when present, otherwise "New Album" exactly for the draft |
| EditPanel.SavedAfterAdd | src/component/imageEditPannel/ImageEditPanel.tsx:192-199 | the corrected upload save sends the panel's images followed by the uploads |
| EditPanel.AddInternalImagesDropsExisting | src/component/imageEditPannel/ImageEditPanel.tsx:199 | as written, uploading to an album that already holds an image sends an album without that image |
| EditPanel.AddInternalImagesKeepsExisting | src/component/imageEditPannel/ImageEditPanel.tsx:192-206 | the corrected save keeps every existing image, in order, with the uploads after them |
| EditPanel.PartitionSelection | src/component/imageEditPannel/ImageEditPanel.tsx:217-218 | the `forEach` builds exactly the kept images and the keys to delete |
| EditPanel.RemoveKeys | src/component/imageEditPannel/ImageEditPanel.tsx:219 | removing each collected key leaves the storage minus exactly those keys |
| EditPanel.Panel.constructor | src/component/imageEditPannel/ImageEditPanel.tsx:30-54 | the panel starts in the display view with empty fields, no selection and no album on display |
| EditPanel.Panel.SwitchPanelView | src/component/imageEditPannel/ImageEditPanel.tsx:59-62 | switching view always clears the selection and changes nothing else |
| EditPanel.Panel.Sync | src/component/imageEditPannel/ImageEditPanel.tsx:64-117 | opening on a different album loads it, in the edit view for the draft and the display view otherwise; re-opening the same album changes nothing; closing resets the panel |
| EditPanel.Panel.LoadAlbum | src/component/imageEditPannel/ImageEditPanel.tsx:69-95 | the form, images and view are initialised from the album, the selection is emptied and the album is remembered as on display |
| EditPanel.Panel.Reset | src/component/imageEditPannel/ImageEditPanel.tsx:98-117 | closing returns every form field, the selection and the view to their first state, and hides the delete confirmation |
| EditPanel.Panel.SwitchToEditDetails | src/component/imageEditPannel/ImageEditPanel.tsx:155-166 | the form is refilled from the album and the edit view opens with an empty selection |
| EditPanel.Panel.CancelEditDetails | src/component/imageEditPannel/ImageEditPanel.tsx:168-182 | for the draft, the panel asks to close and nothing else changes; for an existing album, the display view returns with the form and images reset from it |
| EditPanel.Panel.ChooseCoverFile | src/component/imageEditPannel/ImageEditPanel.tsx:184 | choosing a file records it and changes nothing else |
| EditPanel.Panel.ToggleImageSelection | src/component/imageEditPannel/ImageEditPanel.tsx:210-212 | the selection becomes the toggled selection and nothing else changes |
| EditPanel.Panel.DeleteSelectedImages | src/component/imageEditPannel/ImageEditPanel.tsx:214-236 | with no selection, or without confirmation, nothing changes; otherwise the unselected images are kept, the selected images' keys leave storage, the selection empties and `onSave` receives the kept images |
| EditPanel.Panel.StoreUploads | src/component/imageEditPannel/ImageEditPanel.tsx:190-191 | each converted file is stored under its key, and the items are collected in order |
| EditPanel.Panel.AddInternalImagesAsWritten | src/component/imageEditPannel/ImageEditPanel.tsx:186-208 | the uploads are stored and appended to the panel's images, but `onSave` receives the uploads alone |
| EditPanel.Panel.AddInternalImages | src/component/imageEditPannel/ImageEditPanel.tsx:186-208 | the uploads are stored and appended, and `onSave` receives the panel's images followed by the uploads |
| EditPanel.Panel.SubmitAlbumDetails | src/component/imageEditPannel/ImageEditPanel.tsx:238-286 | a rejected cover decision changes nothing; an accepted one commits its storage, sends the album with the form's fields, the chosen cover and the panel's images, and forgets the chosen file |
| EditPanel.Panel.PickLocationFromMap | src/component/imageEditPannel/ImageEditPanel.tsx:288-290 | the form's title, description, cover key and date go to `onStartPickLocation`, and nothing else changes |
| EditPanel.Panel.ConfirmDelete | src/component/imageEditPannel/ImageEditPanel.tsx:292-294 | the album's id goes to `onDelete`, then the panel asks to close, and the confirmation hides |

## Left out

- Leaflet is not modelled. This covers map creation, tiles, `getBounds`/`contains` (the `inView` parameter), `getBoundsZoom`, `divIcon`, markers and `flyTo`; a requested flight is recorded in `flights`.
- `LatLng.wrap()` is not modelled: the flight centre is the adjusted centre before wrapping.
- Floating point is not modelled. Numbers are exact reals, so `Math.round` at binary rounding boundaries and the `toFixed` and `toLocaleDateString` output are not captured.
- The HTML and CSS of the marker template and all JSX rendering are not modelled. A marker is a record of its dimensions, its icon geometry, its escaped caption and its cover or placeholder.
- The marker's click handler is represented by the album or image the marker carries.
- Browser storage is a map. `FileReader`, base64 conversion and the asynchrony of `await` are inputs: each file arrives already converted or failed, and each handler runs to completion.
- Generated ids, `Date.now`, `Math.random` and ISO timestamps (`dateAdded`, `lastUpdated`) are inputs or are dropped.
- The GeoJSON download, the resize listener, the teardown of the map effect and the crosshair cursor class are not modelled. The loaded features are a parameter of `MapInitialised`.
- `map.options.minZoom` and `maxZoom` are always set by the map initialisation, so both pages use `Some(3)` and `Some(14)`. The optional form is kept in `CountryView.AdjustedZoom`.
- In `zoomToFeature`, `feature.properties` is taken to be present; the GeoJSON layer always supplies it.
- Refs that mirror state (`pickingLocationFor…Ref`, `zoomedCountryNameRef`) are not separate fields. Handlers run one at a time, so each ref equals its state.
- `AlbumGallery.Gallery.MapClick`: React may run the list updater after `albumToReEdit` is read. A parameter `updaterRanEagerly` chooses between the two orders, so the model does not promise that the edit panel reopens.
- The `else if (albumCoverKey)` branch of `handleSubmitAlbumDetails` (ImageEditPanel.tsx:262-264) cannot be reached, because `albumCover` is a required field of an album.
- The effects that fill the preview and display sources (`displayModeCoverSrc`, `editModePreviewSrc`, `internalImagesDisplaySrcMap`, `coverFilePreview`) are display caches. They are not modelled.
- `handleDeleteInitiate` and `handleCancelDelete` only set `showDeleteConfirm` and are not modelled.
- The `confirm` dialog of `handleDeleteSelectedImages` is the `confirmed` parameter. `alert` messages are not modelled.
- `onClose` called by the panel for a draft is recorded as an event; what the page does with it is `CloseNewAlbumPanel`.
- `AlbumMarkers.Caption`: the contract states only that the caption is never empty. The fallback order is in the body, and `MarkerCaptionEscaped` ties each marker's caption to it.
- `ImageMarkers.Caption`: the same as `AlbumMarkers.Caption`.
- `CountryView.ToLower`: only ASCII letters are lower-cased. The full Unicode case mapping of `toLowerCase` is not modelled.
- `CountryView.LowerChar`: the same as `CountryView.ToLower`, for one character.
- The map events are only `zoomend` and `moveend` as one handler call each; Leaflet's event queue and the re-registration of the listener are not modelled. A render that keeps the same list keeps the same wrapper, so `ListReplaced` stands for a render whose list changed.
- src/app/gallery/ImageEditPanel.tsx, src/app/gallery/page.tsx and the landing-page components are not part of this model. They hold form plumbing, sample data and presentation only.

## Findings

| source | as written | input that shows it | evidently intended | confidence | as-written member | corrected member |
|---|---|---|---|---|---|---|
| src/component/imageEditPannel/ImageEditPanel.tsx:194-206 | `handleAddInternalImages` appends the uploads to the panel's own list (line 192), but the album it sends to `onSave` has `images: resolvedNewImageItems` (line 199): only the new uploads | an album holding one image `old1`, to which one new image `new1` is uploaded: the saved album holds `[new1]`, and `old1` is lost from the page's list | the saved album holds the existing images followed by the uploads, as the panel itself shows them | not executed | EditPanel.AddInternalImagesDropsExisting | EditPanel.AddInternalImagesKeepsExisting |
| src/component/mapComponent/mapGallery.tsx:262-264 | `useMemo` builds a new debounced wrapper when the list changes, and the listener effect's cleanup (lines 398-400) only calls `map.off`; src/app/gallery/mapGallery.tsx:147-149 and 294-296 do the same: the old wrapper's pending timer is never cleared, and its callback closes over the old list | pan the map, then save, add or delete an album within 250 ms: the data effect draws the new list at once, and 250 ms after the pan the old timer draws the old list over it, which stays until the next pan or zoom | the layer always shows the current list: the pending timer is cleared when the wrapper is replaced | medium, not executed | MarkerRedraw.StaleRedrawAsWritten | MarkerRedraw.NoStaleRedrawWhenCleared |

`EditPanel.Panel.AddInternalImagesAsWritten` models the handler as written.
`EditPanel.Panel.AddInternalImages` is the corrected handler, which the rest
of the panel model follows.

`MarkerRedraw.Rebuilt` is the wrapper rebuild as written, and
`MarkerRedraw.RebuiltClearing` the corrected one, which clears the old
wrapper's pending timer. The pages' `ListReplaced` uses the corrected
rebuild; `MarkerRedraw.RebuiltClearingUpToDate` and
`MarkerRedraw.UpToDatePass` prove that the map then keeps showing the
current list.
