# Supermarket price app, modelled in Dafny

This project models the logic of a supermarket price-comparison app. The app has a FastAPI back end and React / React Native front ends. It models:

- **Back end.** The query rules of the service: nearby stores, price comparison, price creation, and paged listings with optional filters. It also models the factor band the sample-data script draws prices from.
- **Screens.** The product list, the price comparison, the add-price form, the map screen, and the two browser search pages.
- **Map components.** The map wrapper that normalises markers, and four map adapters:
  - the native map;
  - the Leaflet map;
  - the Leaflet map view;
  - the Google map with its OpenStreetMap fallback.

Each adapter is a class. Its fields are the state of the component and of the map instance. The map engine itself is an abstract map from layer handles to layers. Each event is a method:

- the mount effect and the script callbacks;
- the marker refresh and the region change;
- a press on a popup button and the cleanup.

Pure code becomes functions with lemmas beside them. Loops become methods with invariants, proved against a specification function:

- the nearby and comparison loops of the back end;
- the listener loops of the Leaflet view;
- the remove-then-add loops of the marker refresh.

Modules, one per source file:

- `Backend`: `backend/main.py`.
- `DummyData`: `backend/add_dummy_data.py`.
- `StoreSpellings`: facts about two store names of the same script.
- `MapWrapper`, `WebMap`, `LeafletMapView`, `WebGoogleMap`, `NativeMap`: the map components.
- `MapScreen`, `PriceComparison`, `ProductList`, `AddPrice`: the screens.
- `WebSearchApp` (`frontend/src/App.js`) and `ReactSearchApp` (`frontend-react/src/App.js`).

Shared modules:

- `Common`: filter, page, take and indexed map over sequences.
- `Sorting`: Python's stable sort by key.
- `Text`: substring search, ASCII lower case, `trim`, `parseFloat` and decimal printing.
- `JsValues`: JavaScript values, truthiness, `||` and property access.
- `MapEngine`: the layers of a map instance and the clear-then-rebuild refresh that all adapters share.

## Model

| member | source | states |
|---|---|---|
| Backend.FindSupermarket | backend/main.py:130 | `None` exactly when no store has the id; otherwise a store of the table with that id |
| Backend.FindProduct | backend/main.py:158 | `None` exactly when no product has the id; otherwise a product of the table with that id |
| Backend.GetSupermarket | backend/main.py:128-133 | a 404 with the store detail exactly when no row has the id; otherwise a row with that id; never a server error |
| Backend.GetSupermarkets | backend/main.py:97-100 | at most `limit` rows, and row `k` is table row `skip + k` |
| Backend.NearbyEntries | backend/main.py:109-123 | never more entries than stores |
| Backend.NearbyEntriesInOrder | backend/main.py:109-123 | one entry per store within the radius, in table order: entry `k` is built from the `k`-th such store with its rounded distance |
| Backend.NearbyEntriesMembers | backend/main.py:112-123 | an entry is in the list exactly when it is built from a store whose distance is at most the radius (inclusive), with the rounded distance |
| Backend.NearbySupermarkets | backend/main.py:102-126 | the loop and the sort give the stably sorted list of the entries within the radius |
| Backend.NearbyAnswer | backend/main.py:109-126 | the answer is sorted by rounded distance, is a permutation of the in-radius entries, and keeps table order among equal distances |
| Backend.GetProducts | backend/main.py:143-149 | the category filter applies only to a set, non-empty category; then one page of at most `limit` rows, each from the table |
| Backend.PageMembers | backend/main.py:148 | every row of a page is a row of the list paged |
| Backend.SearchProducts | backend/main.py:151-154 | exactly the products whose name contains `q`, in table order |
| Backend.GetPrices | backend/main.py:172-187 | the two id filters, each only for a set non-zero id, then one page of at most `limit` rows |
| Backend.ZeroIdIsNoFilter | backend/main.py:181-182 | a product id of 0 gives the same answer as no product id |
| Backend.CreatePrice | backend/main.py:156-170 | product missing gives the product 404; else store missing gives the store 404; success exactly when both exist, with the new row appended; the database is unchanged on failure |
| Backend.CreatePriceBothMissing | backend/main.py:158-160 | with both missing, the answer is the product's 404 |
| Backend.RowsFor | backend/main.py:191 | exactly the price rows of the product, in table order |
| Backend.ComparisonEntries | backend/main.py:195-203 | one entry per row; `None` exactly when some row's store is missing |
| Backend.Compare | backend/main.py:189-209 | 404 exactly when the product has no rows; a server error exactly when a row's store is missing; otherwise the product name of the first row and the entries sorted by price |
| Backend.ComparePrices | backend/main.py:189-209 | the handler computes `Compare` |
| Backend.BuildEntries | backend/main.py:195-203 | the append loop computes `ComparisonEntries` |
| Backend.EntriesStep | backend/main.py:196-203 | one more row appends its entry, or makes the answer `None` when its store is missing |
| Backend.PrefixMissingStore | backend/main.py:198 | a missing store in a prefix makes the whole loop fail |
| Backend.CompareAnswer | backend/main.py:205-209 | a successful comparison lists a permutation of one entry per row, sorted by price, equal prices in row order |
| Sorting.InsertBy | backend/main.py:125 | insertion adds one element |
| Sorting.SortBy | backend/main.py:125 | sorting keeps the length |
| Sorting.InsertByMultiset | backend/main.py:125 | insertion adds exactly that element to the multiset |
| Sorting.InsertBySorted | backend/main.py:125 | insertion into a sorted list keeps it sorted |
| Sorting.SortBySorted | backend/main.py:125 | the result is in ascending key order |
| Sorting.SortByPermutation | backend/main.py:205 | the result is a permutation of the input |
| Sorting.KeyClass | backend/main.py:205 | the elements with one key, each from the list |
| Sorting.InsertByKeyClass | backend/main.py:205 | insertion puts an element after the earlier elements with its key |
| Sorting.SortByStable | backend/main.py:205 | for every key, the elements with that key keep their input order |
| Common.Page | backend/main.py:148 | `offset(skip).limit(limit)`: the exact length, and row `k` is input row `skip + k` |
| Common.Take | frontend/src/screens/AddPriceScreen.js:67 | `slice(0, n)`: a prefix of length `min(n, length)` |
| DummyData.BasePrice | backend/add_dummy_data.py:147-162 | the table price for the twelve products, 200 otherwise, always between 150 and 400 |
| DummyData.FirstMatch | backend/add_dummy_data.py:165-190 | the index of the first keyword entry the store name contains, or the table length; no earlier entry matches |
| DummyData.ChainOfAsWritten | backend/add_dummy_data.py:165-190 | the default chain exactly when none of the seven keywords, spelled as in the script, occurs in the name |
| DummyData.ChainOf | backend/add_dummy_data.py:165-190 | the same chain choice with the extra spellings; the first matching chain in keyword order, the default exactly when none matches |
| DummyData.PriceRangeAsWritten | backend/add_dummy_data.py:143-195 | the cheapest price is never above the dearest |
| DummyData.PriceRange | backend/add_dummy_data.py:143-195 | the base price scaled by the chosen band's two percentages, rounded down; cheapest never above dearest |
| DummyData.BandOrdered | backend/add_dummy_data.py:165-190 | in every branch the lower factor is below the upper factor |
| DummyData.ScaleMonotone | backend/add_dummy_data.py:192-193 | scaling by a smaller factor never gives a larger price |
| DummyData.BandDependsOnProductOnlyForDiscounter | backend/add_dummy_data.py:171-176 | only the discount chain's band depends on the product; there 卵/牛乳/食パン get 80–110 and others 85–130 |
| DummyData.ChainsAgreeWithoutExtraSpellings | backend/add_dummy_data.py:165-190 | for names with neither extra spelling, both keyword lists pick the same chain |
| DummyData.PriceRangesAgreeWithoutExtraSpellings | backend/add_dummy_data.py:143-195 | for names with neither extra spelling, the script's price range is the corrected one |
| DummyData.SameMatches | backend/add_dummy_data.py:165-190 | two keyword tables that match the same entries pick the same first match |
| StoreSpellings.KabukichoMissesFirstKeywords | backend/add_dummy_data.py:91 | the name 'ドン・キホーテ 新宿歌舞伎町店' contains none of the first three keywords |
| StoreSpellings.KabukichoMissesLastKeywords | backend/add_dummy_data.py:91 | and none of the last four keywords |
| StoreSpellings.IchikawaMissesFirstKeywords | backend/add_dummy_data.py:74 | the name 'BIGA（ビッグエー） 市川八幡店' contains none of the first three keywords |
| StoreSpellings.IchikawaMissesLastKeywords | backend/add_dummy_data.py:74 | and none of the last four keywords |
| StoreSpellings.NoKeywordIsNoChain | backend/add_dummy_data.py:165-190 | a name without any keyword gets the default band |
| StoreSpellings.DonQuijoteSpellingMissed | backend/add_dummy_data.py:91 | the script as written gives this discount store the default band; for eggs 180–220 |
| StoreSpellings.BigASpellingMissed | backend/add_dummy_data.py:74 | the script as written gives this BigA store the default band; for eggs 180–220 |
| StoreSpellings.KabukichoSpellings | backend/add_dummy_data.py:91 | the name spells the discount chain 'ドン・キホーテ' and contains neither earlier keyword |
| StoreSpellings.IchikawaSpellings | backend/add_dummy_data.py:74 | the name spells the chain 'ビッグエー' and does not contain '業務スーパー' |
| StoreSpellings.CorrectedKabukichoChain | backend/add_dummy_data.py:171-176 | with both spellings accepted, the store is the discount chain; eggs 160–220 |
| StoreSpellings.CorrectedIchikawaChain | backend/add_dummy_data.py:168-170 | with both spellings accepted, the store is BigA; eggs 150–184 |
| MapWrapper.SynthesizedId | frontend/src/components/MapWrapper.js:64 | the fallback id starts with 'marker-' followed by the index |
| MapWrapper.KeptPositions | frontend/src/components/MapWrapper.js:49-66 | the input positions whose marker has a valid coordinate, ascending, all of them |
| MapWrapper.Render | frontend/src/components/MapWrapper.js:33-86 | nothing exactly when the region is falsy or lacks numeric latitude/longitude; otherwise the web map on web and the native map elsewhere, with the normalised markers, the same callbacks, and `showsUserLocation` defaulting to false |
| MapWrapper.NormalizeMarkersKeeps | frontend/src/components/MapWrapper.js:49-66 | the output is exactly the normalised markers at the kept positions, in input order, no longer than the input |
| MapWrapper.NormalizeAtFields | frontend/src/components/MapWrapper.js:57-65 | title is title ∥ name ∥ 'マーカー', description is description ∥ address ∥ '', id is id ∥ 'marker-i'; every other field is carried through |
| MapWrapper.InvalidMarkersDropped | frontend/src/components/MapWrapper.js:50-55 | markers without a valid coordinate never reach a map |
| MapWrapper.SynthesizedIdsDistinct | frontend/src/components/MapWrapper.js:64 | fallback ids of different input positions differ |
| MapWrapper.NormalizedSynthesizedIdsDistinct | frontend/src/components/MapWrapper.js:49-66 | two output markers that both got a fallback id have different ids |
| MapWrapper.DuplicateRawIdsSurvive | frontend/src/components/MapWrapper.js:64 | two markers with the same truthy raw id keep it, so output ids need not be unique |
| MapWrapper.SingleStoreExample | frontend/src/components/MapWrapper.js:57-66 | a single store with a name and coordinate becomes one marker titled by its name with id 'marker-0' |
| MapWrapper.MissingRegionRendersNothing | frontend/src/components/MapWrapper.js:43-46 | a nullish region or one without numeric latitude renders nothing |
| NativeMap.InitialRegion | frontend/src/components/NativeMap.native.js:33-38 | copies the centre; a falsy span becomes 0.0922 / 0.0421 |
| NativeMap.MyLocationRegion | frontend/src/components/NativeMap.native.js:49-55 | the prop centre with the default spans |
| NativeMap.NativeMarkersFields | frontend/src/components/NativeMap.native.js:88-109 | one native marker per input marker with a truthy coordinate, in order; key id ∥ 'marker-i', title title ∥ name ∥ 'スーパーマーケット', description description ∥ address ∥ '' |
| NativeMap.NoCoordinateNoMarker | frontend/src/components/NativeMap.native.js:89 | no coordinates, no native markers |
| NativeMap.Render | frontend/src/components/NativeMap.native.js:27-38 | nothing on web or without the native module; otherwise the initial region and the native markers |
| NativeMap.PressMarker | frontend/src/components/NativeMap.native.js:60-64 | a press forwards the raw marker exactly when a callback is set |
| NativeMap.NativeMapComponent.constructor | frontend/src/components/NativeMap.native.js:32-38 | the region state starts at the initial region, with no animation |
| NativeMap.NativeMapComponent.HandleRegionChange | frontend/src/components/NativeMap.native.js:42-47 | stores the region and forwards the same region exactly when a callback is set |
| NativeMap.NativeMapComponent.HandleMyLocationPress | frontend/src/components/NativeMap.native.js:49-58 | resets to the prop centre with the default spans and asks for a 1000 ms animation when the ref is set |
| MapScreen.MapScreenState.constructor | frontend/src/screens/MapScreen.js:17-30 | no location, no stores, loading, the initial region, and one position request from the mount effect |
| MapScreen.InitialRegion | frontend/src/screens/MapScreen.js:21-26 | the region near Ichikawa station with the default spans |
| MapScreen.RegionAround | frontend/src/screens/MapScreen.js:68-72 | the position with the default spans |
| MapScreen.ShapeMarker | frontend/src/screens/MapScreen.js:156-167 | the record's own fields win over the computed ones; the computed id is id ∥ 'supermarket-i'; the computed coordinate holds the record's latitude and longitude |
| MapScreen.ShapeMarkers | frontend/src/screens/MapScreen.js:156 | one marker per supermarket, in order |
| MapScreen.ShapedIds | frontend/src/screens/MapScreen.js:164-166 | 'supermarket-i' survives exactly when the record has no `id` key |
| MapScreen.ShapedMarkerKept | frontend/src/screens/MapScreen.js:157-160 | a record without its own coordinate reaches the map exactly when its latitude and longitude are numbers |
| MapScreen.CappedRadius | frontend/src/screens/MapScreen.js:139 | `Math.min(radius, 50)` |
| MapScreen.SearchCentre | frontend/src/screens/MapScreen.js:83-84 | each truthy argument is used, a falsy one falls back to the device position; no centre without a position |
| MapScreen.ZeroCentreFallsBack | frontend/src/screens/MapScreen.js:83 | a centre latitude of 0 falls back to the device latitude |
| MapScreen.MapScreenState.MapProps | frontend/src/screens/MapScreen.js:194-201 | the region, the shaped markers, `showsUserLocation` true exactly when a position is known, and `styles.map` as the style |
| MapScreen.MapScreenState.LoadNearby | frontend/src/screens/MapScreen.js:80-92 | sets loading and sends the request for the chosen centre and radius |
| MapScreen.MapScreenState.NearbySettled | frontend/src/screens/MapScreen.js:93-100 | the list becomes the data, empty when the data is missing or the fetch fails (then with an alert); loading ends; location, region and position requests stay |
| MapScreen.MapScreenState.PositionSettled | frontend/src/screens/MapScreen.js:46-78 | a denial or failure alerts and leaves the location unset; a position sets location and region and starts a 20 km search; the list stays either way |
| MapScreen.MapScreenState.RegionChanged | frontend/src/screens/MapScreen.js:113-115 | only the region changes: the list, the location, loading, the nearby and position requests and the alerts all stay |
| MapScreen.MapScreenState.MyLocationPressed | frontend/src/screens/MapScreen.js:117-129 | disabled while loading; with a position, recentre and search 10 km around it; without, ask for the position again; the list, location and alerts stay either way |
| MapScreen.MapScreenState.SearchThisAreaPressed | frontend/src/screens/MapScreen.js:80-140 | disabled while loading; otherwise the search around the region centre with the radius capped at 50 km is sent and loading starts, or, with no centre, the list empties with an alert and loading ends |
| MapEngine.CentreOn | frontend/src/components/WebMap.js:68 | the view is the region centre at zoom 13 |
| MapEngine.ReportRegion | frontend/src/components/WebMap.js:79-90 | the reported centre is the map centre, latitudeDelta = north − south and longitudeDelta = east − west |
| MapEngine.RemoveHandles | frontend/src/components/WebMap.js:103-112 | exactly the held layers are gone, every other layer is untouched |
| MapEngine.AddPins | frontend/src/components/WebMap.js:141-217 | each pin is added under a fresh handle, in order; the handles are recorded in order; nothing else changes |
| MapEngine.RefreshLayers | frontend/src/components/LeafletMapView.js:96-175 | held pins removed, then the user pin and the store pins added in order, and the ref holds exactly their handles |
| MapEngine.UntouchedLayerKept | frontend/src/components/WebMap.js:103-138 | a layer not held in the ref (the tile layer, the set-once user pin) survives a refresh |
| WebMap.PopupFor | frontend/src/components/WebMap.js:172-209 | title is title ∥ name ∥ 'スーパーマーケット'; the description line exactly when description or address is truthy, showing description ∥ address; the distance line exactly when `distance_km` is truthy, showing it; the button exactly when a callback is set, calling `handleMarkerClick(i)` |
| WebMap.StorePinsPositions | frontend/src/components/WebMap.js:141-217 | one pin per marker with a coordinate, in input order, at its coordinate, its button carrying the original input index |
| WebMap.RouteClick | frontend/src/components/WebMap.js:224-228 | `onMarkerPress(markers[i])` exactly when a callback is set and `markers[i]` exists |
| WebMap.ClickReachesItsMarker | frontend/src/components/WebMap.js:187-228 | the button of the k-th pin reaches the input marker it was made from |
| WebMap.WebMapComponent.constructor | frontend/src/components/WebMap.js:12-14 | no instance, no pins, no handler, nothing injected |
| WebMap.WebMapComponent.Mount | frontend/src/components/WebMap.js:16-45 | injects the stylesheet; appends the script when the library is absent; otherwise initialises, building the whole map `Built` describes when the guards pass and leaving the instance as it was when they do not |
| WebMap.WebMapComponent.ScriptLoaded | frontend/src/components/WebMap.js:32 | the library is present and `initializeMap` runs: the map `Built` describes when the guards pass, otherwise the instance as it was |
| WebMap.WebMapComponent.InitializeMap | frontend/src/components/WebMap.js:47-95 | a no-op without container, with an instance or without the library; otherwise the one instance `Built` describes |
| WebMap.WebMapComponent.CreateMap | frontend/src/components/WebMap.js:60-94 | view on the region at zoom 13; `moveend` attached exactly when a callback is set; the tile layer, one store pin per marker with a coordinate held in the ref in order, the user pin exactly when wanted, and nothing else on the map |
| WebMap.WebMapComponent.NewInstance | frontend/src/components/WebMap.js:60-92 | a fresh instance holding only the tile layer, with the flags cleared |
| WebMap.WebMapComponent.UpdateMarkers | frontend/src/components/WebMap.js:97-218 | a no-op without an instance; otherwise every held pin is removed and the ref holds exactly the new store pins; the user pin is placed only once per instance and kept out of the ref |
| WebMap.WebMapComponent.RebuildPins | frontend/src/components/WebMap.js:102-217 | the clear-then-rebuild of the ref, with the earlier user pin kept |
| WebMap.WebMapComponent.MarkersEffect | frontend/src/components/WebMap.js:238-242 | with an instance, the refresh `updateMarkers` makes (pins rebuilt, the user pin once, view, listeners and page kept); without one nothing changes |
| WebMap.WebMapComponent.ClickHandlerEffect | frontend/src/components/WebMap.js:221-235 | installs a handler over the current markers and callback; nothing else changes |
| WebMap.WebMapComponent.ClickHandlerCleanup | frontend/src/components/WebMap.js:230-234 | deletes the handler; nothing else changes |
| WebMap.WebMapComponent.PressPopupButton | frontend/src/components/WebMap.js:187-189 | a press routes the pin's index through the installed handler |
| WebMap.WebMapComponent.RegionEffect | frontend/src/components/WebMap.js:245-253 | recentres at zoom 13 and arms `dragstart` only while the user has not moved the map; otherwise nothing changes; the pins, listeners and page always stay |
| WebMap.WebMapComponent.DragStart | frontend/src/components/WebMap.js:249-251 | the first drag after a recentre sets the moved flag and disarms the listener; the view, pins, listeners and page stay |
| WebMap.WebMapComponent.MoveEnd | frontend/src/components/WebMap.js:78-91 | reports the centre and spans exactly when a callback was attached at init |
| WebMap.WebMapComponent.Cleanup | frontend/src/components/WebMap.js:38-48 | on unmount removes the instance with its layers and its flags, and the container ref is detached, so a late script load builds no map |
| LeafletMapView.ClickEventName | frontend/src/components/LeafletMapView.js:189 | 'marker-click-' followed by the index |
| LeafletMapView.ClickEventNamesDistinct | frontend/src/components/LeafletMapView.js:189 | different indices give different event names |
| LeafletMapView.ClickDetail | frontend/src/components/LeafletMapView.js:155 | the marker's fields plus `index` |
| LeafletMapView.PopupFor | frontend/src/components/LeafletMapView.js:149-171 | title ∥ 'マーカー', the fallback exactly when the title is falsy; a description line exactly when it is truthy; no distance line; the button exactly when a callback is set, dispatching `marker-click-i` with the marker plus its index |
| LeafletMapView.StorePins | frontend/src/components/LeafletMapView.js:121-175 | one pin per marker, in order |
| LeafletMapView.ReadablePrefix | frontend/src/components/LeafletMapView.js:144 | the markers processed before the first nullish coordinate throws |
| LeafletMapView.RefreshPins | frontend/src/components/LeafletMapView.js:102-175 | the user pin first when `showsUserLocation && region`, then the store pins up to the first throwing marker |
| LeafletMapView.Registered | frontend/src/components/LeafletMapView.js:188-192 | one listener per index 0..n−1, named `marker-click-i`, for this run's closure |
| LeafletMapView.Dispatch | frontend/src/components/LeafletMapView.js:180-184 | at most one call per listener |
| LeafletMapView.DispatchAppend | frontend/src/components/LeafletMapView.js:180-184 | dispatch over two lists of listeners is the concatenation |
| LeafletMapView.DispatchNone | frontend/src/components/LeafletMapView.js:180-184 | listeners of other events are never called |
| LeafletMapView.DispatchRegistered | frontend/src/components/LeafletMapView.js:179-192 | with one run's listeners, event i calls `onMarkerPress` exactly once |
| LeafletMapView.CleanupUndoesRegistration | frontend/src/components/LeafletMapView.js:187-199 | removing a run's listeners leaves exactly the listeners there before it |
| LeafletMapView.RemoveOneMore | frontend/src/components/LeafletMapView.js:196-198 | removing one more name is filtering by the longer list |
| LeafletMapView.RemoveListeners | frontend/src/components/LeafletMapView.js:194-199 | the loop removes exactly the named listeners of this closure |
| LeafletMapView.RegisterListeners | frontend/src/components/LeafletMapView.js:187-192 | the loop appends one run's listeners and records their names in order |
| LeafletMapView.ClickReachesItsMarker | frontend/src/components/LeafletMapView.js:153-192 | the button of marker i dispatches its event, which calls `onMarkerPress` once |
| LeafletMapView.LeafletMapViewComponent.constructor | frontend/src/components/LeafletMapView.js:15-17 | no instance and no listener run of its own; the window listeners as given |
| LeafletMapView.LeafletMapViewComponent.Mount | frontend/src/components/LeafletMapView.js:19-45 | injects the stylesheet; appends the script when the library is absent; otherwise initialises: the map `Built` describes, a throw for a nullish region, or nothing, with `ok` telling whether a TypeError escaped |
| LeafletMapView.LeafletMapViewComponent.ScriptLoaded | frontend/src/components/LeafletMapView.js:32 | the library is present and `initializeMap` runs, with the same three outcomes; the window's listeners stay |
| LeafletMapView.LeafletMapViewComponent.InitializeMap | frontend/src/components/LeafletMapView.js:47-88 | a no-op without container or with an instance; without the library or region it throws; otherwise the instance `Built` describes: tile layer plus the refresh's pins, in order, in the ref |
| LeafletMapView.LeafletMapViewComponent.NewInstance | frontend/src/components/LeafletMapView.js:53-85 | a fresh instance holding only the tile layer, centred on the region |
| LeafletMapView.LeafletMapViewComponent.UpdateMarkers | frontend/src/components/LeafletMapView.js:90-176 | a no-op without instance or library; otherwise every held pin is removed and the ref holds exactly the new pins, the user pin first |
| LeafletMapView.LeafletMapViewComponent.MarkersEffect | frontend/src/components/LeafletMapView.js:203-205 | refreshes on every change, so the user pin follows the region: the pins rebuilt as `updateMarkers` does, a no-op without instance or library, the rest kept |
| LeafletMapView.LeafletMapViewComponent.RegionEffect | frontend/src/components/LeafletMapView.js:208-212 | every truthy region recentres at zoom 13, with no moved check; the pins, listeners and page stay |
| LeafletMapView.LeafletMapViewComponent.ListenerCleanup | frontend/src/components/LeafletMapView.js:194-199 | removes exactly the listeners of the previous run; the map and the page stay |
| LeafletMapView.LeafletMapViewComponent.ListenerEffect | frontend/src/components/LeafletMapView.js:179-200 | the previous run's listeners are removed, then `marker-click-i` is registered for each marker with a new closure; the map and the page stay |
| LeafletMapView.LeafletMapViewComponent.PressPopupButton | frontend/src/components/LeafletMapView.js:155 | a press dispatches the pin's event with its detail to the registered listeners |
| LeafletMapView.LeafletMapViewComponent.MoveEnd | frontend/src/components/LeafletMapView.js:69-85 | reports the centre and spans exactly when a callback was attached at init |
| LeafletMapView.LeafletMapViewComponent.Cleanup | frontend/src/components/LeafletMapView.js:38-48 | on unmount removes the instance with its layers, and the container ref is detached, so a late script load builds no map |
| WebGoogleMap.ErrorMessage | frontend/src/components/WebGoogleMap.js:97-107 | the message of each of the seven known types; the default exactly for an unknown type |
| WebGoogleMap.SupermarketPopup | frontend/src/components/WebGoogleMap.js:302-325 | the Google popup: name, address, the distance line exactly when it is truthy, and the button carrying the record |
| WebGoogleMap.OsmButton | frontend/src/components/WebGoogleMap.js:390 | the Leaflet popup's button dispatches only for a record without JSON fields, then with the empty record |
| WebGoogleMap.OsmPopup | frontend/src/components/WebGoogleMap.js:374-396 | the Leaflet popup: the same lines as the Google popup, with the button of the unescaped attribute |
| WebGoogleMap.RefreshPins | frontend/src/components/WebGoogleMap.js:258-397 | the user pin first when `showsUserLocation && region`, then one pin per supermarket in order, with that engine's popup |
| WebGoogleMap.RefreshEngine | frontend/src/components/WebGoogleMap.js:236-248 | the Google refresh exactly when the Google API is present and `loadError` is false |
| WebGoogleMap.HandlerTextPlain | frontend/src/components/WebGoogleMap.js:319 | the script around the detail holds no double quote and no ampersand |
| WebGoogleMap.HandlerTextFree | frontend/src/components/WebGoogleMap.js:319 | the characters of the script around the detail |
| WebGoogleMap.AttributeValue | frontend/src/components/WebGoogleMap.js:319 | a double-quoted attribute ends at its first double quote |
| WebGoogleMap.EscapeQuotes | frontend/src/components/WebGoogleMap.js:319 | `.replace(/"/g, '&quot;')` leaves no double quote |
| WebGoogleMap.OsmOnclickAsWritten | frontend/src/components/WebGoogleMap.js:390 | the Leaflet popup's attribute is a prefix of the intended handler |
| WebGoogleMap.OnclickAttribute | frontend/src/components/WebGoogleMap.js:319 | the escaped attribute holds no double quote |
| WebGoogleMap.OsmOnclickTruncated | frontend/src/components/WebGoogleMap.js:390 | for any record the Leaflet attribute stops after `detail: {`, so it is not the handler |
| WebGoogleMap.DecodeEscaped | frontend/src/components/WebGoogleMap.js:319 | decoding the escaped text gives back the JSON |
| WebGoogleMap.DecodePlain | frontend/src/components/WebGoogleMap.js:319 | text without '&' decodes to itself |
| WebGoogleMap.OnclickAttributeSurvives | frontend/src/components/WebGoogleMap.js:319 | the escaped attribute is read whole and decodes to exactly the handler |
| WebGoogleMap.OsmButtonIsAttributeAsWritten | frontend/src/components/WebGoogleMap.js:390 | the Leaflet button is what the browser makes of the unescaped attribute: a cut-short script for a record with a field, the whole handler for `{}` |
| WebGoogleMap.WebGoogleMapComponent.constructor | frontend/src/components/WebGoogleMap.js:5-10 | not loaded, no error, no instance, no script, no listener, no queued import |
| WebGoogleMap.WebGoogleMapComponent.HandleError | frontend/src/components/WebGoogleMap.js:93-130 | stores the type and message, sets `loadError` and starts one Leaflet import; nothing else changes |
| WebGoogleMap.WebGoogleMapComponent.Mount | frontend/src/components/WebGoogleMap.js:12-91 | on web: no usable key gives NO_API_KEY without a script; an API already present initialises with the outcomes `InitOutcome` lists; otherwise the handlers, callback, timeout and script are installed and nothing else changes |
| WebGoogleMap.WebGoogleMapComponent.InitializeGoogleMap | frontend/src/components/WebGoogleMap.js:132-175 | the checks in order: no container, existing instance, API absent, constructor throws, each failure reporting its error, setting loadError and starting the Leaflet import; otherwise a Google instance and isLoaded |
| WebGoogleMap.WebGoogleMapComponent.ScriptLoaded | frontend/src/components/WebGoogleMap.js:58-62 | the callback clears the timer, deletes itself and initialises with the outcomes `InitOutcome` lists; a deleted callback changes only the API flag |
| WebGoogleMap.WebGoogleMapComponent.ScriptFailed | frontend/src/components/WebGoogleMap.js:69-73 | deletes the callback, keeps the timer, and reports SCRIPT_LOAD_FAILED with its fallback import; map and status stay |
| WebGoogleMap.WebGoogleMapComponent.TimeoutFired | frontend/src/components/WebGoogleMap.js:76-80 | a pending timer deletes the callback and reports TIMEOUT with its fallback import; map and status stay |
| WebGoogleMap.WebGoogleMapComponent.AuthenticationFailed | frontend/src/components/WebGoogleMap.js:50-54 | once installed, reports AUTHENTICATION_FAILED, also after a successful init; map and status stay |
| WebGoogleMap.WebGoogleMapComponent.LeafletImportSettled | frontend/src/components/WebGoogleMap.js:177-234 | failure sets loadError and clears isLoaded; success never replaces an instance and otherwise makes the Leaflet instance with exactly its tile layer; the ref, the queued refreshes and the script stay |
| WebGoogleMap.WebGoogleMapComponent.MarkersEffect | frontend/src/components/WebGoogleMap.js:236-248 | with a loaded instance, the engine `RefreshEngine` chooses is refreshed or its import queued; otherwise nothing changes; the script, timers, stored error, listener and status always stay |
| WebGoogleMap.WebGoogleMapComponent.UpdateGoogleMapsMarkers | frontend/src/components/WebGoogleMap.js:250-336 | over a Google map: every held marker removed, the new pins added in order, the ref holding exactly their handles, then recentred on the region; nothing else changes |
| WebGoogleMap.WebGoogleMapComponent.OsmRefreshImportSettled | frontend/src/components/WebGoogleMap.js:338-402 | the oldest queued Leaflet refresh runs with its own arguments: over a Leaflet map the pins are rebuilt and the view recentred; over a Google map it throws and changes nothing; the script, timers, stored error, listener and status always stay |
| WebGoogleMap.WebGoogleMapComponent.ClickListenerEffect | frontend/src/components/WebGoogleMap.js:405-418 | on web the `supermarket-click` listener carries the current callback; nothing else changes |
| WebGoogleMap.WebGoogleMapComponent.PressPopupButton | frontend/src/components/WebGoogleMap.js:319-411 | a press hands the record to the listener's callback exactly when the pin's button dispatches `supermarket-click`; a Leaflet pin's cut-short script reaches no one |
| WebGoogleMap.SupermarketButtonCarriesRecord | frontend/src/components/WebGoogleMap.js:285-332 | the button of the k-th supermarket's pin of a Google refresh carries that record |
| WebGoogleMap.OsmButtonDead | frontend/src/components/WebGoogleMap.js:362-397 | the button of the k-th supermarket's pin of a Leaflet refresh runs the cut-short script when the record has a field |
| WebGoogleMap.AuthFailureAfterInitSwitchesRefresh | frontend/src/components/WebGoogleMap.js:238 | after an error the refresh is the Leaflet one, even over a Google instance |
| PriceComparison.RankText | frontend/src/screens/PriceComparisonScreen.js:84-88 | '最安値' at 0, '最高値' for the last when total > 2, otherwise `(index+1)+'位'` |
| PriceComparison.RankColour | frontend/src/screens/PriceComparisonScreen.js:78-82 | green at 0, red for the last when total > 2, orange otherwise |
| PriceComparison.RankColourMatchesText | frontend/src/screens/PriceComparisonScreen.js:78-88 | each colour goes with its label, both directions |
| PriceComparison.RankLabelsOfList | frontend/src/screens/PriceComparisonScreen.js:84-88 | in a list only the first is cheapest, a dearest exists only for more than two, others read their place |
| PriceComparison.TwoPricesHaveNoDearest | frontend/src/screens/PriceComparisonScreen.js:80 | with two prices the dearer reads '2位' in orange |
| PriceComparison.DiffDays | frontend/src/screens/PriceComparisonScreen.js:61-62 | the ceiling of the absolute day difference |
| PriceComparison.FormatDateOfNowAsWritten | frontend/src/screens/PriceComparisonScreen.js:64-69 | a price stamped now is 0 days old and reads '-1日前' |
| PriceComparison.FormatDateBuckets | frontend/src/screens/PriceComparisonScreen.js:58-76 | with 0 days as today: within a day '今日', within two '昨日', within a week `(d−1)+'日前'`, else the date |
| PriceComparison.PricesOf | frontend/src/screens/PriceComparisonScreen.js:130 | one price per entry, in order |
| PriceComparison.Highest | frontend/src/screens/PriceComparisonScreen.js:130 | a member of the list at least every element |
| PriceComparison.Lowest | frontend/src/screens/PriceComparisonScreen.js:131 | a member of the list at most every element |
| PriceComparison.PriceDifference | frontend/src/screens/PriceComparisonScreen.js:127-136 | null exactly for fewer than two prices; otherwise non-negative, a difference of two prices and the largest one |
| PriceComparison.SummaryOf | frontend/src/screens/PriceComparisonScreen.js:164-175 | a summary exactly when there is at least one price: the store count, the minimum, the spread |
| PriceComparison.HeaderTitle | frontend/src/screens/PriceComparisonScreen.js:157 | the answer's non-empty product name, else the screen's |
| PriceComparison.ListedCount | frontend/src/screens/PriceComparisonScreen.js:190 | the number of prices, 0 before any data |
| PriceComparison.PriceComparisonScreenState.constructor | frontend/src/screens/PriceComparisonScreen.js:17-19 | the route's product, no data, loading, not refreshing |
| PriceComparison.PriceComparisonScreenState.LoadPriceComparison | frontend/src/screens/PriceComparisonScreen.js:28-43 | the body replaces the data; a 404 gives the empty list with the screen's name; other failures alert and keep the data |
| PriceComparison.PriceComparisonScreenState.Refresh | frontend/src/screens/PriceComparisonScreen.js:45-49 | the same reload with the refresh indicator off at the end |
| PriceComparison.NotFoundShowsEmptyList | frontend/src/screens/PriceComparisonScreen.js:36 | a 404 shows the product's name, 0 prices and no summary |
| ProductList.FilterProducts | frontend/src/screens/ProductListScreen.js:61-79 | the two filters equal one filter by both tests; the result is a subsequence holding exactly the listed products |
| ProductList.NoFilterShowsAll | frontend/src/screens/ProductListScreen.js:62-70 | with no category and no query every product shows |
| ProductList.CategoryPressed | frontend/src/screens/ProductListScreen.js:115 | '全て' stores '', any other chip its own name |
| ProductList.IdsOf | frontend/src/screens/ProductListScreen.js:90 | the ids of the list, in order |
| ProductList.MergeSearchResults | frontend/src/screens/ProductListScreen.js:89-95 | the list as it was, then exactly the results with an id not in it, in result order |
| ProductList.MergeNothingNew | frontend/src/screens/ProductListScreen.js:93 | results that are all known leave the list as it is |
| ProductList.ProductListScreenState.constructor | frontend/src/screens/ProductListScreen.js:18-22 | no products, loading, empty query and category |
| ProductList.ProductListScreenState.RunFilterEffect | frontend/src/screens/ProductListScreen.js:44-46 | the shown list is recomputed from products, query and category |
| ProductList.ProductListScreenState.LoadProducts | frontend/src/screens/ProductListScreen.js:48-59 | the answer replaces the products; a failure alerts and keeps them |
| ProductList.ProductListScreenState.SelectCategory | frontend/src/screens/ProductListScreen.js:115 | the pressed chip's category is stored and the list refiltered |
| ProductList.ProductListScreenState.HandleSearch | frontend/src/screens/ProductListScreen.js:81-100 | an empty query sends nothing; otherwise the search is sent and its new products appended; a failure changes nothing more |
| AddPrice.FirstFailure | frontend/src/screens/AddPriceScreen.js:111-133 | valid exactly when all five checks pass; otherwise exactly the message of the first failing check, in the fixed order |
| AddPrice.ValidPriceIsPositive | frontend/src/screens/AddPriceScreen.js:124 | a valid price text parses to a positive number or to Infinity |
| AddPrice.ValidPriceExamples | frontend/src/screens/AddPriceScreen.js:124 | the decimal text of a positive whole number is valid; '' and '0' are not |
| AddPrice.StoreSuggestions | frontend/src/screens/AddPriceScreen.js:83-88 | a prefix of the matching stores, at most five, each matching by name or address ignoring case |
| AddPrice.ProductSuggestions | frontend/src/screens/AddPriceScreen.js:67 | the first five results |
| AddPrice.NewProductRequestFields | frontend/src/screens/AddPriceScreen.js:139-143 | the trimmed name, the category, and the brand null exactly when blank, else trimmed and non-empty |
| AddPrice.NewSupermarketRequest | frontend/src/screens/AddPriceScreen.js:163-169 | the trimmed name, the trimmed address or '住所未設定' when blank, at 0/0 without phone |
| AddPrice.BrandText | frontend/src/screens/AddPriceScreen.js:100 | `brand \|\| ''` |
| AddPrice.AddPriceScreenState.constructor | frontend/src/screens/AddPriceScreen.js:20-56 | the route's product and store fill their fields; unit '個' |
| AddPrice.AddPriceScreenState.SearchProducts | frontend/src/screens/AddPriceScreen.js:58-73 | under two characters clear and send nothing; otherwise search, and the first five results become the suggestions; a failure keeps them; the form and other requests stay |
| AddPrice.AddPriceScreenState.SearchSupermarkets | frontend/src/screens/AddPriceScreen.js:75-94 | the same threshold; otherwise fetch all and suggest the first five matches; the form and other requests stay |
| AddPrice.AddPriceScreenState.SelectProduct | frontend/src/screens/AddPriceScreen.js:96-102 | the product fills its fields and the suggestions close; the rest of the form and the requests stay |
| AddPrice.AddPriceScreenState.SelectSupermarket | frontend/src/screens/AddPriceScreen.js:104-109 | the store fills its fields and the suggestions close; the rest of the form and the requests stay |
| AddPrice.AddPriceScreenState.HandleSubmit | frontend/src/screens/AddPriceScreen.js:181-223 | an invalid form alerts its first failure and sends nothing; a valid one runs the submit flow; the form, the suggestions and the searches stay |
| AddPrice.AddPriceScreenState.SubmitValidForm | frontend/src/screens/AddPriceScreen.js:135-223 | creates the product when none is selected; without a selected store shows the dialog and sends no price; otherwise sends the parsed price, unit and trimmed recorder and alerts the outcome; the form, the suggestions and the searches stay |
| AddPrice.AddPriceScreenState.NewSupermarketConfirmed | frontend/src/screens/AddPriceScreen.js:159-174 | the continue button sends the new store and nothing else changes |
| AddPrice.SubmittedPriceIsValid | frontend/src/screens/AddPriceScreen.js:182-203 | every price sent is positive or Infinity, with a non-blank recorder |
| WebSearchApp.InitialState | frontend/src/App.js:30-66 | both lists are the four demo stores, ids 1–4 |
| WebSearchApp.HandleSearch | frontend/src/App.js:69-80 | an empty term shows the full list; otherwise exactly its matching entries, in order; the full list never changes |
| WebSearchApp.LastSearchWins | frontend/src/App.js:69-80 | a search does not depend on the earlier ones |
| WebSearchApp.ClearingRestoresAll | frontend/src/App.js:70-71 | clearing after any search shows the full list |
| ReactSearchApp.Narrow | frontend-react/src/App.js:83-88 | a subsequence holding exactly the matching entries |
| ReactSearchApp.NarrowTwice | frontend-react/src/App.js:84-88 | two searches keep exactly the entries matching both, in order |
| ReactSearchApp.ReactSearchAppState.constructor | frontend-react/src/App.js:9-13 | no stores, empty term, not loading, located at the Tokyo default |
| ReactSearchApp.ReactSearchAppState.BeginLoad | frontend-react/src/App.js:37-40 | loading on and the current location sent |
| ReactSearchApp.ReactSearchAppState.LoadSettled | frontend-react/src/App.js:40-48 | the answer, or the three demo stores on failure, replace the list; loading ends |
| ReactSearchApp.ReactSearchAppState.LocationFound | frontend-react/src/App.js:18-35 | stores the position and reloads |
| ReactSearchApp.ReactSearchAppState.HandleSearch | frontend-react/src/App.js:80-92 | a non-empty term narrows the current list; an empty one reloads |
| Text.NatToString | frontend/src/screens/PriceComparisonScreen.js:87 | non-empty decimal text |
| Text.NatToStringDigits | frontend/src/screens/PriceComparisonScreen.js:87 | all digits, and it reads back as the number |
| Text.NatToStringInjective | frontend/src/components/MapWrapper.js:64 | different numbers print differently |
| Text.PrefixedNatInjective | frontend/src/components/MapWrapper.js:64 | so do the same prefix followed by different numbers |
| Text.Lower | frontend/src/screens/ProductListScreen.js:71 | one character for one, each lowered |
| Text.TrimStartCuts | frontend/src/screens/AddPriceScreen.js:112 | only leading whitespace is cut, up to the first other character |
| Text.TrimEndCuts | frontend/src/screens/AddPriceScreen.js:112 | only trailing whitespace is cut |
| Text.TrimEmptyIffBlank | frontend/src/screens/AddPriceScreen.js:112 | the trimmed text is empty exactly when every character is whitespace |
| Text.DigitRun | frontend/src/screens/AddPriceScreen.js:124 | the longest prefix of digits |
| Text.ParseFloat | frontend/src/screens/AddPriceScreen.js:124 | always a number |
| Text.ParseUnsigned | frontend/src/screens/AddPriceScreen.js:124 | a value only for text that starts with a digit or a point |
| Text.ParseFloatOfNatToString | frontend/src/screens/AddPriceScreen.js:124 | the decimal text of a number parses to it |
| Text.ParseFloatOfDigits | frontend/src/screens/AddPriceScreen.js:124 | a run of digits parses to its value |
| Text.ParseFloatNeedsDigit | frontend/src/screens/AddPriceScreen.js:124 | text without a digit is not a finite number |

## Left out

- Network and persistence: the HTTP clients, the database and AsyncStorage-like storage. Each request's answer is a parameter of the method that handles it, and the database is a value of sequences.
- Map engines: Leaflet, Google Maps and react-native-maps are abstract. A map instance is a map from handles to layers, with a view.
- DOM side effects: script and stylesheet injection, icons and the popup HTML. Only a popup's fields and its button's action are modelled; the onclick attribute is the exception and is modelled as text.
- Main-thread scheduling, promises and timers: each callback, import result and timer expiry is an event method called in some order. Nothing else forces a particular interleaving. The exception is WebGoogleMap's Leaflet refresh imports (`pendingOsmRefreshes`): they settle in the order they were started, oldest first. Imports that resolve out of order are not modelled.
- `localStorage`: the saved error record is a field, with no JSON text and no failure of the store.
- Console logging and the debug helpers are not part of this model.
- Backend.NearbySupermarkets: the haversine distance and `round(distance, 2)` are function parameters, not computed.
- MapScreen.MapScreenState.SearchThisAreaPressed: the radius estimate with `Math.cos` is a parameter; only the 50 km cap is modelled.
- PriceComparison.PriceDifference: the percentage with `toFixed(1)` and the currency formatting are not modelled.
- PriceComparison.FormatDateBuckets: the calendar-date label of `toLocaleDateString` is an abstract value; day counts come from millisecond timestamps.
- DummyData.PriceRange: prices are the exact rational product rounded down. The script multiplies IEEE floats, which can be one yen lower (180 × 0.7 gives 125).
- The dummy-data insert loops and the random choice of a price within the band are not modelled. Only `get_price_range` is.
- Text.Lower: only ASCII letters are folded. Unicode case mapping beyond ASCII is not modelled.
- Text.ParseFloat: values are exact decimals. IEEE rounding, overflow to Infinity and negative zero are not modelled.
- Backend.SearchProducts: SQL `LIKE` is modelled as case-sensitive substring search. Wildcard characters in `q` and the database's case rules are not modelled.
- Backend.GetSupermarkets: `skip` and `limit` are natural numbers. Negative values, which the service would pass to SQL, are not modelled.
- String lengths are counted in characters (code points). JavaScript's `.length` counts UTF-16 code units, which differs for characters outside the Basic Multilingual Plane.
- Request and response rows of the React page and the device position are plain records. Their JSON shapes are not checked.
- ProductList.ProductListScreenState.HandleSearch: the answer is merged into the list current when the answer arrives. Any change to the list between the request and the answer, which the source's functional update would keep, is not modelled.
- AddPrice.AddPriceScreenState.NewSupermarketConfirmed: the store created from the dialog is dropped, as in the source, so the submit does not resume. Its failure is not modelled.
- NativeMap.NativeMapComponent.HandleMyLocationPress: the animation is recorded as a request; the engine's animation itself is not modelled.
- Popup button details on every map are the record itself. The JSON round trip of `JSON.stringify` and the parse in the browser is not modelled: dropped `undefined` and function fields, and `NaN` or infinities read back as `null`. The exception is the cut-short attribute of the Leaflet fallback.
- MapWrapper.Render: a `null` marker in the list, or a `null` `markers` prop, makes the source throw. The model cannot express either: its marker records and its `Option` prop have no `null`.
- The map engines' own validation of coordinates (non-numeric positions handed to `L.marker` or `google.maps.Marker`) is not modelled.

## Findings

| source | as written | input that shows it | evidently intended | confidence | as-written member | corrected member |
|---|---|---|---|---|---|---|
| frontend/src/components/WebGoogleMap.js:390 | the Leaflet popup writes `JSON.stringify(supermarket)` into a double-quoted onclick attribute without escaping, so the attribute ends at the first quote of the JSON and the component's Leaflet pins get a button that does nothing (WebGoogleMap.OsmButtonDead) | any supermarket record with at least one field, e.g. `{"id":1}` | escape the quotes as the Google popup does (line 319), so the handler reaches the browser whole | not executed | WebGoogleMap.OsmOnclickTruncated | WebGoogleMap.OnclickAttributeSurvives |
| frontend/src/screens/PriceComparisonScreen.js:62-69 | `Math.ceil` of a zero difference is 0, which falls through to the `<= 7` branch and reads '-1日前' | a price recorded at the current millisecond | a difference within the first day reads '今日' | not executed | PriceComparison.FormatDateOfNowAsWritten | PriceComparison.FormatDateBuckets |
| backend/add_dummy_data.py:165-176 | the keywords 'ビッグ・エー' and 'ドンキホーテ' miss the spellings 'BIGA（ビッグエー）' (line 74) and 'ドン・キホーテ' (lines 90-93) of the script's own store list, so those stores get the default band | 'ドン・キホーテ 新宿歌舞伎町店' gets 180–220 for eggs, not 160–220 | each chain's band applies to every store of that chain | not executed | StoreSpellings.DonQuijoteSpellingMissed | StoreSpellings.CorrectedKabukichoChain |
