# Disaster awareness: a Dafny model of the data pipeline

This project models the logic of a disaster-awareness web application. The logic runs
from the feed that fills the store to the screens that draw it:

- **Ingestion** (`GdacsService`). Each GDACS feed item becomes one record. Its severity
  is an exact-case alert-level table (Red 1.0, Orange 0.7, Green 0.4, anything else
  0.3) times a per-type factor. EQ reads magnitude/10, TC wind speed/200 and FL affected
  area/10000, each capped at 1; every other type gets 0.7. The product is capped at 1.
- **Store** (`DisasterController`, `DisasterRoutes`, `DisasterSchema`).
  - The store is a sequence of records with at most one record per natural key (type,
    coordinates, date). The GDACS refresh upserts on that key; when the database rejects the
    ordered bulk write, the operations before the rejected one stay applied and the refresh
    answers 500.
  - The filtered listing is newest first, capped at 100. The full listing is capped at
    1000. The area query converts its radius from km to m.
  - The statistics have one group per type.
  - The schema is a validity predicate with defaults.
  - The POST handler builds a document from the request body.
- **Map page** (`MapView`, `HeatMapLayer`).
  - The API filter keeps items with a usable coordinate pair. There is a fallback to five
    built-in sample records.
  - A marker is dropped when the location or its coordinates are missing, and skipped when
    both coordinate entries are falsy (each falsy entry reads as 0). Its colour comes from the
    exact alert level.
  - A blank search sends no request.
  - Heat points are `[lat, lng, intensity]` for items with valid coordinates. The
    intensity is a numeric severity clamped into [0, 1]. Without one, it is an alert
    level found by substring, times a type weight and a recency factor, clamped into
    [0.25, 1]. The heat layer is replaced whenever the data changes.
- **Client state** (`FilterSystem`, `Dashboard`, `Emergency`).
  - The filter toggle and its button highlighting.
  - The report feed, which de-duplicates each page by id and appends it.
  - The emergency form: its photo list, submit validation and reset.

JavaScript values are modelled by `Js.JsValue`, with numbers as `Finite(real)` or `NaN`
so that NaN propagates as it does in JavaScript. String-to-number conversions
(`Number(s)`, `parseFloat`, `parseInt`, `Date` parsing) are parameters (`Js.Parsers`), as
is `Math.log10`. Every network request is a parameter. A handler receives what the request
delivered: a response, a failure or a thrown exception.

Behaviours of the code worth noting:

- The ingestion alert level is an exact-case table lookup with a fallback of 0.3.
- The ingestion severity has no lower clamp. A negative magnitude gives a negative
  severity (`GdacsService.NegativeMagnitudeGivesNegativeSeverity`).
- A numeric severity bypasses the heat map's [0.25, 1] range and can fall below 0.25
  (`HeatMapLayer.SeverityBelowFloor`).
- Coordinates are `[parseFloat(longitude), parseFloat(latitude)]`.

## Model

| member | source | states |
|---|---|---|
| Js.ToLower | frontend/src/components/HeatMapLayer/HeatMapLayer.jsx:28 | lower-casing keeps the length and lower-cases each character in place |
| Js.TrimEmptyIffBlank | frontend/src/pages/Map/Map.jsx:169 | `trim()` is empty exactly when every character is white space |
| KeyedSeq.Put | backend/controllers/disasterController.js:10-20 | one upsert: the key set gains the new key; an existing key is replaced in place, a new one appended; other records unchanged; distinct keys preserved, with the new record the one stored under its key |
| KeyedSeq.PutAllFacts | backend/controllers/disasterController.js:10-24 | a batch of upserts keeps keys distinct, adds exactly the batch's keys, stores for each batch key the batch's last record with it, leaves other records unchanged, and appends nothing when every key was present |
| KeyedSeq.PutAllIdempotent | backend/controllers/disasterController.js:10-24 | applying the same batch twice leaves the store as after one application |
| KeyedSeq.PutAllFirstOccurrenceOrder | frontend/src/pages/Dashboard/Dashboard.jsx:23-25 | filling an empty JS `Map` keeps one entry per key, in the order of each key's first occurrence |
| DisasterSchema.ApplyDefaults | backend/models/Disaster.js:10-54 | defaults fill `location.type`, the coordinates array, `source` and `lastUpdated`; the required fields are untouched |
| DisasterSchema.Errors | backend/models/Disaster.js:3-55 | the reported paths are exactly those that break their schema rule |
| DisasterSchema.Save | backend/models/Disaster.js:3-55 | a saved document is the defaulted one and has no error; a rejected one reports every failing path, and at least one |
| DisasterSchema.MissingFieldReportedIffRequired | backend/models/Disaster.js:3-55 | a missing `type`, `date`, `alertLevel`, `severity` or `title` is reported; missing defaulted or optional fields are not |
| DisasterSchema.DefaultsOnlyRepair | backend/models/Disaster.js:41-54 | defaults never add an error and clear the errors of an absent `source` or coordinates array |
| DisasterSchema.SavedDocumentConforms | backend/models/Disaster.js:3-55 | a saved document has a listed type and alert level, a severity in [0, 1], a title, type 'Point', numeric coordinates, a valid date and a source |
| GdacsService.BaseIntensity | backend/services/gdacsService.js:50 | the base intensity lies in (0, 1] |
| GdacsService.BaseIntensityTable | backend/services/gdacsService.js:8-12 | the base is 1.0, 0.7 or 0.4 for exactly "Red", "Orange" or "Green", and 0.3 for anything else, "red" included |
| GdacsService.CappedRatio | backend/services/gdacsService.js:55-61 | a numeric factor is at most 1 |
| GdacsService.Multiplier | backend/services/gdacsService.js:52-65 | a numeric multiplier is at most 1 |
| GdacsService.CalculateSeverity | backend/services/gdacsService.js:48-68 | a numeric severity is at most 1 and at most the base intensity |
| GdacsService.MultiplierClosedForm | backend/services/gdacsService.js:52-65 | EQ/TC/FL read magnitude/10, wind speed/200 and affected area/10000, capped at 1; a falsy (absent or zero) field gives 1; any other type gives 0.7 |
| GdacsService.SeverityOfFactor | backend/services/gdacsService.js:67 | with a numeric multiplier the severity is exactly base × multiplier: the cap at 1 never bites |
| GdacsService.SeverityNaNIff | backend/services/gdacsService.js:48-68 | the severity is NaN exactly when the type's field is truthy but not a number |
| GdacsService.SeverityNonNegative | backend/services/gdacsService.js:67 | non-negative numeric inputs give a severity in [0, 1] |
| GdacsService.NegativeMagnitudeGivesNegativeSeverity | backend/services/gdacsService.js:67 | no lower clamp: Red with magnitude −5 scores −0.5 |
| GdacsService.RedEarthquakeExample | backend/services/gdacsService.js:55 | Red with magnitude 7.8 scores 0.78 |
| GdacsService.SeverityMonotoneInMagnitude | backend/services/gdacsService.js:55 | a larger positive magnitude never lowers an earthquake's severity |
| GdacsService.FormatEvent | backend/services/gdacsService.js:21-39 | type, alert level, title and description are the event's; coordinates are `[parseFloat(longitude), parseFloat(latitude)]`; the date is the parsed `pubDate`; the severity is `calculateSeverity` of the event; source 'GDACS'; magnitude / wind speed / affected area are `parseFloat` of their fields, set exactly for EQ / TC / FL |
| GdacsService.FormattedSeverity | backend/services/gdacsService.js:31 | a formatted record's severity is in [0, 1] when the field its type reads is absent, zero or non-negative; an earthquake's is the base times min(magnitude/10, 1) |
| GdacsService.FetchGdacsData | backend/services/gdacsService.js:14-46 | one record per feed item, in order, when every item can be read; otherwise (failure, `null` item, non-list) an empty list |
| GdacsService.NullItemLosesBatch | backend/services/gdacsService.js:42-45 | a single `null` item throws and loses the whole batch |
| GdacsService.ToDocument | backend/services/gdacsService.js:21-39 | the stored document's coordinates are the record's, entry by entry |
| GdacsService.RecordConformsIff | backend/models/Disaster.js:3-55 | a fetched record would pass `save()` validation exactly when it has a listed type and alert level, a title, a valid date, finite coordinates and a severity in [0, 1] |
| DisasterController.Operations | backend/controllers/disasterController.js:10-20 | one upsert per record, in order, filtered on (type, coordinates, date), setting the whole record with upsert on |
| DisasterController.ApplyOpIsPut | backend/controllers/disasterController.js:10-20 | an upsert keyed by the record's own key is the keyed insert-or-replace |
| DisasterController.BulkWriteIsPutAll | backend/controllers/disasterController.js:22-24 | the bulk write of a batch is its record-by-record insert-or-replace |
| DisasterController.DisasterStore.BulkWrite | backend/controllers/disasterController.js:23 | the store becomes the operations applied in order; when every filter is its record's own key, the keys stay distinct |
| DisasterController.ApplyOpsKeepDistinct | backend/controllers/disasterController.js:10-24 | a bulk write of upserts filtered on their own records' keys keeps at most one record per natural key |
| DisasterController.DisasterStore.UpdateGdacsData | backend/controllers/disasterController.js:5-31 | keys stay distinct; the store becomes the batch's upserts and the answer is the batch length (not the number of inserts); when the database rejects operation k, the first k upserts stay applied and the answer is 500 'Failed to update GDACS data'; an empty batch writes nothing |
| DisasterController.RefreshFacts | backend/controllers/disasterController.js:10-24 | after a refresh each fetched key has one record, the last fetched; other records are untouched; refreshing again with the same feed changes nothing |
| DisasterController.DaysAgo | backend/controllers/disasterController.js:49-53 | the date bound is invalid exactly when `days` does not parse, and a non-negative day count lies in the past |
| DisasterController.QueryOf | backend/controllers/disasterController.js:39-53 | an empty or absent parameter adds no condition; a supplied type or alert level is used as given; a date bound exactly when `days` is supplied |
| DisasterController.Matches | backend/controllers/disasterController.js:41-55 | a record with an invalid date never meets a date bound, nor does an invalid bound |
| DisasterController.BuildQuery | backend/controllers/disasterController.js:39-53 | the field-by-field construction yields the query with each field only when its parameter is supplied |
| DisasterController.MatchesIff | backend/controllers/disasterController.js:41-53 | a record matches exactly when it has each supplied type and alert level and its date is at least now − days |
| DisasterController.Filter | backend/controllers/disasterController.js:55 | the result holds exactly the matching records, drawn from the store |
| DisasterController.SortNewestFirst | backend/controllers/disasterController.js:56 | the result is newest first and a permutation of its input |
| DisasterController.Newest | backend/controllers/disasterController.js:55-57 | at most `cap` records, newest first, drawn from the input, none left out newer than one returned |
| DisasterController.GetDisasters | backend/controllers/disasterController.js:34-64 | a failure (store down, or a `days` that does not parse) answers 500; otherwise min(#matches, 100) of the matching stored records, newest first, with no matching record left out newer than one returned |
| DisasterController.GetDisasterStats | backend/controllers/disasterController.js:67-90 | a failure answers 500; otherwise the groups of the store |
| DisasterController.Groups | backend/controllers/disasterController.js:69-82 | never more groups than records, each for a type present in the store |
| DisasterController.StatsGroupPerType | backend/controllers/disasterController.js:69-82 | one group per type present in the store, each type once |
| DisasterController.StatsGroupsNonEmpty | backend/controllers/disasterController.js:69-82 | each group's count equals its number of `byAlertLevel` entries and is positive |
| DisasterController.EntriesAreTheTypesRecords | backend/controllers/disasterController.js:76-81 | a group's entries are exactly the alert level and severity of its type's records |
| DisasterController.StatsCountsSumToStoreSize | backend/controllers/disasterController.js:69-82 | the group counts add up to the number of stored records |
| DisasterController.AverageSeverityInRange | backend/controllers/disasterController.js:74 | when every severity lies in [0, 1], so does the group's average |
| DisasterRoutes.ListDisasters | backend/routes/disasters.js:11-20 | a failure answers 500 with its message; otherwise min(size, 1000) stored records, newest first, none left out newer than one listed |
| DisasterRoutes.SmallStoreListedWhole | backend/routes/disasters.js:13-15 | a store of at most 1000 records is listed whole |
| DisasterRoutes.AreaQueryOf | backend/routes/disasters.js:27-36 | the query point is `[lng, lat]` and the radius in km becomes metres (×1000), NaN when it does not parse |
| DisasterRoutes.AreaDisasters | backend/routes/disasters.js:23-42 | the database's answer is returned as is; a failure answers 500 with its message |
| DisasterRoutes.NewDisaster | backend/routes/disasters.js:46-57 | location is `{type: 'Point', coordinates: [longitude, latitude]}`; date, alert level and title are never copied |
| DisasterRoutes.PostDisaster | backend/routes/disasters.js:45-65 | 201 with the defaulted document when it has no error; otherwise 400 with every failing path, at least one |
| DisasterRoutes.PostAlwaysRejected | backend/routes/disasters.js:45-65 | as written every POST answers 400, reporting date, alert level and title |
| DisasterRoutes.NewDisasterCorrected | backend/routes/disasters.js:46-57 | the corrected document copies date, alert level and title from the body |
| DisasterRoutes.PostCorrectedCreatedIff | backend/routes/disasters.js:45-65 | corrected, a report is created exactly when it is well formed, and then holds the values sent |
| HeatMapLayer.NormalizeText | frontend/src/components/HeatMapLayer/HeatMapLayer.jsx:26-36 | the normalised level is a key of the alert-level table |
| HeatMapLayer.NormalizeAlertLevel | frontend/src/components/HeatMapLayer/HeatMapLayer.jsx:26-36 | the same for a string or falsy alert level |
| HeatMapLayer.DaysSince | frontend/src/components/HeatMapLayer/HeatMapLayer.jsx:59 | the day difference is never negative |
| HeatMapLayer.RecencyFactor | frontend/src/components/HeatMapLayer/HeatMapLayer.jsx:62-64 | the factor is at least 0.4 for a valid date and NaN for an invalid one |
| HeatMapLayer.CalculateIntensity | frontend/src/components/HeatMapLayer/HeatMapLayer.jsx:10-74 | the intensity is NaN or lies in [0, 1] |
| HeatMapLayer.IntensityUndated | frontend/src/components/HeatMapLayer/HeatMapLayer.jsx:38-69 | without a numeric severity or a date: the alert level's table value times the type weight, clamped into [0.25, 1] |
| HeatMapLayer.IntensityDated | frontend/src/components/HeatMapLayer/HeatMapLayer.jsx:38-69 | with a date: that same product (the undated weight) times the recency factor of the event's age, clamped into [0.25, 1] |
| HeatMapLayer.IntensityNonIncreasingInAge | frontend/src/components/HeatMapLayer/HeatMapLayer.jsx:56-69 | without a numeric severity, giving a record an earlier valid date never raises its intensity: both intensities are numbers and the older one is at most the younger one |
| HeatMapLayer.DaysMono | frontend/src/components/HeatMapLayer/HeatMapLayer.jsx:57-59 | a later valid date is fewer (non-negative, finite) days before `now` |
| HeatMapLayer.SeverityBypassesClamp | frontend/src/components/HeatMapLayer/HeatMapLayer.jsx:13-15 | a numeric severity gives exactly its clamp into [0, 1], whatever the alert level, type and date |
| HeatMapLayer.SeverityBelowFloor | frontend/src/components/HeatMapLayer/HeatMapLayer.jsx:13-15 | a severity of 0.1 gives 0.1, below the 0.25 floor |
| HeatMapLayer.NormalizePriority | frontend/src/components/HeatMapLayer/HeatMapLayer.jsx:26-36 | after lower-casing, "red" wins over "orange", which wins over "green"; no match is "Unknown" (both directions) |
| HeatMapLayer.NormalizeRedFirst | frontend/src/components/HeatMapLayer/HeatMapLayer.jsx:28-30 | "ORANGE/RED" normalises to Red |
| HeatMapLayer.NormalizeOrange | frontend/src/components/HeatMapLayer/HeatMapLayer.jsx:28-32 | "Orange" normalises to Orange |
| HeatMapLayer.BaseIntensityTable | frontend/src/components/HeatMapLayer/HeatMapLayer.jsx:18-38 | the base is 1.0, 0.75, 0.5 or 0.3 for Red, Orange, Green, Unknown; the `\|\| 0.5` fallback is never taken |
| HeatMapLayer.TypeWeightTable | frontend/src/components/HeatMapLayer/HeatMapLayer.jsx:41-52 | a listed type gets its table weight, any other 1.0; weights lie in [0.9, 1.3] |
| HeatMapLayer.FutureAndRecentDatesFullWeight | frontend/src/components/HeatMapLayer/HeatMapLayer.jsx:56-64 | a future date counts as 0 days; at most one day old keeps factor 1.0 |
| HeatMapLayer.RecencyNonIncreasing | frontend/src/components/HeatMapLayer/HeatMapLayer.jsx:62-64 | with a growing `log10`, an older event never gets a larger factor, and the factor is at most 1 |
| HeatMapLayer.NonSeverityRange | frontend/src/components/HeatMapLayer/HeatMapLayer.jsx:38-73 | without a numeric severity the intensity lies in [0.25, 1] or is NaN exactly for an unparseable date; a non-string alert level throws and gives 0.5 |
| HeatMapLayer.RedEarthquakeCapped | frontend/src/components/HeatMapLayer/HeatMapLayer.jsx:38-69 | a Red EQ without date and severity reaches exactly the cap 1 |
| HeatMapLayer.PointOf | frontend/src/components/HeatMapLayer/HeatMapLayer.jsx:152-157 | a point is `[coordinates[1], coordinates[0], intensity]` |
| HeatMapLayer.HeatPoints | frontend/src/components/HeatMapLayer/HeatMapLayer.jsx:120-157 | there are never more points than items |
| HeatMapLayer.HeatPointsAppend | frontend/src/components/HeatMapLayer/HeatMapLayer.jsx:120-157 | filter-and-map keeps order: the points of a concatenation are each part's points in turn |
| HeatMapLayer.HeatPointsSingle | frontend/src/components/HeatMapLayer/HeatMapLayer.jsx:121-156 | one item yields its point exactly when it passes the coordinate filter |
| HeatMapLayer.HeatPointsAllKept | frontend/src/components/HeatMapLayer/HeatMapLayer.jsx:120-157 | when every item passes, item i yields point i |
| HeatMapLayer.KeptCount | frontend/src/components/HeatMapLayer/HeatMapLayer.jsx:144-148 | the number of kept items is at most the number of items |
| HeatMapLayer.HeatPointsCount | frontend/src/components/HeatMapLayer/HeatMapLayer.jsx:144-157 | one point per kept item |
| HeatMapLayer.FilterPoints | frontend/src/components/HeatMapLayer/HeatMapLayer.jsx:116-157 | the counting loop yields the kept items' points in order; `validCount` is the number of points and valid + invalid is the input length |
| HeatMapLayer.HeatLayerHost.constructor | frontend/src/components/HeatMapLayer/HeatMapLayer.jsx:8 | no layer referenced or shown |
| HeatMapLayer.HeatLayerHost.Cleanup | frontend/src/components/HeatMapLayer/HeatMapLayer.jsx:196-202 | the referenced layer is taken off the map |
| HeatMapLayer.HeatLayerHost.Effect | frontend/src/components/HeatMapLayer/HeatMapLayer.jsx:101-206 | no data: nothing changes; otherwise the old layer goes, and a layer of the new points is added when there are any |
| HeatMapLayer.HeatLayerHost.DataChanged | frontend/src/components/HeatMapLayer/HeatMapLayer.jsx:101-206 | after a data change the map shows at most one heat layer, holding the new data's points |
| MapView.ValidData | frontend/src/pages/Map/Map.jsx:137-143 | the filter throws exactly on a `null` item; otherwise it keeps exactly the accepted items (location with two coordinates, neither NaN) |
| MapView.MockDisasters | frontend/src/pages/Map/Map.jsx:63-109 | there are five sample records |
| MapView.SampleUsable | frontend/src/pages/Map/Map.jsx:63-109 | a sample with a severity in [0, 1] and non-zero coordinates passes both filters, and its point carries its severity |
| MapView.MockDisastersUsable | frontend/src/pages/Map/Map.jsx:63-109 | every sample passes the API and heat filters with heat equal to its severity, so the API filter keeps them all |
| MapView.ValidDataKeepsAccepted | frontend/src/pages/Map/Map.jsx:137-143 | a list of accepted items is kept whole, in order |
| MapView.ValidDataSingle | frontend/src/pages/Map/Map.jsx:137-143 | one item: `null` throws; otherwise it is kept exactly when accepted |
| MapView.ValidDataAppend | frontend/src/pages/Map/Map.jsx:137-143 | the filter keeps order and multiplicity: the items kept from a concatenation are each part's, in turn; it throws when either part does |
| MapView.MockHeatPoints | frontend/src/pages/Map/Map.jsx:63-109 | the samples give five points in order at their `[lat, lng]` with intensities 0.7, 0.9, 0.85, 0.4, 0.65 |
| MapView.IconFor | frontend/src/pages/Map/Map.jsx:439-446 | Red, Orange or Green exactly on an exact-case match of the alert level; blue otherwise |
| MapView.MarkerFor | frontend/src/pages/Map/Map.jsx:430-484 | no marker without a location or coordinates; a drawn marker is never at (0, 0) and has its alert level's icon |
| MapView.MarkerSkippedIff | frontend/src/pages/Map/Map.jsx:432-436 | a marker is skipped exactly when both coordinates are falsy; a falsy one is drawn at 0 |
| MapView.Markers | frontend/src/pages/Map/Map.jsx:429-484 | there are never more markers than disasters |
| MapView.MarkersSingle | frontend/src/pages/Map/Map.jsx:429-484 | one disaster gives exactly its own marker, or none |
| MapView.MarkersAppend | frontend/src/pages/Map/Map.jsx:429-484 | the markers of a concatenation are those of each part, in turn |
| MapView.AcceptedHasMarkerUnlessAtOrigin | frontend/src/pages/Map/Map.jsx:432-436 | an item the API accepted is dropped exactly when both its coordinates are falsy |
| MapView.MapState.constructor | frontend/src/pages/Map/Map.jsx:112-120 | the initial state: centre [20, 77], heat map on, loading, no error, no result |
| MapView.MapState.FetchDisasters | frontend/src/pages/Map/Map.jsx:125-162 | a non-empty list shows the filtered items (even none); an empty or non-list body shows the samples; a failure or a throwing filter shows the samples with the error message; loading ends |
| MapView.MapState.HandleSearch | frontend/src/pages/Map/Map.jsx:168-202 | a request is sent exactly for a non-blank query; blank sets only the message; the first hit recentres the map on `[lat, lon]`; no hit or failure sets its message and clears the result |
| FilterSystem.HandleFilterClick | frontend/src/components/FilterSystem/FilterSystem.jsx:31-38 | the clicked group gains an entry and every other group is unchanged |
| FilterSystem.ClickToggles | frontend/src/components/FilterSystem/FilterSystem.jsx:34 | the clicked value is selected afterwards exactly when it was not before; clicking the selected value sets the group to '' |
| FilterSystem.ClickSelectsOne | frontend/src/components/FilterSystem/FilterSystem.jsx:34 | no other value of the group is selected after a click |
| FilterSystem.ClickTwiceClears | frontend/src/components/FilterSystem/FilterSystem.jsx:31-35 | from an unselected group value, two clicks on the same value leave the group at '' |
| FilterSystem.ClickLeavesOtherGroups | frontend/src/components/FilterSystem/FilterSystem.jsx:32-35 | selections of other groups are unchanged |
| FilterSystem.StylesDiffer | frontend/src/components/FilterSystem/FilterSystem.jsx:40-47 | the selected and plain class lists differ |
| FilterSystem.ButtonClass | frontend/src/components/FilterSystem/FilterSystem.jsx:40-47 | a button gets the highlighted class list exactly when its value is the group's selection, and the plain one otherwise |
| FilterSystem.ClickHighlights | frontend/src/components/FilterSystem/FilterSystem.jsx:40-47 | after a click the clicked button is highlighted exactly when it was not selected, and the group's other buttons are plain |
| Dashboard.UniqueReportsFacts | frontend/src/pages/Dashboard/Dashboard.jsx:23-25 | the de-duplicated page has pairwise distinct ids covering the page's ids, each the page's last report with it, in first-occurrence order |
| Dashboard.DistinctPageKept | frontend/src/pages/Dashboard/Dashboard.jsx:23-25 | a page without repeated ids is kept as it is |
| Dashboard.DuplicatesAcrossPagesKept | frontend/src/pages/Dashboard/Dashboard.jsx:27 | an id on two pages appears twice once both are appended |
| Dashboard.UniqueReports | frontend/src/pages/Dashboard/Dashboard.jsx:23-25 | the de-duplicated page has pairwise distinct ids, exactly the ids of the page |
| Dashboard.FormatDateTime | frontend/src/pages/Dashboard/Dashboard.jsx:40-44 | a missing date gives "No Date Available"; otherwise the rendering of the parsed date |
| Dashboard.DashboardState.constructor | frontend/src/pages/Dashboard/Dashboard.jsx:6-9 | no reports, loading, page 1, more to come |
| Dashboard.DashboardState.FetchReports | frontend/src/pages/Dashboard/Dashboard.jsx:11-34 | a non-empty page appends its de-duplicated reports after the old ones; an empty page ends scrolling and leaves the reports; a failure ends scrolling and loading and leaves the reports |
| Dashboard.DashboardState.Next | frontend/src/pages/Dashboard/Dashboard.jsx:52 | the page advances by exactly one and nothing else changes |
| Emergency.RemoveAt | frontend/src/pages/Emergency/Emergency.jsx:75 | removing never lengthens the list |
| Emergency.RemoveAtOutOfRange | frontend/src/pages/Emergency/Emergency.jsx:74-76 | an index out of range leaves the list equal |
| Emergency.RemoveAtInRange | frontend/src/pages/Emergency/Emergency.jsx:74-76 | an index in range removes exactly that element, keeping the order of the rest |
| Emergency.NewPhotos | frontend/src/pages/Emergency/Emergency.jsx:66-70 | one photo per file, in order, each with its preview URL |
| Emergency.EmergencyForm.constructor | frontend/src/pages/Emergency/Emergency.jsx:5-11 | no location, not loading, no photos, empty message, type and description |
| Emergency.EmergencyForm.LocationAnswered | frontend/src/pages/Emergency/Emergency.jsx:41-63 | a position is stored with the success message; a failure or missing geolocation only sets its message; loading ends |
| Emergency.EmergencyForm.HandlePhotoUpload | frontend/src/pages/Emergency/Emergency.jsx:65-72 | the new photos are appended after the unchanged old ones |
| Emergency.EmergencyForm.RemovePhoto | frontend/src/pages/Emergency/Emergency.jsx:74-76 | only the photo at the index goes, order kept; an index out of range changes nothing |
| Emergency.EmergencyForm.RemoveAll | frontend/src/pages/Emergency/Emergency.jsx:264 | the photo list is emptied |
| Emergency.EmergencyForm.HandleSubmit | frontend/src/pages/Emergency/Emergency.jsx:78-104 | sending starts exactly with a location and a type; the location is checked first; a refusal only sets its message; sending disables the submit button |
| Emergency.EmergencyForm.AlertSent | frontend/src/pages/Emergency/Emergency.jsx:95-103 | on completion: success message, not loading, description, type and photos cleared, location kept |
| Emergency.EmergencyForm.SubmitDisabled | frontend/src/pages/Emergency/Emergency.jsx:299 | the submit button is enabled only with a location and while not sending |

## Left out

- Network I/O: the GDACS, ReliefWeb and Nominatim requests and the proxy routes. A handler receives what the request delivered.
- Rendering: JSX, CSS classes other than the filter buttons', Leaflet maps, tiles, icon objects and the heat layer's drawing. A heat layer is represented by its points.
- Timers: the 5-second message clearing and the 2-second simulated send. `AlertSent` is the timer's callback.
- Browser APIs: `navigator.geolocation` is an answer given to `LocationAnswered`; `URL.createObjectURL` is a parameter; a file is a handle.
- Database internals: how `bulkWrite` executes (a rejection is a parameter of `UpdateGdacsData`), `$near` distances (a parameter of `AreaDisasters`), indexes, and Mongoose casting and strict-mode dropping. The store is a sequence of records; the schema is exact-typed.
- Insertion of POSTed documents into the store: as written no POST succeeds, and the corrected handler is modelled up to the saved document.
- String parsing (`Number`, `parseFloat`, `parseInt`, `Date`) and `Math.log10`: parameters. `toLocaleString` is a rendering parameter of `FormatDateTime`.
- Floating point: numbers are reals or NaN; infinities and rounding are not modelled.
- Case mapping: only ASCII letters are lower-cased.
- Properties of `Object.prototype` used as table keys (types and alert levels, e.g. a type named "toString" or an alert level "constructor"): treated as unlisted, though JavaScript reads a function there and the severity becomes NaN.
- DisasterController.QueryOf: query parameters are modelled as strings only. An array (a repeated key, which the database reads as `$in`) or an object such as `type[$ne]=EQ`, which the handler passes to the database unchanged, is not modelled.
- Logging: the `console` output and the alert-level distribution effect of the heat layer.
- App wiring: `backend/server.js` mounts `disasterRoutes.js`, not `disasters.js`, so the handlers of `disasters.js` are modelled as functions not tied to URL paths.
- Truthy `location.coordinates` values that are not arrays: the coordinates are modelled as an array or absent.
- `onFilterChange` being called once per click: `HandleFilterClick` returns the object passed to it.
- GdacsService.CalculateSeverity: its closed form is stated on the factor (`MultiplierClosedForm`) and on the product (`SeverityOfFactor`) rather than in one statement per event type.
- DisasterController.DisasterStore.UpdateGdacsData: the distinct-key invariant assumes refreshes run one at a time; with no unique index, two concurrent refreshes can both insert a record of the same key.
- DisasterController.DisasterStore.UpdateGdacsData: the refresh stores records without schema validation (`updateOne` with upsert does not run validators), so the store can hold records that break the schema, such as a negative severity.
- DisasterController.DaysAgo: subtracts `days` × 86400000 ms, while `setDate(getDate() - n)` counts calendar days, so across a daylight-saving change the bound is an hour off.
- HeatMapLayer.RecencyNonIncreasing: assumes `log10` grows on [1, ∞) and is 0 at 1, because `Math.log10` is a parameter.
- HeatMapLayer.IntensityNonIncreasingInAge: makes the same assumptions about `log10`, for the same reason.

## Findings

| source | as written | input that shows it | evidently intended | confidence | as-written member | corrected member |
|---|---|---|---|---|---|---|
| backend/routes/disasters.js:45-65 | the POST handler copies only type, location, severity, description, affectedArea, casualties and status; the schema requires `date`, `alertLevel` and `title` | any body, e.g. a complete EQ report with date, alertLevel "Red" and a title | copy `date`, `alertLevel` and `title` (and store `affectedArea` as `affected_area`) so that a well-formed report is created | not executed | DisasterRoutes.PostAlwaysRejected | DisasterRoutes.PostCorrectedCreatedIff |
