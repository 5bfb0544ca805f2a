# RoofMapping core, modelled in Dafny

RoofMapping turns a street address into a roof measurement report. The
address is geocoded through a ladder of providers: an external service,
Google and then Nominatim. Imagery comes from Esri World Imagery, as
tiles, a 3x3 tile grid or a map export. The building outline comes from
OpenStreetMap's Overpass API. It is projected between geographic
degrees, Web-Mercator metres and image pixels. A stub detector supplies
roof polygons in pixels, and a measurement engine turns them into area,
perimeter, complexity and confidence figures. On the client, the outline
is drawn over the image, and a corner editor lets the user add, delete
and drag corners. There is also a small TTL cache, an analysis-queue stub
and a progress bar.

The model has one Dafny module per source file:

| module | models |
|---|---|
| `Engine` | src/ml/measurements/engine.ts |
| `Geo` | src/ml/overlay/geo.ts |
| `Esri` | src/ml/imagery/esri.ts |
| `Osm` | src/ml/overlay/osm.ts |
| `Geocode` | src/ml/geocode.ts |
| `Sentinel2` | src/ml/imagery/sentinel2.ts |
| `Usgs` | src/ml/lidar/usgs.ts |
| `MaskRcnn` | src/ml/models/maskrcnn.ts |
| `Pipeline` | src/ml/pipeline.ts |
| `Cache` | lib/cache.ts |
| `Sqs` | src/queues/sqs.ts |
| `Progress` | components/ui/progress.tsx |
| `ImageOverlay` | components/ui/image-overlay.tsx |
| `CornerEditor` | components/ui/corner-editor.tsx |

The shared data model sits in `Coords`: LatLng, MercPoint, Extent, Pixel
and Polygon. `Wrappers` holds Option and Result, and `Numeric` holds
`Math.round` and friends. `JsStrings` holds the JavaScript string
built-ins the core uses: `trim`, `replace(/\s+/g, '-')`, integer text and
`join`.

How the model treats the parts of the program it cannot see:

- **Transcendental maths.** `Math.sqrt`, `Math.cos`, the Mercator
  projection and its inverse, and the tile-row formula are function
  parameters. The facts the proofs rely on are stated as predicates on
  those parameters: `Numeric.IsSqrt` and `Coords.Sphere.Valid`.
- **Network replies.** They are parameters, given as datatypes: an Esri
  `Attempt` per HEAD request, a `Reply` per geocoding provider, and an
  `OverpassReply`.
- **The clock.** `Date.now()` is a parameter `now`.
- **Configuration.** The environment variables are booleans in
  `Geocode.Config` and in `Sqs.Enqueue`.
- **Number text.** JavaScript's text of a number is a `numberText`
  parameter.

The code with loops keeps its loops, as methods proved against
specification functions:

- the shoelace and perimeter loops;
- the retry loop;
- the tile-grid loops;
- the bounding-box loops (validation, averaging, min/max);
- the nearest-candidate selection loop and the centroid loop;
- the provider ladder.

The code that mutates something is modelled as classes with `modifies`
clauses: the cache map, the queue array and the corner editor's React
state.

## Model

| member | source | states |
|---|---|---|
| Numeric.Round | src/ml/measurements/engine.ts:52-55 | `Math.round(x)` is the integer within half a unit of x, with a half rounded up |
| Numeric.RoundMonotone | src/ml/measurements/engine.ts:52-53 | rounding never reverses the order of two numbers |
| Numeric.RoundOfInteger | src/ml/measurements/engine.ts:52-55 | rounding an integer gives it back |
| Engine.PolygonAreaSqm | src/ml/measurements/engine.ts:3-12 | the index loop with successor `(i + 1) % n` computes exactly the absolute cyclic shoelace sum, halved and scaled by resolution squared |
| Engine.PolygonPerimeterM | src/ml/measurements/engine.ts:14-24 | the index loop computes exactly the sum of the ring's edge lengths, the closing edge included, scaled by the resolution |
| Engine.LoopTotalIsCyclicSum | src/ml/measurements/engine.ts:5-9 | after all n steps, the loop's running total is the sum over every edge of the closed ring |
| Engine.EdgePrefixIsPath | src/ml/measurements/engine.ts:5-9 | after k steps, the loop's total is the path sum over the first k+1 points of the closed ring |
| Engine.WrapAround | src/ml/measurements/engine.ts:7 | the successor index `(i + 1) % n` is i+1, except for the last vertex, whose successor is 0 |
| Engine.AreaNonNegative | src/ml/measurements/engine.ts:10-11 | the area is never negative |
| Engine.AreaReverse | src/ml/measurements/engine.ts:3-12 | the area does not depend on the direction in which the ring is walked |
| Engine.AreaRotate | src/ml/measurements/engine.ts:3-12 | the area does not depend on which vertex the ring starts from |
| Engine.PerimeterNonNegative | src/ml/measurements/engine.ts:14-24 | at a non-negative resolution the perimeter is non-negative |
| Engine.PerimeterOfCoincidentPoints | src/ml/measurements/engine.ts:14-24 | a ring whose vertices all coincide has perimeter 0 |
| Engine.PerimeterReverse | src/ml/measurements/engine.ts:14-24 | the perimeter does not depend on the walking direction |
| Engine.PerimeterRotate | src/ml/measurements/engine.ts:14-24 | the perimeter does not depend on the starting vertex |
| Engine.CyclicSumReverse | src/ml/measurements/engine.ts:5-9 | walking the ring backwards negates the shoelace sum and keeps the length sum |
| Engine.CyclicSumRotate | src/ml/measurements/engine.ts:5-9 | starting the ring at any vertex keeps both cyclic sums |
| Engine.PathSumReverse | src/ml/measurements/engine.ts:8 | reversing an open path multiplies its sum by the edge term's orientation: -1 for the cross term, +1 for the length |
| Engine.EdgeTermSwap | src/ml/measurements/engine.ts:8 | swapping an edge's ends negates the cross term `x1*y2 - x2*y1` |
| Engine.PathSumNonNegative | src/ml/measurements/engine.ts:21 | a sum of square roots of squared distances is non-negative |
| Engine.TotalAreaNonNegative | src/ml/measurements/engine.ts:48 | the `reduce` over the polygons' areas is non-negative |
| Engine.ComputeMeasurements | src/ml/measurements/engine.ts:26-76 | no polygons: zero area and perimeter, complexity 1, confidence `round(detScore*100)`, pitch confidence 60 or 40 by `lidarPD > 0`. Otherwise: area and perimeter on a tenth and each in the half-open interval (t - 0.05, t + 0.05] around the reduced total t, which is where `Math.round` breaks a tie upward; square feet and feet likewise in (v - 0.5, v + 0.5] around the converted value v, complexity from the rounded perimeter and area, confidence from the detection score and density, pitch estimated iff `lidarPD < 6`, pitch confidence 80 or 40. Always: pitch 30, slope 57.7, no features, accuracy 3 and complexity in [1, 10] |
| Engine.DefaultOptions | src/ml/measurements/engine.ts:31-32 | absent options act as density 0 and detection score 0.7 |
| Engine.ConfidenceBounds | src/ml/measurements/engine.ts:58 | for a detection score in [0, 1] and a non-negative density, the confidence lies in [0, 100] |
| Engine.ConfidenceMonotone | src/ml/measurements/engine.ts:58 | the confidence never falls when the detection score or the density rises |
| Engine.MeasuredConfidenceBounds | src/ml/measurements/engine.ts:26-76 | for a detection score in [0, 1] and a non-negative density, the reported confidence lies in [0, 100], with or without polygons |
| Engine.MeasuredConfidenceMonotone | src/ml/measurements/engine.ts:26-76 | for the same polygons, empty or not, a higher detection score and density never lower the reported confidence |
| Geo.MetersToDegLat | src/ml/overlay/geo.ts:1-3 | the degrees returned, times 111320, give back the metres |
| Geo.MetersToDegLng | src/ml/overlay/geo.ts:5-7 | the degrees returned, times 111320 times the cosine of the latitude, give back the metres; where the cosine is 1, it agrees with the latitude conversion |
| Geo.EquatorDegreesAgree | src/ml/overlay/geo.ts:1-7 | on the equator a metre spans the same angle in both directions |
| Geo.LngLatToTileFloat | src/ml/overlay/geo.ts:9-15 | the row is the tile-row formula scaled by `2 ** z` |
| Geo.TileColumnInRange | src/ml/overlay/geo.ts:9-15 | a longitude in [-180, 180] lands in column [0, 2^z], with -180 at 0 and 180 at 2^z |
| Geo.TileFloatDoubles | src/ml/overlay/geo.ts:9-15 | one more zoom level doubles both tile coordinates |
| Geo.TilePixel | src/ml/overlay/geo.ts:19-20 | one axis of a tile pixel is whole and within 0.5 of `(t - tileIndex) * tileSize` |
| Geo.LngLatToPixelInTile | src/ml/overlay/geo.ts:17-22 | both pixel coordinates are whole and are the rounded offsets into the tile |
| Geo.RectCorners | src/ml/overlay/geo.ts:35-40 | the four corners SW, SE, NE and NW of the box with those half-sides |
| Geo.RectCornersCentred | src/ml/overlay/geo.ts:35-40 | opposite corners average to the centre |
| Geo.GeoRectPixels | src/ml/overlay/geo.ts:24-45 | four pixels, each the tile pixel of the matching corner |
| Geo.GeoRectAxisAligned | src/ml/overlay/geo.ts:24-45 | the pixel rectangle is axis-aligned: corners that share a latitude share a row, and corners that share a longitude share a column |
| Geo.PolygonLatLngToTilePixels | src/ml/overlay/geo.ts:47-58 | one pixel per point, each its tile pixel |
| Geo.Place | src/ml/overlay/geo.ts:76-79 | one axis of an extent pixel is whole and within 0.5 of `d / span * size` |
| Geo.Unplace | src/ml/overlay/geo.ts:104-109 | pixel 0 is the edge of the extent |
| Geo.MercToExtentPixel | src/ml/overlay/geo.ts:72-80 | x is placed from the west edge; y is placed from the north edge, so the image's y axis points down |
| Geo.PolygonLatLngToExtentPixels | src/ml/overlay/geo.ts:67-82 | one pixel per point, each its projected and placed Mercator position |
| Geo.ExtentPixelToMerc | src/ml/overlay/geo.ts:100-110 | the Mercator point lies its unplaced offsets from the west and north edges |
| Geo.ExtentPixelsToPolygonLatLng | src/ml/overlay/geo.ts:91-115 | one point per pixel, each the unprojected Mercator point of that pixel |
| Geo.OriginPixelIsTopLeft | src/ml/overlay/geo.ts:95-115 | pixel (0, 0) maps to the extent's (minX, maxY) corner |
| Geo.TopLeftCornerIsOrigin | src/ml/overlay/geo.ts:67-82 | the extent's (minX, maxY) corner lands on pixel (0, 0) |
| Geo.BottomRightCornerIsFar | src/ml/overlay/geo.ts:67-82 | the (maxX, minY) corner lands on pixel (size, size) |
| Geo.ExtentXGrowsEast | src/ml/overlay/geo.ts:76-78 | on an upright extent, x never decreases eastward |
| Geo.ExtentYGrowsSouth | src/ml/overlay/geo.ts:77-79 | y is inverted: a point further north is never lower in the image |
| Geo.PlaceUnplace | src/ml/overlay/geo.ts:67-109 | placing an unplaced whole pixel gives it back |
| Geo.PixelRoundTrip | src/ml/overlay/geo.ts:67-115 | placing the Mercator point of a whole pixel gives that pixel back |
| Geo.ExtentRoundTrip | src/ml/overlay/geo.ts:91-115 | the two extent maps are inverse on whole pixels, as the doc comment of `extentPixelsToPolygonLatLng` promises |
| JsStrings.TrimStart | src/ml/geocode.ts:11 | drops exactly the leading whitespace |
| JsStrings.TrimEnd | src/ml/geocode.ts:11 | drops exactly the trailing whitespace |
| JsStrings.TrimIsInnerSlice | src/ml/geocode.ts:11 | `trim()` returns the slice between a whitespace prefix and a whitespace suffix |
| JsStrings.TrimmedEndsAreSolid | src/ml/geocode.ts:11 | a non-empty trimmed text starts and ends with a non-whitespace character |
| JsStrings.TrimOfPadded | src/ml/geocode.ts:11 | trimming a word padded with whitespace gives the word |
| JsStrings.DashedHasNoWhitespace | src/ml/imagery/sentinel2.ts:4 | `replace(/\s+/g, '-')` leaves no whitespace |
| JsStrings.DashedKeepsWord | src/ml/imagery/sentinel2.ts:4 | a stretch without whitespace is copied unchanged |
| JsStrings.DashedCollapsesRun | src/ml/imagery/sentinel2.ts:4 | a maximal whitespace run becomes exactly one '-' |
| JsStrings.ParseIntToString | src/ml/imagery/esri.ts:103 | the decimal text of an integer reads back as that integer |
| JsStrings.ParseIntTripleOfText | src/ml/imagery/esri.ts:188 | three integers written with a separator that is neither a digit nor '-' read back exactly |
| JsStrings.SplitFirst | src/ml/imagery/esri.ts:188 | the text is the part before the first separator, the separator and the rest; the first part holds no separator |
| JsStrings.Join | components/ui/corner-editor.tsx:141 | `join` of no parts is empty, and of one part is that part |
| JsStrings.JoinOfLedParts | components/ui/image-overlay.tsx:58-60 | joining parts that carry a lead-in equals joining the bare parts with the lead-in moved into the separator |
| Esri.Classify | src/ml/imagery/esri.ts:33-54 | an attempt succeeds iff it answered 2xx with no content type or an `image/` one. A client error is an `HttpError` with the answered status |
| Esri.ContentTypeErrorsAreRetried | src/ml/imagery/esri.ts:46-68 | a content-type error carries a 2xx status, so it is never treated as a client error |
| Esri.RetryFromFacts | src/ml/imagery/esri.ts:27-77 | from any attempt, a run makes at most maxRetries attempts. Every attempt before the last failed with a retryable error, and the result is the last attempt's outcome, or the last error when none is made. A retryable failure is final only at maxRetries |
| Esri.RetryAttemptsBounded | src/ml/imagery/esri.ts:27-77 | 1 to maxRetries attempts; none when maxRetries <= 0, ending in the "failed after retries" error |
| Esri.RetryReturnsLastOutcome | src/ml/imagery/esri.ts:27-68 | the result is the last attempt's outcome, and every earlier attempt failed with a retryable error |
| Esri.RetryOnlyClientErrorsStopEarly | src/ml/imagery/esri.ts:63-74 | a failure that is not a client error ends the run only after all maxRetries attempts |
| Esri.RetryClientErrorIsFinal | src/ml/imagery/esri.ts:66-68 | a 4xx at attempt k, after k retryable failures, is thrown as it is after exactly k+1 attempts |
| Esri.RetryBackoff | src/ml/imagery/esri.ts:70-73 | the wait after failed attempt k is `retryDelay * (k + 1)`, with no wait after the last attempt |
| Esri.FetchWithRetry | src/ml/imagery/esri.ts:19-78 | the loop's result, attempt count and waits are those of the retry specification |
| Esri.FetchWithDefaultRetry | src/ml/imagery/esri.ts:19-24 | with the default arguments of 3 attempts and a 500 ms delay, makes 1 to 3 attempts and waits 500 ms, then 1000 ms, between them |
| Esri.LngLatToTile | src/ml/imagery/esri.ts:80-86 | the tile index is the whole part of the fractional tile position |
| Esri.PointLiesOnItsTile | src/ml/imagery/esri.ts:80-86 | the point's pixel within its own 256-pixel tile is in [0, 256] on both axes |
| Esri.GroundResolutionAtOrigin | src/ml/imagery/esri.ts:88-90 | at latitude 0 and zoom 0 the resolution is 156543.03392 m |
| Esri.GroundResolutionHalves | src/ml/imagery/esri.ts:88-90 | each zoom level halves the ground resolution |
| Esri.TileUrlRoundTrip | src/ml/imagery/esri.ts:103 | a tile URL names exactly its zoom, row and column |
| Esri.FetchEsriTile | src/ml/imagery/esri.ts:92-123 | fails iff the zoom is outside [0, 23] or the point is out of range, reporting the zoom first and then the coordinates. Otherwise returns the point's tile, its `esri-z-x-y` id, its URL, zoom, tile size, ground resolution and zero cloud cover |
| Esri.FetchEsriTileXY | src/ml/imagery/esri.ts:125-154 | fails iff the zoom or the latitude is out of range, reporting the zoom first and then the latitude. Otherwise returns the given tile, its `esri-z-x-y` id, its URL, zoom, tile size, ground resolution and zero cloud cover |
| Esri.TilesIgnoreHeadCheck | src/ml/imagery/esri.ts:106-142 | the tile functions' answer does not depend on the HEAD requests' outcome |
| Esri.GridSentinelRoundTrip | src/ml/imagery/esri.ts:188 | `tile-grid:{x},{y},{zoom}` names exactly the centre tile and zoom |
| Esri.RowUrls | src/ml/imagery/esri.ts:175-181 | a grid row holds three URLs, for columns cx-1, cx and cx+1 |
| Esri.BuildRow | src/ml/imagery/esri.ts:176-181 | the inner loop builds exactly that row |
| Esri.FetchEsriTileGrid | src/ml/imagery/esri.ts:156-209 | a 3x3 grid in row-major order whose entry [i][j] is tile (cx+j-1, cy+i-1), plus the sentinel URL, the id, size 768, offsets 256 and the ground resolution |
| Esri.ExportResolutionIsEquatorial | src/ml/imagery/esri.ts:219 | the export resolution is the equatorial ground resolution |
| Esri.ExportExtentMeters | src/ml/imagery/esri.ts:218-223 | a square of side `size * resolution` centred on the point's Mercator position |
| Esri.ErrorStatusCode | src/ml/imagery/esri.ts:246-250 | an export validation failure carries a status code exactly when its cause is an HTTP or content-type error, and then it is the cause's status |
| Esri.FetchEsriExportCentered | src/ml/imagery/esri.ts:225-264 | fails iff the zoom, point or size is invalid or the HEAD check fails; a HEAD failure passes its cause on, status code included. Otherwise returns that extent, URL, size, zoom and resolution |
| Esri.FetchEsriExportCenteredDefault | src/ml/imagery/esri.ts:225 | with the default size of 256, fails iff the zoom or the point is invalid or the HEAD check fails; otherwise the export is 256 pixels wide over that extent |
| Esri.FirstInvalidPoint | src/ml/imagery/esri.ts:283-288 | None iff every point is in range; otherwise an out-of-range point of the list |
| Esri.FirstInvalidIs | src/ml/imagery/esri.ts:283-288 | the error names the first out-of-range point |
| Esri.FindInvalidPoint | src/ml/imagery/esri.ts:283-288 | the validation loop finds exactly that point |
| Esri.AveragePoints | src/ml/imagery/esri.ts:291-297 | the averaging loop gives the mean vertex |
| Esri.MercBoundsCover | src/ml/imagery/esri.ts:299-305 | every Mercator vertex lies within the min/max bounds |
| Esri.MercBoundsAttained | src/ml/imagery/esri.ts:299-305 | each side of the bounds is some vertex's coordinate |
| Esri.MercatorBounds | src/ml/imagery/esri.ts:290-305 | the min/max loop gives exactly those bounds |
| Esri.SquareAround | src/ml/imagery/esri.ts:311-317 | a square with that side, centred on c |
| Esri.BBoxExportErrors | src/ml/imagery/esri.ts:272-333 | fails iff there are fewer than 3 points, the size or padding is out of range, a point is out of range, or the HEAD check fails. Each case gives its own error (point count, size, padding, first bad point, HEAD cause with its status code), in the source's order |
| Esri.BBoxExportIsPaddedSquare | src/ml/imagery/esri.ts:307-320 | the extent is a square whose side is the longer side of the bounds times 1+padding, centred on the mean vertex, with `resolutionM * size` equal to the side |
| Esri.FetchEsriExportForBBox | src/ml/imagery/esri.ts:266-346 | the method computes exactly the bounding-box export specification |
| Esri.FetchEsriExportForBBoxDefault | src/ml/imagery/esri.ts:266-270 | with the default size 512 and padding 0.15, fails iff there are fewer than 3 points, a point is out of range, or the HEAD check fails; otherwise the export is 512 pixels wide |
| Esri.BBoxExtentCanMissPoint | src/ml/imagery/esri.ts:309-317 | as written, centring on the mean vertex can leave a vertex outside the requested square |
| Esri.CentredBBoxExtentCoversPoints | src/ml/imagery/esri.ts:299-317 | a square centred on the bounds holds every vertex, for any non-negative padding |
| Osm.OfKind | src/ml/overlay/osm.ts:21-25 | the elements kept are all of that kind |
| Osm.WaysPrecedeRelations | src/ml/overlay/osm.ts:21-25 | after the sort, no way follows a relation |
| Osm.SortKeepsOrderWithinKind | src/ml/overlay/osm.ts:21-25 | the stable sort keeps the original order within each type |
| Osm.SortIsPermutation | src/ml/overlay/osm.ts:21-25 | the sort only reorders |
| Osm.KindsPartition | src/ml/overlay/osm.ts:21-25 | every element is of exactly one of the two kinds, so ways and relations together make up the reply |
| Osm.SortKeepsCandidates | src/ml/overlay/osm.ts:21-45 | some element qualifies after the sort iff one did before |
| Osm.FirstOuterWay | src/ml/overlay/osm.ts:38-39 | finds a member with role `outer` and type `way` iff one exists, and no earlier member matches |
| Osm.NearestIsUnique | src/ml/overlay/osm.ts:46-51 | the strict `<` makes the choice unique: the first of the nearest candidates |
| Osm.Centroid | src/ml/overlay/osm.ts:46-48 | the averaging loop gives the mean longitude and latitude |
| Osm.SelectNearest | src/ml/overlay/osm.ts:29-52 | None iff no element has at least 3 geometry points; otherwise the first nearest candidate |
| Osm.ToLatLngs | src/ml/overlay/osm.ts:69-72 | each vertex `{lat, lon}` becomes `{lat, lng}` |
| Osm.OutlineDropsOnlyClosingVertex | src/ml/overlay/osm.ts:76-80 | the outline is the vertex list, less its last vertex exactly when there are more than 3 vertices and the last is within 1e-6 of the first |
| Osm.DropClosingVertex | src/ml/overlay/osm.ts:76-80 | the `pop()` step removes the last vertex exactly when it repeats the first |
| Osm.FetchBuildingPolygon | src/ml/overlay/osm.ts:5-96 | returns an outline iff the reply is ok and some element qualifies. The outline has at least 3 points and belongs to the nearest candidate after the sort. A failed, non-ok or empty reply gives null |
| Osm.Bounds | src/ml/overlay/osm.ts:107-113 | every point lies within the min/max box |
| Osm.BoundsAttained | src/ml/overlay/osm.ts:107-113 | each side of the box is some point's coordinate |
| Osm.BoundingBox | src/ml/overlay/osm.ts:104-119 | null iff there is no polygon or it has fewer than 3 points; otherwise the four corners of its box |
| Osm.CornersEncloseOutline | src/ml/overlay/osm.ts:114-119 | the corner list runs (minLat, minLng), (minLat, maxLng), (maxLat, maxLng), (maxLat, minLng), and every polygon point lies between its first and third corners |
| Osm.FetchBuildingBBox | src/ml/overlay/osm.ts:102-120 | corners iff an outline was found, and then they are the corners of that outline's box |
| Geocode.ValidationRule | src/ml/geocode.ts:10-18 | the address passes iff its trimmed length is in [3, 500]; below 3 is "too short" and above 500 is "too long" |
| Geocode.PaddingIsIgnored | src/ml/geocode.ts:11 | surrounding whitespace does not change the verdict |
| Geocode.ThrownMessage | src/ml/geocode.ts:28-67 | a timed-out request gives the timeout message; a thrown one gives its message, or `Request failed` when it is empty; never empty |
| Geocode.FailureStep | src/ml/geocode.ts:63-127 | a non-ok status or a thrown request is recorded under the provider's name, as `HTTP <status>` or as the thrown message |
| Geocode.ExternalRule | src/ml/geocode.ts:44-69 | accepted iff an ok body has an in-range coordinate; an ok body without one records nothing; failures are recorded under `external` |
| Geocode.GoogleRule | src/ml/geocode.ts:72-100 | status OK with results gives the first location, with no range check. The three known statuses get fixed messages, and any other status is recorded as it is |
| Geocode.NominatimRule | src/ml/geocode.ts:102-128 | a first hit with both fields is accepted iff it is in range, and otherwise gives nothing; an ok body without such a hit records exactly `osm: No results found` |
| Geocode.Attempts | src/ml/geocode.ts:43-128 | one attempt per configured provider, in order, with Nominatim always last |
| Geocode.FirstAcceptedWins | src/ml/geocode.ts:54-118 | the first accepted coordinate is returned |
| Geocode.NothingAcceptedFails | src/ml/geocode.ts:41-140 | with nothing accepted, the ladder fails with every recorded entry in order |
| Geocode.LadderFailsIffNoneAccepted | src/ml/geocode.ts:37-140 | the ladder fails iff no attempt is accepted |
| Geocode.FirstAccepted | src/ml/geocode.ts:37-128 | when some attempt is accepted, there is a first one |
| Geocode.LadderKeepsAccepted | src/ml/geocode.ts:54-118 | once an attempt is accepted, later attempts do not matter |
| Geocode.RecordedAppend | src/ml/geocode.ts:41 | the recorded entries of two runs of attempts are concatenated |
| Geocode.AllFailedMessage | src/ml/geocode.ts:136-140 | the message starts with the address and the "All providers failed" text |
| Geocode.Conclude | src/ml/geocode.ts:130-140 | a coordinate, the test-mode default, or the `all_failed` error with the joined entries |
| Geocode.RunProviders | src/ml/geocode.ts:41-128 | the step-by-step provider code computes exactly the ladder over the attempts |
| Geocode.GeocodeAddress | src/ml/geocode.ts:37-141 | the validation error when the address is invalid; otherwise the conclusion of the ladder |
| Geocode.OnlyGoogleSkipsRangeCheck | src/ml/geocode.ts:59-117 | Google accepts an out-of-range coordinate that the other providers reject |
| Geocode.OkWithoutResultsRecordsStatus | src/ml/geocode.ts:80-93 | status OK with no results falls to the catch-all branch and records `OK` |
| Geocode.AllFailedEntriesInOrder | src/ml/geocode.ts:64-127 | a total failure records the external, Google and osm entries in that order |
| Geocode.JoinedEntriesText | src/ml/geocode.ts:136 | entries are joined by `; `, each as `provider: error` |
| Sentinel2.FetchSentinel2 | src/ml/imagery/sentinel2.ts:3-5 | id `s2-` plus the address with whitespace runs dashed, free of whitespace; 10 m; bands RGB and NIR |
| Sentinel2.MainStreetId | src/ml/imagery/sentinel2.ts:4 | "123 Main St" gets the id `s2-123-Main-St` |
| Sentinel2.TwoGapsDashed | src/ml/imagery/sentinel2.ts:4 | words separated by single spaces are joined by dashes |
| Usgs.FetchUsgsLidar | src/ml/lidar/usgs.ts:3-5 | id `lidar-` plus the address with whitespace runs dashed; density 8 |
| Usgs.SameKeyAsImagery | src/ml/lidar/usgs.ts:4 | the lidar tile and the image of one address share the key after their prefixes |
| MaskRcnn.DetectRoofPolygons | src/ml/models/maskrcnn.ts:3-11 | exactly one polygon: the 10 x 12 rectangle |
| MaskRcnn.DetectorIgnoresImage | src/ml/models/maskrcnn.ts:3 | the result does not depend on the image id |
| MaskRcnn.RoofRectangleArea | src/ml/models/maskrcnn.ts:4-9 | the rectangle's shoelace sum is 240, so its area is 120 r^2 m^2 |
| MaskRcnn.RoofRectanglePerimeter | src/ml/models/maskrcnn.ts:4-9 | its perimeter is 44 r m |
| Pipeline.RunPipeline | src/ml/pipeline.ts:6-12 | the imagery and lidar of the address, the detector on the image id, and the engine at the imagery's resolution with no options |
| Pipeline.PipelineOutputs | src/ml/pipeline.ts:6-12 | for every address: 12000 m^2, 129167 ft^2, 440 m, 1444 ft, confidence 35, pitch estimated with confidence 40, complexity 2 |
| Pipeline.ComplexityOfRectangle | src/ml/measurements/engine.ts:57 | a 440 m perimeter around 12000 m^2 gives complexity 2 |
| Pipeline.PipelineTestExpectations | tests/mlPipeline.test.ts:5-11 | positive area and perimeter, and 10 m imagery |
| Cache.Lookup | lib/cache.ts:6-14 | a value iff the key is present and not expired strictly before `now`, and then the stored value |
| Cache.AfterLookup | lib/cache.ts:9-12 | a read drops the key's entry exactly when it has expired, and nothing else |
| Cache.Written | lib/cache.ts:16-19 | the key holds the new value with expiry `now + ttl*1000`; other keys are unchanged |
| Cache.Deleted | lib/cache.ts:21-23 | the key is gone and the other entries are unchanged |
| Cache.WrittenIsReadBack | lib/cache.ts:6-19 | with ttl >= 0, a written value is read back at every instant up to its expiry, and the read leaves the map as it is |
| Cache.WriteThenReadAtOnce | lib/cache.ts:6-19 | a write followed by a read at the same instant returns the value |
| Cache.WrittenExpires | lib/cache.ts:9-19 | after the expiry the read returns nothing and leaves the earlier map less the key |
| Cache.WriteLeavesOtherKeys | lib/cache.ts:16-19 | a write is invisible to reads of other keys |
| Cache.DeleteHidesKey | lib/cache.ts:21-23 | a deleted key reads as nothing, other keys are untouched, and a second delete does nothing |
| Cache.LookupIsStable | lib/cache.ts:6-14 | two reads at one instant agree, and the second changes nothing |
| Cache.MemoryCache.constructor | lib/cache.ts:4 | the map starts empty |
| Cache.MemoryCache.Get | lib/cache.ts:6-14 | returns the lookup and leaves the map the lookup leaves |
| Cache.MemoryCache.Set | lib/cache.ts:16-19 | the map becomes the written map |
| Cache.MemoryCache.Del | lib/cache.ts:21-23 | the map becomes the deleted map |
| Sqs.Enqueue | src/queues/sqs.ts:5-9 | accepted iff configured; unconfigured leaves the queue as it is; configured appends the id |
| Sqs.EnqueueAllAppends | src/queues/sqs.ts:5-9 | ids enqueued one after another on a configured queue follow the earlier entries in call order |
| Sqs.UnconfiguredStaysEmpty | tests/sqs.test.ts:5-9 | without configuration the call is refused and a fresh queue stays empty |
| Sqs.AnalysisQueue.constructor | src/queues/sqs.ts:3 | the queue starts empty |
| Sqs.AnalysisQueue.EnqueueAnalysis | src/queues/sqs.ts:5-9 | the reply and the new queue are those of `Enqueue` |
| Sqs.AnalysisQueue.PeekQueue | src/queues/sqs.ts:11-13 | a copy of the queue, which is left untouched |
| Progress.Clamped | components/ui/progress.tsx:8-9 | the shown value lies in [0, 100], with 0 when absent |
| Progress.ClampRule | components/ui/progress.tsx:8-9 | values in range are kept, values above give 100, values below give 0, and absent gives 0 |
| Progress.ClampIsIdempotent | components/ui/progress.tsx:9 | clamping a clamped value changes nothing |
| Progress.ClampIsMonotone | components/ui/progress.tsx:9 | clamping keeps the order of two values |
| Progress.WidthStyle | components/ui/progress.tsx:12 | the width style ends with `%` |
| Progress.OverfullBarIsFull | tests/uiComponents.test.ts:25-31 | a value of 150 draws a `100%` bar |
| ImageOverlay.NaturalScaleX | components/ui/image-overlay.tsx:27 | the natural x scale is positive |
| ImageOverlay.NaturalScaleY | components/ui/image-overlay.tsx:28 | the natural y scale is positive |
| ImageOverlay.DisplayScale | components/ui/image-overlay.tsx:37-41 | positive, at most both ratios and equal to one of them: the largest uniform scale at which the image fits |
| ImageOverlay.LayoutFits | components/ui/image-overlay.tsx:44-49 | the displayed image fits the container, both offsets are >= 0, and one is 0 |
| ImageOverlay.ScaledPolygon | components/ui/image-overlay.tsx:52-55 | one drawn point per polygon point |
| ImageOverlay.ScaledPointFormula | components/ui/image-overlay.tsx:31-55 | each drawn point is `x * (naturalWidth / tileSize) * s + offsetX`, and likewise for y |
| ImageOverlay.ScaledPolygonAppend | components/ui/image-overlay.tsx:52-55 | drawing commutes with concatenation |
| ImageOverlay.TilePointIsOnImage | components/ui/image-overlay.tsx:27-55 | a point of the tile is drawn on the displayed image, inside the container |
| ImageOverlay.Commands | components/ui/image-overlay.tsx:59 | one command per point |
| ImageOverlay.PathShape | components/ui/image-overlay.tsx:58-60 | the path is `M` to the first point, `L` to each later point in order, then ` Z`; with no points it is ` Z` |
| ImageOverlay.PathEnds | components/ui/image-overlay.tsx:58-60 | a non-empty path starts with `M `, and every path ends with ` Z` |
| CornerEditor.MousePos | components/ui/corner-editor.tsx:75-82 | the pointer relative to the SVG's corner, or the origin when the SVG is not mounted |
| CornerEditor.TileRoundTrip | components/ui/corner-editor.tsx:42-72 | a corner drawn and read back from where it is drawn is the same corner |
| CornerEditor.DisplayRoundTrip | components/ui/corner-editor.tsx:61-72 | a pointer position turned into a corner is drawn exactly under the pointer |
| CornerEditor.OutlineMatchesOverlay | components/ui/corner-editor.tsx:139-141 | from 3 corners on, the editor draws the same path as the overlay; below 3 it draws none |
| CornerEditor.WithoutIndex | components/ui/corner-editor.tsx:119 | the filter never lengthens the list |
| CornerEditor.WithoutIndexRemovesOne | components/ui/corner-editor.tsx:119 | the filter removes exactly the entry at the index and keeps the rest in order; an unused index removes nothing |
| CornerEditor.DeleteRule | components/ui/corner-editor.tsx:116-122 | ignored iff 3 corners or fewer remain; otherwise the list without that entry |
| CornerEditor.AddRule | components/ui/corner-editor.tsx:106-114 | ignored iff a corner is being dragged; otherwise the list with the new corner appended |
| CornerEditor.DragRule | components/ui/corner-editor.tsx:92-100 | ignored when nothing is dragged; otherwise the dragged entry is replaced and the rest kept |
| CornerEditor.NeverBelowThree | components/ui/corner-editor.tsx:106-122 | a list of at least 3 corners keeps at least 3 through any sequence of edits |
| CornerEditor.Editor.constructor | components/ui/corner-editor.tsx:29-38 | starts with the given corners and nothing dragged |
| CornerEditor.Editor.Reload | components/ui/corner-editor.tsx:32-36 | takes over non-empty new initial corners and keeps the list otherwise |
| CornerEditor.Editor.MouseDown | components/ui/corner-editor.tsx:84-90 | starts dragging that corner, remembering the pointer |
| CornerEditor.Editor.MouseUp | components/ui/corner-editor.tsx:102-104 | stops dragging |
| CornerEditor.Editor.MouseMove | components/ui/corner-editor.tsx:92-100 | reports and stores `Dragged` at the pointer's tile position; nothing changes when nothing is dragged |
| CornerEditor.Editor.AddCorner | components/ui/corner-editor.tsx:106-114 | reports and stores `Added` at the pointer's tile position |
| CornerEditor.Editor.DeleteCorner | components/ui/corner-editor.tsx:116-122 | reports and stores `Deleted` |

## Left out

- Floating point: all numbers are exact reals. NaN, infinities, IEEE rounding and overflow are not modelled. `Math.round`'s half-up rule is modelled exactly.
- Transcendental functions (`sqrt`, `cos`, `log`, `tan`, `atan`, `exp`): these are parameters. The model assumes of them only what `IsSqrt` and `Sphere.Valid` state.
- `slopePct`: this is the constant 57.7, the value of `Math.round(Math.tan(30 degrees) * 1000) / 10`. The tangent itself is not computed.
- Number-to-text conversion (`toFixed(6)`, `${x}` of a non-integer): export ids and URLs are structured values, and the overlay path takes a `numberText` parameter. Integers are rendered exactly.
- `encodeURIComponent`, the Overpass query URL, and the provider and export URLs: these are not rendered. Only the tile URLs and the grid sentinel are.
- Network I/O, `AbortController` timeouts and the `setTimeout` sleeps: replies are parameters, and the backoff delays are returned as a list of waits.
- Esri error message texts and `statusText`: errors are datatypes that carry the status.
- Console logging in `osm.ts` and `esri.ts`.
- JSON shapes outside those modelled: OSM element types other than `way` and `relation`, and geometry that is not an array; Google's `geometry.location` access throwing, which is subsumed by a thrown request.
- String lengths are counted in code points, not UTF-16 units, and there is no Unicode case or normalisation handling.
- Integer zoom only: `2 ** z` is modelled for integer z.
- ImageOverlay and CornerEditor: non-positive sizes are excluded by `Frame.Positive`, since the source would divide by zero.
- CornerEditor.Dragged: a drag index more than one past the end is treated as ignored. In JavaScript it would grow the array with holes.
- CornerEditor.MousePos: this takes the SVG's bounding-rectangle origin as a parameter instead of reading the DOM.
- CornerEditor: the React render, the markup, the delete button's visibility and event propagation are not modelled. `dragStart` is stored but never read by the source.
- Pipeline.RunPipeline: the lidar density is not passed to the engine. This is the source's own behaviour, so the engine's default of 0 applies.
- Cache: `Date.now()` is the parameter `now`, and the `env` import is unused by the source.
- Context files outside the core: sentinelHub, the services, the repositories, the app routes, tile-composite and the pages.

## Findings

| source | as written | input that shows it | evidently intended | confidence | as-written member | corrected member |
|---|---|---|---|---|---|---|
| src/ml/imagery/esri.ts:309-317 | the padded square is centred on the mean of the vertices | the triangle (0, 0), (1, 0), (0, 10) with a linear Mercator stand-in: the mean longitude is 10/3 and the side is 11.5, so the vertex at longitude 10 lies east of the square | centre the square on the middle of the Mercator bounds, so that every vertex lies inside it | not executed; medium | Esri.BBoxExtentCanMissPoint | Esri.CentredBBoxExtentCoversPoints |

`Esri.FetchEsriExportForBBox` and `Esri.BBoxExport` keep the behaviour as
written, since they model the source. `Esri.CentredBBoxExtent` is the
corrected extent, and `Esri.CentredBBoxExtentCoversPoints` proves that it
covers every vertex.
