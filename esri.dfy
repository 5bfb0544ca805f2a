/** Acquisition rules for Esri World Imagery: the retrying HEAD check over a
    sequence of abstract attempt outcomes, tile addressing, ground
    resolution, input validation, the 3x3 tile grid and its sentinel URL,
    and the two export extents. */
module Esri {
  import opened Numeric
  import opened Coords
  import opened Wrappers
  import opened JsStrings
  import Geo

  // ---------------------------------------------------------------------------
  // fetchWithRetry

  /** What one `fetch` call did: it answered with a status and an optional
      `content-type` header, or it threw an error with a `name`. */
  datatype Attempt =
    | Responded(status: int, contentType: Option<string>)
    | Threw(name: string, message: string)

  /** The error an attempt ends with. `HttpError`, `UnexpectedContentType`,
      `RequestTimedOut` and `RetriesExhausted` are `EsriFetchError`s;
      `Thrown` is any other error, passed on unchanged. */
  datatype FetchError =
    | HttpError(status: int)
    | UnexpectedContentType(contentType: string, status: int)
    | RequestTimedOut
    | Thrown(name: string, message: string)
    | RetriesExhausted

  /** The `statusCode` an `EsriFetchError` carries. */
  function StatusCode(e: FetchError): Option<int>
  {
    match e
    case HttpError(s) => Some(s)
    case UnexpectedContentType(_, s) => Some(s)
    case _ => None
  }

  /** The errors that end the loop at once: a status in [400, 500). */
  predicate IsClientError(e: FetchError)
  {
    StatusCode(e).Some? && StatusCode(e).value != 0 && 400 <= StatusCode(e).value < 500
  }

  predicate IsOkStatus(status: int)
  {
    200 <= status <= 299
  }

  /** One attempt judged: a 2xx answer whose content type, when present
      and non-empty, starts with "image/" succeeds with its status. */
  function Classify(a: Attempt): (r: Result<int, FetchError>)
    ensures r.Ok? <==> a.Responded? && IsOkStatus(a.status)
                       && (a.contentType.None? || a.contentType.value == [] || StartsWith(a.contentType.value, "image/"))
    ensures r.Ok? ==> r.value == a.status
    ensures r.Err? && IsClientError(r.error) ==> a.Responded? && r.error == HttpError(a.status)
  {
    match a
    case Responded(status, contentType) =>
      if !IsOkStatus(status) then Err(HttpError(status))
      else if contentType.Some? && contentType.value != [] && !StartsWith(contentType.value, "image/") then
        Err(UnexpectedContentType(contentType.value, status))
      else Ok(status)
    case Threw(name, message) =>
      if name == "AbortError" || name == "TimeoutError" then Err(RequestTimedOut)
      else Err(Thrown(name, message))
  }

  /** Content-type errors carry a 2xx status and so are always retried. */
  lemma ContentTypeErrorsAreRetried(a: Attempt)
    requires Classify(a).Err? && Classify(a).error.UnexpectedContentType?
    ensures !IsClientError(Classify(a).error)
  {
  }

  /** A whole run of the loop: its result, how many attempts it made and
      the back-off delays it waited, in order. */
  datatype RetryRun = RetryRun(result: Result<int, FetchError>, tries: nat, waits: seq<real>)

  /** The loop from attempt number `attempt` on, `lastError` being the
      error of the attempt before it. */
  function RetryFrom(respond: nat -> Attempt, maxRetries: int, retryDelay: real, attempt: nat, lastError: Option<FetchError>): RetryRun
    decreases maxRetries - attempt
  {
    if attempt >= maxRetries then
      RetryRun(Err(if lastError.Some? then lastError.value else RetriesExhausted), attempt, [])
    else
      var outcome := Classify(respond(attempt));
      if outcome.Ok? || IsClientError(outcome.error) then RetryRun(outcome, attempt + 1, [])
      else
        var wait := if attempt < maxRetries - 1 then [retryDelay * (attempt + 1) as real] else [];
        var rest := RetryFrom(respond, maxRetries, retryDelay, attempt + 1, Some(outcome.error));
        RetryRun(rest.result, rest.tries, wait + rest.waits)
  }

  /** `fetchWithRetry(url, options, maxRetries, retryDelay)` where the k-th
      `fetch` call does `respond(k)`. */
  function RetryOutcome(respond: nat -> Attempt, maxRetries: int, retryDelay: real): RetryRun
  {
    RetryFrom(respond, maxRetries, retryDelay, 0, None)
  }

  /** The delays before attempts a+1 .. tries-1: retryDelay times the
      number of the attempt that just failed. */
  function Backoff(retryDelay: real, a: nat, tries: nat): (w: seq<real>)
    ensures |w| == if tries > a then tries - a - 1 else 0
    decreases tries - a
  {
    if tries > a + 1 then [retryDelay * (a + 1) as real] + Backoff(retryDelay, a + 1, tries) else []
  }

  lemma {:induction false} RetryFromFacts(respond: nat -> Attempt, maxRetries: int, retryDelay: real, attempt: nat, lastError: Option<FetchError>)
    ensures var run := RetryFrom(respond, maxRetries, retryDelay, attempt, lastError);
      && attempt <= run.tries
      && (run.tries == attempt <==> attempt >= maxRetries)
      && (attempt < maxRetries ==> run.tries <= maxRetries)
      && (run.tries == attempt ==> run.result == Err(if lastError.Some? then lastError.value else RetriesExhausted))
      && (run.tries > attempt ==> run.result == Classify(respond(run.tries - 1)))
      && (run.tries > attempt && run.result.Err? && !IsClientError(run.result.error) ==> run.tries == maxRetries)
      && (forall k :: attempt <= k < run.tries - 1 ==> Classify(respond(k)).Err? && !IsClientError(Classify(respond(k)).error))
      && run.waits == Backoff(retryDelay, attempt, run.tries)
    decreases maxRetries - attempt
  {
    if attempt < maxRetries {
      var outcome := Classify(respond(attempt));
      if !(outcome.Ok? || IsClientError(outcome.error)) {
        RetryFromFacts(respond, maxRetries, retryDelay, attempt + 1, Some(outcome.error));
      }
    }
  }

  /** At most `maxRetries` attempts are made, and none when it is not
      positive, which ends in the generic "failed after retries" error. */
  lemma RetryAttemptsBounded(respond: nat -> Attempt, maxRetries: int, retryDelay: real)
    ensures var run := RetryOutcome(respond, maxRetries, retryDelay);
      && (maxRetries <= 0 ==> run.tries == 0 && run.result == Err(RetriesExhausted))
      && (maxRetries > 0 ==> 1 <= run.tries <= maxRetries)
  {
    RetryFromFacts(respond, maxRetries, retryDelay, 0, None);
  }

  /** Every attempt before the last failed with an error other than a
      client error, and the run's result is the last attempt's outcome: the
      loop returns on the first success. */
  lemma RetryReturnsLastOutcome(respond: nat -> Attempt, maxRetries: int, retryDelay: real)
    ensures var run := RetryOutcome(respond, maxRetries, retryDelay);
      && (run.tries >= 1 ==> run.result == Classify(respond(run.tries - 1)))
      && (forall k :: 0 <= k < run.tries - 1 ==> Classify(respond(k)).Err? && !IsClientError(Classify(respond(k)).error))
  {
    RetryFromFacts(respond, maxRetries, retryDelay, 0, None);
  }

  /** A failure that is not a client error is only final once all
      `maxRetries` attempts are spent; a client error ends the run at once. */
  lemma RetryOnlyClientErrorsStopEarly(respond: nat -> Attempt, maxRetries: int, retryDelay: real)
    ensures var run := RetryOutcome(respond, maxRetries, retryDelay);
      run.tries >= 1 && run.result.Err? && !IsClientError(run.result.error) ==> run.tries == maxRetries
  {
    RetryFromFacts(respond, maxRetries, retryDelay, 0, None);
  }

  /** A client error at attempt k, after k retryable failures, is thrown
      as it is and no attempt k+1 is made. */
  lemma RetryClientErrorIsFinal(respond: nat -> Attempt, maxRetries: int, retryDelay: real, k: nat)
    requires k < maxRetries
    requires forall j :: 0 <= j < k ==> Classify(respond(j)).Err? && !IsClientError(Classify(respond(j)).error)
    requires Classify(respond(k)).Err? && IsClientError(Classify(respond(k)).error)
    ensures RetryOutcome(respond, maxRetries, retryDelay).result == Classify(respond(k))
    ensures RetryOutcome(respond, maxRetries, retryDelay).tries == k + 1
  {
    RetryFromFacts(respond, maxRetries, retryDelay, 0, None);
  }

  /** The wait after failed attempt k is retryDelay * (k + 1), and nothing
      is waited after the last attempt. */
  lemma RetryBackoff(respond: nat -> Attempt, maxRetries: int, retryDelay: real)
    ensures var run := RetryOutcome(respond, maxRetries, retryDelay);
      && |run.waits| == (if run.tries > 0 then run.tries - 1 else 0)
      && forall k :: 0 <= k < |run.waits| ==> run.waits[k] == retryDelay * (k + 1) as real
  {
    RetryFromFacts(respond, maxRetries, retryDelay, 0, None);
    var run := RetryOutcome(respond, maxRetries, retryDelay);
    BackoffValues(retryDelay, 0, run.tries);
  }

  lemma {:induction false} BackoffValues(retryDelay: real, a: nat, tries: nat)
    ensures forall k :: 0 <= k < |Backoff(retryDelay, a, tries)| ==> Backoff(retryDelay, a, tries)[k] == retryDelay * (a + k + 1) as real
    decreases tries - a
  {
    if tries > a + 1 {
      BackoffValues(retryDelay, a + 1, tries);
    }
  }

  /** The retry loop itself: tries up to `maxRetries` times, rethrows a
      client error at once, waits `retryDelay * (attempt + 1)` between
      attempts, and throws the last error once the attempts are spent. */
  method FetchWithRetry(respond: nat -> Attempt, maxRetries: int, retryDelay: real)
    returns (result: Result<int, FetchError>, tries: nat, waits: seq<real>)
    ensures RetryRun(result, tries, waits) == RetryOutcome(respond, maxRetries, retryDelay)
  {
    var lastError: Option<FetchError> := None;
    waits := [];
    var attempt: nat := 0;
    while attempt < maxRetries
      invariant var rest := RetryFrom(respond, maxRetries, retryDelay, attempt, lastError);
        RetryOutcome(respond, maxRetries, retryDelay) == RetryRun(rest.result, rest.tries, waits + rest.waits)
      decreases maxRetries - attempt
    {
      var outcome := Classify(respond(attempt));
      if outcome.Ok? || IsClientError(outcome.error) {
        assert waits + [] == waits;
        return outcome, attempt + 1, waits;
      }
      var wait := if attempt < maxRetries - 1 then [retryDelay * (attempt + 1) as real] else [];
      ghost var rest := RetryFrom(respond, maxRetries, retryDelay, attempt + 1, Some(outcome.error));
      assert waits + (wait + rest.waits) == (waits + wait) + rest.waits;
      waits := waits + wait;
      lastError := Some(outcome.error);
      attempt := attempt + 1;
    }
    assert waits + [] == waits;
    result := Err(if lastError.Some? then lastError.value else RetriesExhausted);
    tries := attempt;
  }

  /** The tile and export functions check their URL with a HEAD request and
      two attempts, 500 ms apart. */
  const HeadRetries: int := 2
  const DefaultRetryDelay: real := 500.0

  function HeadCheck(respond: nat -> Attempt): Result<int, FetchError>
  {
    RetryOutcome(respond, HeadRetries, DefaultRetryDelay).result
  }

  /** `fetchWithRetry` called with its default arguments: at most three
      attempts, waiting 500 ms and then 1000 ms between them. */
  const DefaultMaxRetries: int := 3

  method FetchWithDefaultRetry(respond: nat -> Attempt) returns (result: Result<int, FetchError>, tries: nat, waits: seq<real>)
    ensures RetryRun(result, tries, waits) == RetryOutcome(respond, DefaultMaxRetries, DefaultRetryDelay)
    ensures 1 <= tries <= 3
    ensures waits == [500.0, 1000.0][..tries - 1]
  {
    result, tries, waits := FetchWithRetry(respond, DefaultMaxRetries, DefaultRetryDelay);
    RetryAttemptsBounded(respond, DefaultMaxRetries, DefaultRetryDelay);
    RetryBackoff(respond, DefaultMaxRetries, DefaultRetryDelay);
    assert forall k :: 0 <= k < |waits| ==> waits[k] == [500.0, 1000.0][..tries - 1][k];
  }

  // ---------------------------------------------------------------------------
  // Tiles and resolutions

  datatype TileIndex = TileIndex(x: int, y: int)

  /** `lngLatToTile`: the tile containing the point, the whole part of its
      fractional tile position. */
  function LngLatToTile(lng: real, lat: real, z: int, sphere: Sphere): (t: TileIndex)
    ensures var f := Geo.LngLatToTileFloat(lng, lat, z, sphere);
      t.x as real <= f.x < t.x as real + 1.0 && t.y as real <= f.y < t.y as real + 1.0
  {
    var f := Geo.LngLatToTileFloat(lng, lat, z, sphere);
    TileIndex(f.x.Floor, f.y.Floor)
  }

  /** Esri tiles are 256 pixels square. */
  const TileSize: real := 256.0

  /** The point lies on its own tile: its pixel within that tile is in
      [0, 256] on both axes. */
  lemma PointLiesOnItsTile(lng: real, lat: real, z: int, sphere: Sphere)
    ensures var t := LngLatToTile(lng, lat, z, sphere);
      var p := Geo.LngLatToPixelInTile(lng, lat, z, t.x as real, t.y as real, TileSize, sphere);
      0.0 <= p.x <= TileSize && 0.0 <= p.y <= TileSize
  {
    var t := LngLatToTile(lng, lat, z, sphere);
    var f := Geo.LngLatToTileFloat(lng, lat, z, sphere);
    RoundMonotone(0.0, (f.x - t.x as real) * TileSize);
    RoundMonotone((f.x - t.x as real) * TileSize, TileSize);
    RoundMonotone(0.0, (f.y - t.y as real) * TileSize);
    RoundMonotone((f.y - t.y as real) * TileSize, TileSize);
    RoundOfInteger(256);
  }

  /** Metres per pixel at zoom 0 on the equator. */
  const EquatorResolution: real := 156543.03392

  /** `groundResolution(lat, z)`: metres per pixel at latitude `lat`. */
  function GroundResolution(lat: real, z: int, sphere: Sphere): real
  {
    EquatorResolution * sphere.cosDeg(lat) / Pow2(z)
  }

  lemma GroundResolutionAtOrigin(sphere: Sphere)
    requires sphere.Valid()
    ensures GroundResolution(0.0, 0, sphere) == EquatorResolution
  {
  }

  lemma HalfOfQuotient(k: real, p: real)
    requires p != 0.0
    ensures k / (2.0 * p) == k / p / 2.0
  {
    var q := k / p;
    assert q * p == k;
    assert (q / 2.0) * (2.0 * p) == k;
  }

  /** Each zoom level halves the ground resolution. */
  lemma GroundResolutionHalves(lat: real, z: int, sphere: Sphere)
    ensures GroundResolution(lat, z + 1, sphere) == GroundResolution(lat, z, sphere) / 2.0
  {
    Pow2Succ(z);
    HalfOfQuotient(EquatorResolution * sphere.cosDeg(lat), Pow2(z));
  }

  // ---------------------------------------------------------------------------
  // Images and validation

  /** Image ids: tile ids are text; export ids embed `toFixed(6)` renderings,
      kept as the numbers they render. */
  datatype ImageId =
    | IdText(text: string)
    | ExportCenteredId(zoom: int, lat: real, lng: real)
    | ExportBBoxId(lat: real, lng: real, size: real)

  /** Image URLs: tile and grid URLs are text; export URLs are the
      `export?bbox=...&bboxSR=102100&imageSR=102100&size=s,s&format=png&f=image`
      request for the given box and size. */
  datatype ImageUrl = UrlText(text: string) | ExportUrl(bbox: Extent, size: real)

  /** `EsriImage`. */
  datatype EsriImage = EsriImage(
    id: ImageId, url: ImageUrl, resolutionM: real, cloudCoverage: real,
    tileX: int, tileY: int, zoom: int, tileSize: real)

  /** An export with the Mercator extent it covers. */
  datatype ExportImage = ExportImage(image: EsriImage, extent: Extent)

  /** The `EsriFetchError`s the entry points throw. */
  datatype EsriError =
    | InvalidZoom(zoom: int)
    | InvalidCoordinates(lat: real, lng: real)
    | InvalidLatitude(lat: real)
    | InvalidSize(size: real)
    | InvalidPoints(count: nat)
    | InvalidPaddingRatio(ratio: real)
    | InvalidPointCoordinates(lat: real, lng: real)
    | ExportValidationFailed(cause: FetchError)

  /** The status an `ExportValidationFailed` passes on from its cause. */
  function ErrorStatusCode(e: EsriError): (c: Option<int>)
    ensures c.Some? <==> e.ExportValidationFailed? && (e.cause.HttpError? || e.cause.UnexpectedContentType?)
    ensures c.Some? ==> c.value == e.cause.status
  {
    if e.ExportValidationFailed? then StatusCode(e.cause) else None
  }

  predicate ValidZoom(zoom: int)
  {
    0 <= zoom <= 23
  }

  predicate ValidSize(size: real)
  {
    64.0 <= size <= 2048.0
  }

  predicate ValidPadding(ratio: real)
  {
    0.0 <= ratio <= 1.0
  }

  const TileUrlPrefix: string := "https://services.arcgisonline.com/ArcGIS/rest/services/World_Imagery/MapServer/tile/"

  /** The URL of tile (x, y) at `zoom`: `.../tile/{zoom}/{y}/{x}`. */
  function TileUrl(zoom: int, y: int, x: int): string
  {
    TileUrlPrefix + IntToString(zoom) + "/" + IntToString(y) + "/" + IntToString(x)
  }

  /** Reads zoom, row and column back out of a tile URL. */
  function ParseTileUrl(url: string): Option<(int, int, int)>
  {
    if StartsWith(url, TileUrlPrefix) then ParseIntTriple(url[|TileUrlPrefix|..], '/') else None
  }

  /** A tile URL names exactly its zoom, row and column. */
  lemma TileUrlRoundTrip(zoom: int, y: int, x: int)
    ensures ParseTileUrl(TileUrl(zoom, y, x)) == Some((zoom, y, x))
  {
    var rest := IntToString(zoom) + "/" + IntToString(y) + "/" + IntToString(x);
    assert TileUrl(zoom, y, x) == TileUrlPrefix + rest;
    assert TileUrl(zoom, y, x)[|TileUrlPrefix|..] == rest;
    ParseIntTripleOfText(zoom, y, x, '/');
  }

  function TileImage(zoom: int, x: int, y: int, lat: real, sphere: Sphere): EsriImage
  {
    EsriImage(IdText("esri-" + IntToString(zoom) + "-" + IntToString(x) + "-" + IntToString(y)),
              UrlText(TileUrl(zoom, y, x)), GroundResolution(lat, zoom, sphere), 0.0, x, y, zoom, TileSize)
  }

  /** `fetchEsriTile`: the tile under the point. The HEAD check is made but
      its outcome is discarded. */
  function FetchEsriTile(lat: real, lng: real, zoom: int, respond: nat -> Attempt, sphere: Sphere): (r: Result<EsriImage, EsriError>)
    ensures r.Err? <==> !ValidZoom(zoom) || !InRange(LatLng(lat, lng))
    ensures !ValidZoom(zoom) ==> r == Err(InvalidZoom(zoom))
    ensures ValidZoom(zoom) && !InRange(LatLng(lat, lng)) ==> r == Err(InvalidCoordinates(lat, lng))
    ensures r.Ok? ==> var t := LngLatToTile(lng, lat, zoom, sphere);
      && r.value.id == IdText("esri-" + IntToString(zoom) + "-" + IntToString(t.x) + "-" + IntToString(t.y))
      && r.value.tileX == t.x && r.value.tileY == t.y && r.value.zoom == zoom
      && r.value.url == UrlText(TileUrl(zoom, t.y, t.x)) && r.value.tileSize == TileSize
      && r.value.resolutionM == GroundResolution(lat, zoom, sphere) && r.value.cloudCoverage == 0.0
  {
    if !ValidZoom(zoom) then Err(InvalidZoom(zoom))
    else if !InRange(LatLng(lat, lng)) then Err(InvalidCoordinates(lat, lng))
    else
      var t := LngLatToTile(lng, lat, zoom, sphere);
      var _ := HeadCheck(respond);
      Ok(TileImage(zoom, t.x, t.y, lat, sphere))
  }

  /** `fetchEsriTileXY`: a given tile; only the zoom and latitude are
      checked. */
  function FetchEsriTileXY(lat: real, zoom: int, x: int, y: int, respond: nat -> Attempt, sphere: Sphere): (r: Result<EsriImage, EsriError>)
    ensures r.Err? <==> !ValidZoom(zoom) || !(-90.0 <= lat <= 90.0)
    ensures !ValidZoom(zoom) ==> r == Err(InvalidZoom(zoom))
    ensures ValidZoom(zoom) && !(-90.0 <= lat <= 90.0) ==> r == Err(InvalidLatitude(lat))
    ensures r.Ok? ==>
      && r.value.id == IdText("esri-" + IntToString(zoom) + "-" + IntToString(x) + "-" + IntToString(y))
      && r.value.tileX == x && r.value.tileY == y && r.value.zoom == zoom
      && r.value.url == UrlText(TileUrl(zoom, y, x)) && r.value.tileSize == TileSize
      && r.value.resolutionM == GroundResolution(lat, zoom, sphere) && r.value.cloudCoverage == 0.0
  {
    if !ValidZoom(zoom) then Err(InvalidZoom(zoom))
    else if !(-90.0 <= lat <= 90.0) then Err(InvalidLatitude(lat))
    else
      var _ := HeadCheck(respond);
      Ok(TileImage(zoom, x, y, lat, sphere))
  }

  /** A failed HEAD check is swallowed for tiles: the answer does not depend
      on what the requests did. */
  lemma TilesIgnoreHeadCheck(lat: real, lng: real, zoom: int, x: int, y: int, respond1: nat -> Attempt, respond2: nat -> Attempt, sphere: Sphere)
    ensures FetchEsriTile(lat, lng, zoom, respond1, sphere) == FetchEsriTile(lat, lng, zoom, respond2, sphere)
    ensures FetchEsriTileXY(lat, zoom, x, y, respond1, sphere) == FetchEsriTileXY(lat, zoom, x, y, respond2, sphere)
  {
  }

  // ---------------------------------------------------------------------------
  // The 3x3 tile grid

  /** `fetchEsriTileGrid` with its grid fields. */
  datatype TileGrid = TileGrid(
    image: EsriImage, centerTileX: int, centerTileY: int,
    gridOffsetX: real, gridOffsetY: real, tileUrls: seq<seq<string>>)

  const GridSize: int := 3

  /** `tile-grid:{centerX},{centerY},{zoom}`. */
  function GridSentinel(x: int, y: int, zoom: int): string
  {
    "tile-grid:" + IntToString(x) + "," + IntToString(y) + "," + IntToString(zoom)
  }

  function ParseGridSentinel(url: string): Option<(int, int, int)>
  {
    if StartsWith(url, "tile-grid:") then ParseIntTriple(url[10..], ',') else None
  }

  /** The sentinel names exactly the centre tile and zoom. */
  lemma GridSentinelRoundTrip(x: int, y: int, zoom: int)
    ensures ParseGridSentinel(GridSentinel(x, y, zoom)) == Some((x, y, zoom))
  {
    var rest := IntToString(x) + "," + IntToString(y) + "," + IntToString(zoom);
    assert GridSentinel(x, y, zoom) == "tile-grid:" + rest;
    assert GridSentinel(x, y, zoom)[10..] == rest;
    ParseIntTripleOfText(x, y, zoom, ',');
  }

  /** The three URLs of grid row `y`, columns `cx - 1` to `cx + 1`. */
  function RowUrls(zoom: int, y: int, cx: int): (r: seq<string>)
    ensures |r| == 3 && forall j :: 0 <= j < 3 ==> r[j] == TileUrl(zoom, y, cx + j - 1)
  {
    seq(3, j => TileUrl(zoom, y, cx + j - 1))
  }

  /** The inner loop of the grid: one row, left to right. */
  method BuildRow(zoom: int, y: int, cx: int) returns (row: seq<string>)
    ensures row == RowUrls(zoom, y, cx)
  {
    row := [];
    var dx := -1;
    while dx <= 1
      invariant -1 <= dx <= 2 && |row| == dx + 1
      invariant forall j :: 0 <= j < |row| ==> row[j] == TileUrl(zoom, y, cx + j - 1)
    {
      row := row + [TileUrl(zoom, y, cx + dx)];
      dx := dx + 1;
    }
  }

  /** The 3x3 block of tiles around the point's tile, in row-major order:
      `tileUrls[i][j]` is tile (centerX + j - 1, centerY + i - 1). No input
      is validated and no HEAD check is made. */
  method FetchEsriTileGrid(centerLat: real, centerLng: real, zoom: int, sphere: Sphere) returns (g: TileGrid)
    ensures var c := LngLatToTile(centerLng, centerLat, zoom, sphere);
      && g.centerTileX == c.x && g.centerTileY == c.y
      && g.image.tileX == c.x && g.image.tileY == c.y && g.image.zoom == zoom
      && |g.tileUrls| == 3
      && (forall i :: 0 <= i < 3 ==> |g.tileUrls[i]| == 3)
      && (forall i, j :: 0 <= i < 3 && 0 <= j < 3 ==> g.tileUrls[i][j] == TileUrl(zoom, c.y + i - 1, c.x + j - 1))
      && g.image.url == UrlText(GridSentinel(c.x, c.y, zoom))
      && g.image.id == IdText("esri-grid-" + IntToString(zoom) + "-" + IntToString(c.x) + "-" + IntToString(c.y))
      && g.image.tileSize == 768.0 && g.gridOffsetX == TileSize && g.gridOffsetY == TileSize
      && g.image.resolutionM == GroundResolution(centerLat, zoom, sphere) && g.image.cloudCoverage == 0.0
  {
    var c := LngLatToTile(centerLng, centerLat, zoom, sphere);
    var tileUrls: seq<seq<string>> := [];
    var dy := -1;
    while dy <= 1
      invariant -1 <= dy <= 2 && |tileUrls| == dy + 1
      invariant forall i :: 0 <= i < |tileUrls| ==> tileUrls[i] == RowUrls(zoom, c.y + i - 1, c.x)
    {
      var row := BuildRow(zoom, c.y + dy, c.x);
      tileUrls := tileUrls + [row];
      dy := dy + 1;
    }
    var image := EsriImage(IdText("esri-grid-" + IntToString(zoom) + "-" + IntToString(c.x) + "-" + IntToString(c.y)),
                           UrlText(GridSentinel(c.x, c.y, zoom)), GroundResolution(centerLat, zoom, sphere), 0.0,
                           c.x, c.y, zoom, TileSize * GridSize as real);
    g := TileGrid(image, c.x, c.y, TileSize, TileSize, tileUrls);
  }

  // ---------------------------------------------------------------------------
  // Centred export

  /** Metres per pixel of a Web-Mercator export at `zoom`, before any
      latitude correction. */
  function ExportResolution(zoom: int): real
  {
    EquatorResolution / Pow2(zoom)
  }

  /** The export resolution is the ground resolution on the equator. */
  lemma ExportResolutionIsEquatorial(zoom: int, sphere: Sphere)
    requires sphere.Valid()
    ensures ExportResolution(zoom) == GroundResolution(0.0, zoom, sphere)
  {
  }

  /** `exportExtentMeters`: the square of side size * resolution centred on
      the point's Mercator position. */
  function ExportExtentMeters(lat: real, lng: real, zoom: int, size: real, sphere: Sphere): (e: Extent)
    ensures var c := sphere.toMercator(LatLng(lat, lng));
      && (e.minX + e.maxX) / 2.0 == c.x && (e.minY + e.maxY) / 2.0 == c.y
      && e.maxX - e.minX == ExportResolution(zoom) * size
      && e.maxY - e.minY == ExportResolution(zoom) * size
  {
    var half := ExportResolution(zoom) * size / 2.0;
    var c := sphere.toMercator(LatLng(lat, lng));
    Extent(c.x - half, c.y - half, c.x + half, c.y + half)
  }

  /** `fetchEsriExportCentered`: an export of `size` pixels around the point.
      A failed HEAD check fails the export, carrying its cause. */
  function FetchEsriExportCentered(lat: real, lng: real, zoom: int, size: real, respond: nat -> Attempt, sphere: Sphere): (r: Result<ExportImage, EsriError>)
    ensures r.Err? <==> !ValidZoom(zoom) || !InRange(LatLng(lat, lng)) || !ValidSize(size) || HeadCheck(respond).Err?
    ensures r.Err? && ValidZoom(zoom) && InRange(LatLng(lat, lng)) && ValidSize(size)
      ==> r.error == ExportValidationFailed(HeadCheck(respond).error)
          && ErrorStatusCode(r.error) == StatusCode(HeadCheck(respond).error)
    ensures r.Ok? ==> && r.value.extent == ExportExtentMeters(lat, lng, zoom, size, sphere)
                      && r.value.image.url == ExportUrl(r.value.extent, size)
                      && r.value.image.tileSize == size && r.value.image.zoom == zoom
                      && r.value.image.resolutionM == GroundResolution(lat, zoom, sphere)
  {
    if !ValidZoom(zoom) then Err(InvalidZoom(zoom))
    else if !InRange(LatLng(lat, lng)) then Err(InvalidCoordinates(lat, lng))
    else if !ValidSize(size) then Err(InvalidSize(size))
    else
      var extent := ExportExtentMeters(lat, lng, zoom, size, sphere);
      var head := HeadCheck(respond);
      if head.Err? then Err(ExportValidationFailed(head.error))
      else Ok(ExportImage(EsriImage(ExportCenteredId(zoom, lat, lng), ExportUrl(extent, size),
                                    GroundResolution(lat, zoom, sphere), 0.0, 0, 0, zoom, size), extent))
  }

  /** `fetchEsriExportCentered` with its default size of 256 pixels, which
      the size check always accepts. */
  const DefaultCenteredSize: real := 256.0

  function FetchEsriExportCenteredDefault(lat: real, lng: real, zoom: int, respond: nat -> Attempt, sphere: Sphere): (r: Result<ExportImage, EsriError>)
    ensures r.Err? <==> !ValidZoom(zoom) || !InRange(LatLng(lat, lng)) || HeadCheck(respond).Err?
    ensures r.Ok? ==> && r.value.image.tileSize == 256.0
                      && r.value.extent == ExportExtentMeters(lat, lng, zoom, 256.0, sphere)
  {
    FetchEsriExportCentered(lat, lng, zoom, DefaultCenteredSize, respond, sphere)
  }

  // ---------------------------------------------------------------------------
  // Bounding-box export

  const DefaultBBoxSize: real := 512.0
  const DefaultPaddingRatio: real := 0.15

  /** The first point outside the latitude/longitude range, if any. */
  function FirstInvalidPoint(points: seq<LatLng>): (r: Option<LatLng>)
    ensures r.None? <==> forall i :: 0 <= i < |points| ==> InRange(points[i])
    ensures r.Some? ==> exists i :: 0 <= i < |points| && points[i] == r.value && !InRange(r.value)
                           && forall j :: 0 <= j < i ==> InRange(points[j])
  {
    if points == [] then None
    else if !InRange(points[0]) then Some(points[0])
    else
      var r := FirstInvalidPoint(points[1..]);
      assert r.Some? ==> exists i :: 1 <= i < |points| && points[i] == r.value && !InRange(r.value)
                          && forall j :: 1 <= j < i ==> InRange(points[j]);
      r
  }

  function SumLat(points: seq<LatLng>): real
  {
    if points == [] then 0.0 else SumLat(points[..|points| - 1]) + points[|points| - 1].lat
  }

  function SumLng(points: seq<LatLng>): real
  {
    if points == [] then 0.0 else SumLng(points[..|points| - 1]) + points[|points| - 1].lng
  }

  /** The arithmetic mean of the vertices. */
  function MeanPoint(points: seq<LatLng>): LatLng
    requires |points| > 0
  {
    LatLng(SumLat(points) / |points| as real, SumLng(points) / |points| as real)
  }

  function Mercators(points: seq<LatLng>, sphere: Sphere): (ms: seq<MercPoint>)
    ensures |ms| == |points| && forall i :: 0 <= i < |points| ==> ms[i] == sphere.toMercator(points[i])
  {
    seq(|points|, i requires 0 <= i < |points| => sphere.toMercator(points[i]))
  }

  predicate Covers(e: Extent, m: MercPoint)
  {
    e.minX <= m.x <= e.maxX && e.minY <= m.y <= e.maxY
  }

  /** The running minimum and maximum of the coordinates, folded from the
      first point on. */
  function MercBounds(ms: seq<MercPoint>): Extent
    requires |ms| > 0
  {
    var m := ms[|ms| - 1];
    if |ms| == 1 then Extent(m.x, m.y, m.x, m.y)
    else
      var b := MercBounds(ms[..|ms| - 1]);
      Extent(Min(b.minX, m.x), Min(b.minY, m.y), Max(b.maxX, m.x), Max(b.maxY, m.y))
  }

  /** Every point lies inside the bounds ... */
  lemma {:induction false} MercBoundsCover(ms: seq<MercPoint>)
    requires |ms| > 0
    ensures forall i :: 0 <= i < |ms| ==> Covers(MercBounds(ms), ms[i])
  {
    if |ms| > 1 {
      MercBoundsCover(ms[..|ms| - 1]);
      assert forall i :: 0 <= i < |ms| - 1 ==> ms[..|ms| - 1][i] == ms[i];
    }
  }

  /** ... and each side of the bounds is some point's coordinate, so no
      smaller box holds them all. */
  lemma {:induction false} MercBoundsAttained(ms: seq<MercPoint>)
    requires |ms| > 0
    ensures var b := MercBounds(ms);
      && (exists i :: 0 <= i < |ms| && ms[i].x == b.minX)
      && (exists i :: 0 <= i < |ms| && ms[i].x == b.maxX)
      && (exists i :: 0 <= i < |ms| && ms[i].y == b.minY)
      && (exists i :: 0 <= i < |ms| && ms[i].y == b.maxY)
  {
    var b := MercBounds(ms);
    var last := |ms| - 1;
    if |ms| == 1 {
      assert ms[0].x == b.minX == b.maxX && ms[0].y == b.minY == b.maxY;
    } else {
      var p := ms[..last];
      var pb := MercBounds(p);
      MercBoundsAttained(p);
      assert forall i :: 0 <= i < |p| ==> p[i] == ms[i];
      var i0 :| 0 <= i0 < |p| && p[i0].x == pb.minX;
      var i1 :| 0 <= i1 < |p| && p[i1].x == pb.maxX;
      var i2 :| 0 <= i2 < |p| && p[i2].y == pb.minY;
      var i3 :| 0 <= i3 < |p| && p[i3].y == pb.maxY;
      assert ms[if pb.minX <= ms[last].x then i0 else last].x == b.minX;
      assert ms[if pb.maxX >= ms[last].x then i1 else last].x == b.maxX;
      assert ms[if pb.minY <= ms[last].y then i2 else last].y == b.minY;
      assert ms[if pb.maxY >= ms[last].y then i3 else last].y == b.maxY;
    }
  }

  lemma PaddedAtLeast(m: real, pad: real)
    requires m >= 0.0 && pad >= 0.0
    ensures m * (1.0 + pad) >= m
  {
    assert m * pad >= 0.0;
  }

  /** The side of the padded square: the longer side of the bounds grown by
      the padding ratio. */
  function PaddedSide(bounds: Extent, paddingRatio: real): real
  {
    Max(bounds.maxX - bounds.minX, bounds.maxY - bounds.minY) * (1.0 + paddingRatio)
  }

  /** The square of side `side` centred on `c`. */
  function SquareAround(c: MercPoint, side: real): (e: Extent)
    ensures (e.minX + e.maxX) / 2.0 == c.x && (e.minY + e.maxY) / 2.0 == c.y
    ensures e.maxX - e.minX == side && e.maxY - e.minY == side
  {
    Extent(c.x - side / 2.0, c.y - side / 2.0, c.x + side / 2.0, c.y + side / 2.0)
  }

  /** The extent `fetchEsriExportForBBox` requests: the padded square of the
      Mercator bounds, centred on the Mercator image of the mean vertex. */
  function BBoxExtent(points: seq<LatLng>, paddingRatio: real, sphere: Sphere): Extent
    requires |points| > 0
  {
    SquareAround(sphere.toMercator(MeanPoint(points)), PaddedSide(MercBounds(Mercators(points, sphere)), paddingRatio))
  }

  /** `fetchEsriExportForBBox` as a function of its inputs and of the HEAD
      requests' outcomes. */
  function BBoxExport(points: seq<LatLng>, size: real, paddingRatio: real, respond: nat -> Attempt, sphere: Sphere): Result<ExportImage, EsriError>
  {
    if |points| < 3 then Err(InvalidPoints(|points|))
    else if !ValidSize(size) then Err(InvalidSize(size))
    else if !ValidPadding(paddingRatio) then Err(InvalidPaddingRatio(paddingRatio))
    else if FirstInvalidPoint(points).Some? then
      Err(InvalidPointCoordinates(FirstInvalidPoint(points).value.lat, FirstInvalidPoint(points).value.lng))
    else
      var extent := BBoxExtent(points, paddingRatio, sphere);
      var side := PaddedSide(MercBounds(Mercators(points, sphere)), paddingRatio);
      var head := HeadCheck(respond);
      if head.Err? then Err(ExportValidationFailed(head.error))
      else
        var c := MeanPoint(points);
        Ok(ExportImage(EsriImage(ExportBBoxId(c.lat, c.lng, size), ExportUrl(extent, size),
                                 side / size, 0.0, 0, 0, 0, size), extent))
  }

  /** The export fails exactly when fewer than three points are given, the
      size or the padding is out of range, a point is out of range (the
      first such is reported), or the HEAD check fails. */
  lemma BBoxExportErrors(points: seq<LatLng>, size: real, paddingRatio: real, respond: nat -> Attempt, sphere: Sphere)
    ensures var r := BBoxExport(points, size, paddingRatio, respond, sphere);
      && (r.Err? <==> || |points| < 3 || !ValidSize(size) || !ValidPadding(paddingRatio)
                      || FirstInvalidPoint(points).Some? || HeadCheck(respond).Err?)
      && (|points| < 3 ==> r == Err(InvalidPoints(|points|)))
      && (|points| >= 3 && !ValidSize(size) ==> r == Err(InvalidSize(size)))
      && (|points| >= 3 && ValidSize(size) && !ValidPadding(paddingRatio) ==> r == Err(InvalidPaddingRatio(paddingRatio)))
      && (|points| >= 3 && ValidSize(size) && ValidPadding(paddingRatio) && FirstInvalidPoint(points).Some?
          ==> r == Err(InvalidPointCoordinates(FirstInvalidPoint(points).value.lat, FirstInvalidPoint(points).value.lng)))
      && (|points| >= 3 && ValidSize(size) && ValidPadding(paddingRatio) && FirstInvalidPoint(points).None? && HeadCheck(respond).Err?
          ==> r == Err(ExportValidationFailed(HeadCheck(respond).error))
              && ErrorStatusCode(r.error) == StatusCode(HeadCheck(respond).error))
  {
  }

  /** The validation loop over the points: the first one out of range. */
  method FindInvalidPoint(points: seq<LatLng>) returns (bad: Option<LatLng>)
    ensures bad == FirstInvalidPoint(points)
  {
    var i := 0;
    while i < |points|
      invariant 0 <= i <= |points|
      invariant forall j :: 0 <= j < i ==> InRange(points[j])
    {
      if !InRange(points[i]) {
        FirstInvalidIs(points, i);
        return Some(points[i]);
      }
      i := i + 1;
    }
    return None;
  }

  /** The averaging loop: the mean latitude and longitude. */
  method AveragePoints(points: seq<LatLng>) returns (cLat: real, cLng: real)
    requires |points| > 0
    ensures LatLng(cLat, cLng) == MeanPoint(points)
  {
    cLat, cLng := 0.0, 0.0;
    var i := 0;
    while i < |points|
      invariant 0 <= i <= |points|
      invariant cLat == SumLat(points[..i]) && cLng == SumLng(points[..i])
    {
      assert points[..i + 1][..i] == points[..i];
      cLat := cLat + points[i].lat;
      cLng := cLng + points[i].lng;
      i := i + 1;
    }
    assert points[..|points|] == points;
    cLat := cLat / |points| as real;
    cLng := cLng / |points| as real;
  }

  /** The bounds loop: the running minimum and maximum of the Mercator
      coordinates, starting from the first point. */
  method MercatorBounds(points: seq<LatLng>, sphere: Sphere) returns (b: Extent)
    requires |points| > 0
    ensures b == MercBounds(Mercators(points, sphere))
  {
    ghost var ms := Mercators(points, sphere);
    var m0 := sphere.toMercator(points[0]);
    var minX, minY, maxX, maxY := m0.x, m0.y, m0.x, m0.y;
    var i := 1;
    while i < |points|
      invariant 1 <= i <= |points|
      invariant Extent(minX, minY, maxX, maxY) == MercBounds(ms[..i])
    {
      var m := sphere.toMercator(points[i]);
      assert ms[..i + 1][..i] == ms[..i];
      if m.x < minX { minX := m.x; }
      if m.y < minY { minY := m.y; }
      if m.x > maxX { maxX := m.x; }
      if m.y > maxY { maxY := m.y; }
      i := i + 1;
    }
    assert ms[..|points|] == ms;
    b := Extent(minX, minY, maxX, maxY);
  }

  /** `fetchEsriExportForBBox`: validates, averages the vertices, bounds
      their Mercator images, and checks the export URL with HEAD requests. */
  method FetchEsriExportForBBox(points: seq<LatLng>, size: real, paddingRatio: real, respond: nat -> Attempt, sphere: Sphere)
    returns (r: Result<ExportImage, EsriError>)
    ensures r == BBoxExport(points, size, paddingRatio, respond, sphere)
  {
    if |points| < 3 {
      return Err(InvalidPoints(|points|));
    }
    if !ValidSize(size) {
      return Err(InvalidSize(size));
    }
    if !ValidPadding(paddingRatio) {
      return Err(InvalidPaddingRatio(paddingRatio));
    }
    var bad := FindInvalidPoint(points);
    if bad.Some? {
      return Err(InvalidPointCoordinates(bad.value.lat, bad.value.lng));
    }
    var cLat, cLng := AveragePoints(points);
    var b := MercatorBounds(points, sphere);
    var w := b.maxX - b.minX;
    var h := b.maxY - b.minY;
    var side := Max(w, h) * (1.0 + paddingRatio);
    var center := sphere.toMercator(LatLng(cLat, cLng));
    var half := side / 2.0;
    var ex := Extent(center.x - half, center.y - half, center.x + half, center.y + half);
    assert ex == BBoxExtent(points, paddingRatio, sphere);
    assert side == PaddedSide(MercBounds(Mercators(points, sphere)), paddingRatio);
    var head, _, _ := FetchWithRetry(respond, HeadRetries, DefaultRetryDelay);
    assert head == HeadCheck(respond);
    if head.Err? {
      return Err(ExportValidationFailed(head.error));
    }
    r := Ok(ExportImage(EsriImage(ExportBBoxId(cLat, cLng, size), ExportUrl(ex, size), side / size, 0.0, 0, 0, 0, size), ex));
  }

  /** `fetchEsriExportForBBox` with its default size of 512 pixels and
      padding of 15%: only the points and the HEAD check can fail it. */
  method FetchEsriExportForBBoxDefault(points: seq<LatLng>, respond: nat -> Attempt, sphere: Sphere)
    returns (r: Result<ExportImage, EsriError>)
    ensures r == BBoxExport(points, DefaultBBoxSize, DefaultPaddingRatio, respond, sphere)
    ensures r.Err? <==> |points| < 3 || FirstInvalidPoint(points).Some? || HeadCheck(respond).Err?
    ensures r.Ok? ==> r.value.image.tileSize == 512.0
  {
    r := FetchEsriExportForBBox(points, DefaultBBoxSize, DefaultPaddingRatio, respond, sphere);
    BBoxExportErrors(points, DefaultBBoxSize, DefaultPaddingRatio, respond, sphere);
  }

  lemma {:induction false} FirstInvalidIs(points: seq<LatLng>, i: nat)
    requires i < |points| && !InRange(points[i])
    requires forall j :: 0 <= j < i ==> InRange(points[j])
    ensures FirstInvalidPoint(points) == Some(points[i])
    decreases i
  {
    if i > 0 {
      FirstInvalidIs(points[1..], i - 1);
    }
  }

  /** The export is a square whose side is the longer side of the Mercator
      bounds grown by the padding ratio, and its pixels are side/size
      metres. */
  lemma BBoxExportIsPaddedSquare(points: seq<LatLng>, size: real, paddingRatio: real, respond: nat -> Attempt, sphere: Sphere)
    requires BBoxExport(points, size, paddingRatio, respond, sphere).Ok?
    ensures var r := BBoxExport(points, size, paddingRatio, respond, sphere).value;
      var b := MercBounds(Mercators(points, sphere));
      var c := sphere.toMercator(MeanPoint(points));
      && r.extent.maxX - r.extent.minX == r.extent.maxY - r.extent.minY
      && r.extent.maxX - r.extent.minX == Max(b.maxX - b.minX, b.maxY - b.minY) * (1.0 + paddingRatio)
      && (r.extent.minX + r.extent.maxX) / 2.0 == c.x && (r.extent.minY + r.extent.maxY) / 2.0 == c.y
      && r.image.resolutionM * size == r.extent.maxX - r.extent.minX
      && r.image.url == ExportUrl(r.extent, size) && r.image.tileSize == size
  {
    var side := PaddedSide(MercBounds(Mercators(points, sphere)), paddingRatio);
    var r := BBoxExport(points, size, paddingRatio, respond, sphere).value;
    assert r.extent == SquareAround(sphere.toMercator(MeanPoint(points)), side);
    assert r.image.resolutionM == side / size;
    QuotientTimesDivisor(side, size);
  }

  lemma QuotientTimesDivisor(a: real, b: real)
    requires b != 0.0
    ensures a / b * b == a
  {
  }

  /** The padded square, had it been centred on the bounds, would hold every
      vertex. */
  function CentredBBoxExtent(points: seq<LatLng>, paddingRatio: real, sphere: Sphere): Extent
    requires |points| > 0
  {
    var b := MercBounds(Mercators(points, sphere));
    SquareAround(MercPoint((b.minX + b.maxX) / 2.0, (b.minY + b.maxY) / 2.0), PaddedSide(b, paddingRatio))
  }

  /** With a non-negative padding every vertex lies in the bounds-centred
      square. */
  lemma CentredBBoxExtentCoversPoints(points: seq<LatLng>, paddingRatio: real, sphere: Sphere)
    requires |points| > 0 && paddingRatio >= 0.0
    ensures forall i :: 0 <= i < |points| ==> Covers(CentredBBoxExtent(points, paddingRatio, sphere), sphere.toMercator(points[i]))
  {
    var ms := Mercators(points, sphere);
    var b := MercBounds(ms);
    var w, h := b.maxX - b.minX, b.maxY - b.minY;
    MercBoundsCover(ms);
    assert Covers(b, ms[0]);
    PaddedAtLeast(Max(w, h), paddingRatio);
    assert PaddedSide(b, paddingRatio) >= w && PaddedSide(b, paddingRatio) >= h;
  }

  /** A stand-in for the Mercator map that is linear in both coordinates;
      it meets the assumed inverse law. */
  function LinearSphere(): (s: Sphere)
    ensures s.Valid()
  {
    Sphere((p: LatLng) => MercPoint(p.lng, p.lat), (m: MercPoint) => LatLng(m.y, m.x), (lat: real) => 0.0, (lat: real) => 1.0)
  }

  /** Centred instead on the mean vertex, the square can miss a vertex: for
      the triangle (0, 0), (1, 0), (0, 10) in degrees with a Mercator map
      that is linear in the longitude, the mean longitude is 10/3, the side
      11.5, and the vertex at longitude 10 lies east of the square. */
  lemma BBoxExtentCanMissPoint()
    ensures var sphere := LinearSphere();
      var points := [LatLng(0.0, 0.0), LatLng(1.0, 0.0), LatLng(0.0, 10.0)];
      && sphere.Valid()
      && BBoxExport(points, DefaultBBoxSize, DefaultPaddingRatio, _ => Responded(200, Some("image/png")), sphere).Ok?
      && !Covers(BBoxExtent(points, DefaultPaddingRatio, sphere), sphere.toMercator(points[2]))
  {
    var sphere := LinearSphere();
    var points := [LatLng(0.0, 0.0), LatLng(1.0, 0.0), LatLng(0.0, 10.0)];
    var ms := Mercators(points, sphere);
    assert ms == [MercPoint(0.0, 0.0), MercPoint(0.0, 1.0), MercPoint(10.0, 0.0)];
    assert ms[..1] == [MercPoint(0.0, 0.0)];
    assert ms[..2] == [MercPoint(0.0, 0.0), MercPoint(0.0, 1.0)];
    assert MercBounds(ms[..1]) == Extent(0.0, 0.0, 0.0, 0.0);
    assert MercBounds(ms[..2]) == Extent(0.0, 0.0, 0.0, 1.0);
    assert MercBounds(ms) == Extent(0.0, 0.0, 10.0, 1.0);
    assert points[..2][..1] == points[..1] && points[..1][..0] == [];
    assert points[..|points| - 1] == points[..2];
    var p1 := [LatLng(0.0, 0.0)];
    assert points[..1] == p1 && p1[..0] == [];
    assert SumLng(p1) == 0.0 && SumLat(p1) == 0.0;
    assert SumLng(points[..2]) == 0.0 && SumLat(points[..2]) == 1.0;
    assert SumLng(points) == 10.0;
    assert SumLat(points) == 1.0;
    var respond: nat -> Attempt := _ => Responded(200, Some("image/png"));
    assert StartsWith("image/png", "image/");
    assert Classify(respond(0)) == Ok(200);
    assert HeadCheck(respond) == Ok(200);
  }
}
