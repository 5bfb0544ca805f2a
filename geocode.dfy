/** Address geocoding: the address is validated, then the external service
    (when configured), Google (when a key is set) and Nominatim are asked in
    turn; the first coordinate a provider's rules accept is returned, and
    every failure leaves a `provider: error` entry for the final message. */
module Geocode {
  import opened Wrappers
  import opened Coords
  import opened JsStrings

  /** `GeocodingError`: a message and an optional provider tag. */
  datatype GeocodingError = GeocodingError(message: string, provider: Option<string>)

  const MinAddressLength: nat := 3
  const MaxAddressLength: nat := 500
  const TooShortMessage: string := "Address must be at least 3 characters long"
  const TooLongMessage: string := "Address is too long (maximum 500 characters)"

  /** `validateAddress`: the error it throws, if any. */
  function ValidateAddress(address: string): Option<GeocodingError>
  {
    LengthVerdict(|Trim(address)|)
  }

  /** The verdict on a trimmed length. */
  function LengthVerdict(n: nat): Option<GeocodingError>
  {
    if n < MinAddressLength then Some(GeocodingError(TooShortMessage, None))
    else if n > MaxAddressLength then Some(GeocodingError(TooLongMessage, None))
    else None
  }

  /** An address passes exactly when its trimmed length is within
      3..500; a shorter one gets the first message and a longer one the
      second, neither with a provider tag. */
  lemma ValidationRule(address: string)
    ensures ValidateAddress(address).None? <==> MinAddressLength <= |Trim(address)| <= MaxAddressLength
    ensures ValidateAddress(address) == Some(GeocodingError(TooShortMessage, None)) <==> |Trim(address)| < MinAddressLength
    ensures ValidateAddress(address) == Some(GeocodingError(TooLongMessage, None)) <==> |Trim(address)| > MaxAddressLength
  {
  }

  /** Surrounding whitespace does not count towards the length. */
  lemma PaddingIsIgnored(a: string, w: string, b: string)
    requires AllWhitespace(a) && AllWhitespace(b)
    requires w == [] || (!IsWhitespace(w[0]) && !IsWhitespace(w[|w| - 1]))
    ensures ValidateAddress(a + w + b) == ValidateAddress(w)
  {
    assert Trim(a + w + b) == Trim(w) by {
      TrimOfPadded(a, w, b);
      TrimOfPadded([], w, []);
      assert [] + w + [] == w;
    }
  }

  // ---------------------------------------------------------------------------
  // Provider replies

  /** One provider request through `fetchWithTimeout`: aborted after 5 s,
      thrown (network or body-parsing failure) with its message, answered
      with a non-ok status, or answered ok with a parsed body. */
  datatype Reply<B> = TimedOut | Threw(message: string) | NotOk(status: int) | Answered(body: B)

  /** The external service's body: the coordinate when both `lat` and
      `lng` are present and `Number` gives a number for each. */
  datatype ExternalBody = ExternalBody(coord: Option<LatLng>)

  /** A Google result: its location when both parts are of type number. */
  datatype GoogleResult = GoogleResult(location: Option<LatLng>)

  /** Google's body: its `status` (empty when missing) and its `results`. */
  datatype GoogleBody = GoogleBody(status: string, results: seq<GoogleResult>)

  /** A Nominatim hit: whether `lat` and `lon` are both truthy, and the
      coordinate when `Number` gives a number for each. */
  datatype NominatimHit = NominatimHit(hasLatLon: bool, coord: Option<LatLng>)

  /** Nominatim's body: its hits when it is an array. */
  datatype NominatimBody = NominatimBody(hits: Option<seq<NominatimHit>>)

  /** One entry of the `errors` list. */
  datatype Diagnostic = Diagnostic(provider: string, error: string)

  /** What one provider attempt does: return a coordinate, record an
      error entry, or fall through silently. */
  datatype Step = Accept(at: LatLng) | Record(entry: Diagnostic) | Silent

  const TimeoutMessage: string := "Geocoding request timed out"
  const RequestFailedMessage: string := "Request failed"
  const NoResultsMessage: string := "No results found"

  /** `e?.message || 'Request failed'` for a thrown request. */
  function ThrownMessage<B>(r: Reply<B>): (m: string)
    requires r.TimedOut? || r.Threw?
    ensures m != []
    ensures r.Threw? && r.message != [] ==> m == r.message
    ensures r.Threw? && r.message == [] ==> m == RequestFailedMessage
    ensures r.TimedOut? ==> m == TimeoutMessage
  {
    if r.TimedOut? then TimeoutMessage
    else if r.message == [] then RequestFailedMessage
    else r.message
  }

  function HttpMessage(status: int): string
  {
    "HTTP " + IntToString(status)
  }

  /** The common part of every provider: a thrown request or a non-ok
      status is recorded under the provider's name. */
  function FailureStep<B>(provider: string, r: Reply<B>): (s: Step)
    requires !r.Answered?
    ensures s.Record? && s.entry.provider == provider
    ensures r.NotOk? ==> s.entry.error == HttpMessage(r.status)
    ensures !r.NotOk? ==> s.entry.error == ThrownMessage(r)
  {
    if r.NotOk? then Record(Diagnostic(provider, HttpMessage(r.status)))
    else Record(Diagnostic(provider, ThrownMessage(r)))
  }

  /** The external service's attempt. */
  function ExternalStep(r: Reply<ExternalBody>): Step
  {
    if !r.Answered? then FailureStep("external", r)
    else if r.body.coord.Some? && InRange(r.body.coord.value) then Accept(r.body.coord.value)
    else Silent
  }

  /** The external service: an ok body is accepted only with an in-range
      coordinate and otherwise records nothing; a failed request is
      recorded under `external`. */
  lemma ExternalRule(r: Reply<ExternalBody>)
    ensures var s := ExternalStep(r);
      && (s.Accept? <==> r.Answered? && r.body.coord.Some? && InRange(r.body.coord.value))
      && (s.Accept? ==> s.at == r.body.coord.value)
      && (s.Silent? <==> r.Answered? && !s.Accept?)
      && (s.Record? ==> s.entry.provider == "external")
  {
  }

  /** Google's attempt. */
  function GoogleStep(r: Reply<GoogleBody>): Step
  {
    if !r.Answered? then FailureStep("google", r)
    else
      var b := r.body;
      if b.status == "OK" && |b.results| > 0 then
        if b.results[0].location.Some? then Accept(b.results[0].location.value) else Silent
      else if b.status == "ZERO_RESULTS" then Record(Diagnostic("google", NoResultsMessage))
      else if b.status == "REQUEST_DENIED" then Record(Diagnostic("google", "API key invalid or denied"))
      else if b.status == "OVER_QUERY_LIMIT" then Record(Diagnostic("google", "Query limit exceeded"))
      else Record(Diagnostic("google", if b.status == [] then "Unknown error" else b.status))
  }

  /** Google: status `OK` with results gives the first result's location
      with no range check; the three known failure statuses get fixed
      messages and any other status is recorded as it is. */
  lemma GoogleRule(r: Reply<GoogleBody>)
    ensures var s := GoogleStep(r);
      && (s.Accept? <==> r.Answered? && r.body.status == "OK" && |r.body.results| > 0 && r.body.results[0].location.Some?)
      && (s.Accept? ==> s.at == r.body.results[0].location.value)
      && (s.Silent? <==> r.Answered? && r.body.status == "OK" && |r.body.results| > 0 && r.body.results[0].location.None?)
      && (s.Record? ==> s.entry.provider == "google")
      && (r.Answered? && !(r.body.status == "OK" && |r.body.results| > 0) ==>
            s.entry.error == match r.body.status
                             case "ZERO_RESULTS" => NoResultsMessage
                             case "REQUEST_DENIED" => "API key invalid or denied"
                             case "OVER_QUERY_LIMIT" => "Query limit exceeded"
                             case "" => "Unknown error"
                             case other => other)
  {
  }

  /** Nominatim's attempt. */
  function NominatimStep(r: Reply<NominatimBody>): Step
  {
    if !r.Answered? then FailureStep("osm", r)
    else
      var hits := r.body.hits;
      if hits.Some? && |hits.value| > 0 && hits.value[0].hasLatLon then
        var c := hits.value[0].coord;
        if c.Some? && InRange(c.value) then Accept(c.value) else Silent
      else Record(Diagnostic("osm", NoResultsMessage))
  }

  /** Nominatim: a first hit with both fields gives its coordinate when in
      range (and nothing otherwise); an ok body without such a hit is
      recorded as `No results found`. */
  lemma NominatimRule(r: Reply<NominatimBody>)
    ensures var s := NominatimStep(r);
      && (s.Accept? <==> && r.Answered? && r.body.hits.Some? && |r.body.hits.value| > 0
                         && r.body.hits.value[0].hasLatLon && r.body.hits.value[0].coord.Some?
                         && InRange(r.body.hits.value[0].coord.value))
      && (s.Accept? ==> s.at == r.body.hits.value[0].coord.value)
      && (s.Record? ==> s.entry.provider == "osm")
      && (r.Answered? && s.Record? ==> s.entry.error == NoResultsMessage)
      && (r.Answered? && !(r.body.hits.Some? && |r.body.hits.value| > 0 && r.body.hits.value[0].hasLatLon)
          ==> s == Record(Diagnostic("osm", NoResultsMessage)))
      && (s.Silent? <==> && r.Answered? && r.body.hits.Some? && |r.body.hits.value| > 0
                         && r.body.hits.value[0].hasLatLon
                         && !(r.body.hits.value[0].coord.Some? && InRange(r.body.hits.value[0].coord.value)))
  {
  }

  // ---------------------------------------------------------------------------
  // The ladder

  /** The environment: whether the external URL is configured, whether a
      Google key is set (either variable) and whether `NODE_ENV` is `test`. */
  datatype Config = Config(externalConfigured: bool, googleKeySet: bool, testMode: bool)

  /** The attempts made before Google: the external one, when the service
      is configured. */
  function ExternalAttempts(config: Config, external: Reply<ExternalBody>): seq<Step>
  {
    if config.externalConfigured then [ExternalStep(external)] else []
  }

  /** The attempts made before Nominatim: Google's follows, when a key is
      set. */
  function EarlierAttempts(config: Config, external: Reply<ExternalBody>, google: Reply<GoogleBody>): seq<Step>
  {
    var done := ExternalAttempts(config, external);
    if config.googleKeySet then done + [GoogleStep(google)] else done
  }

  /** The attempts made, in order; Nominatim is always tried last. */
  function Attempts(config: Config, external: Reply<ExternalBody>, google: Reply<GoogleBody>, nominatim: Reply<NominatimBody>): (steps: seq<Step>)
    ensures |steps| == 1 + (if config.externalConfigured then 1 else 0) + (if config.googleKeySet then 1 else 0)
    ensures steps[|steps| - 1] == NominatimStep(nominatim)
  {
    EarlierAttempts(config, external, google) + [NominatimStep(nominatim)]
  }

  /** The entries recorded by `steps`, in order. */
  function Recorded(steps: seq<Step>): (ds: seq<Diagnostic>)
    ensures |ds| <= |steps|
  {
    if steps == [] then []
    else (if steps[0].Record? then [steps[0].entry] else []) + Recorded(steps[1..])
  }

  predicate NoAccept(steps: seq<Step>)
  {
    forall i :: 0 <= i < |steps| ==> !steps[i].Accept?
  }

  /** Running the attempts in order: the first accepted coordinate, or
      every recorded entry when none is accepted. */
  function Ladder(steps: seq<Step>): Result<LatLng, seq<Diagnostic>>
  {
    if steps == [] then Err([])
    else match steps[0]
      case Accept(at) => Ok(at)
      case Record(d) =>
        var rest := Ladder(steps[1..]);
        if rest.Ok? then rest else Err([d] + rest.error)
      case Silent => Ladder(steps[1..])
  }

  /** The ladder's first accepted coordinate is the one returned. */
  lemma {:induction false} FirstAcceptedWins(steps: seq<Step>, i: nat)
    requires i < |steps| && steps[i].Accept? && NoAccept(steps[..i])
    ensures Ladder(steps) == Ok(steps[i].at)
  {
    if i > 0 {
      assert steps[..i][0] == steps[0];
      assert steps[1..][..i - 1] == steps[..i][1..];
      FirstAcceptedWins(steps[1..], i - 1);
    }
  }

  /** With no coordinate accepted, the ladder fails with every entry
      recorded, in attempt order. */
  lemma {:induction false} NothingAcceptedFails(steps: seq<Step>)
    requires NoAccept(steps)
    ensures Ladder(steps) == Err(Recorded(steps))
  {
    if steps != [] {
      assert !steps[0].Accept?;
      assert NoAccept(steps[1..]) by {
        assert forall k :: 0 <= k < |steps| - 1 ==> steps[1..][k] == steps[k + 1];
      }
      NothingAcceptedFails(steps[1..]);
      if steps[0].Silent? {
        assert Recorded(steps) == [] + Recorded(steps[1..]) == Recorded(steps[1..]);
        assert Ladder(steps) == Ladder(steps[1..]);
      }
    }
  }

  /** The ladder fails exactly when no attempt is accepted. */
  lemma LadderFailsIffNoneAccepted(steps: seq<Step>)
    ensures Ladder(steps).Err? <==> NoAccept(steps)
  {
    if NoAccept(steps) {
      NothingAcceptedFails(steps);
    } else {
      var i := FirstAccepted(steps);
      FirstAcceptedWins(steps, i);
    }
  }

  lemma {:induction false} FirstAccepted(steps: seq<Step>) returns (i: nat)
    requires !NoAccept(steps)
    ensures i < |steps| && steps[i].Accept? && NoAccept(steps[..i])
  {
    if steps[0].Accept? {
      i := 0;
    } else {
      assert !NoAccept(steps[1..]) by {
        var k :| 0 <= k < |steps| && steps[k].Accept?;
        assert steps[1..][k - 1] == steps[k];
      }
      var j := FirstAccepted(steps[1..]);
      i := j + 1;
      assert steps[..i] == [steps[0]] + steps[1..][..j];
    }
  }

  /** `errors.map(e => `${e.provider}: ${e.error}`).join('; ')`. */
  function Entry(d: Diagnostic): string
  {
    d.provider + ": " + d.error
  }

  function JoinEntries(ds: seq<Diagnostic>): string
  {
    Join(seq(|ds|, i requires 0 <= i < |ds| => Entry(ds[i])), "; ")
  }

  /** The message thrown when every provider failed. */
  function AllFailedMessage(address: string, ds: seq<Diagnostic>): (m: string)
    ensures StartsWith(m, "Failed to geocode address \"" + address + "\". All providers failed: ")
  {
    "Failed to geocode address \"" + address + "\". All providers failed: " + JoinEntries(ds)
  }

  const TestModeLocation: LatLng := LatLng(39.8283, -98.5795)

  /** The end of the ladder: its coordinate; when every provider failed,
      the fixed test-mode location or the `all_failed` error carrying the
      joined entries. */
  function Conclude(address: string, testMode: bool, l: Result<LatLng, seq<Diagnostic>>): (r: Result<LatLng, GeocodingError>)
    ensures l.Ok? ==> r == Ok(l.value)
    ensures l.Err? && testMode ==> r == Ok(TestModeLocation)
    ensures l.Err? && !testMode ==>
      r.Err? && r.error.provider == Some("all_failed") && r.error.message == AllFailedMessage(address, l.error)
  {
    if l.Ok? then Ok(l.value)
    else if testMode then Ok(TestModeLocation)
    else Err(GeocodingError(AllFailedMessage(address, l.error), Some("all_failed")))
  }

  /** `geocodeAddress` as the source runs it: validation, then each
      configured provider in turn, then the test-mode fallback or the
      `all_failed` error. */
  method GeocodeAddress(address: string, config: Config, external: Reply<ExternalBody>, google: Reply<GoogleBody>, nominatim: Reply<NominatimBody>)
    returns (r: Result<LatLng, GeocodingError>)
    ensures ValidateAddress(address).Some? ==> r == Err(ValidateAddress(address).value)
    ensures ValidateAddress(address).None? ==> r == Conclude(address, config.testMode, Ladder(Attempts(config, external, google, nominatim)))
  {
    var invalid := ValidateAddress(address);
    if invalid.Some? {
      return Err(invalid.value);
    }
    var outcome := RunProviders(config, external, google, nominatim);
    if outcome.Ok? {
      return Ok(outcome.value);
    }
    if config.testMode {
      return Ok(TestModeLocation);
    }
    return Err(GeocodingError(AllFailedMessage(address, outcome.error), Some("all_failed")));
  }

  /** The provider attempts of `geocodeAddress`: each configured provider
      in turn, returning the first accepted coordinate and otherwise
      pushing the provider's entry onto `errors`. */
  method RunProviders(config: Config, external: Reply<ExternalBody>, google: Reply<GoogleBody>, nominatim: Reply<NominatimBody>)
    returns (outcome: Result<LatLng, seq<Diagnostic>>)
    ensures outcome == Ladder(Attempts(config, external, google, nominatim))
  {
    var errors: seq<Diagnostic> := [];
    if config.externalConfigured {
      var s := ExternalStep(external);
      if s.Accept? {
        ghost var earlier := EarlierAttempts(config, external, google);
        assert Ladder(earlier) == Ok(s.at) by {
          assert Ladder([s]) == Ok(s.at);
          if config.googleKeySet {
            LadderKeepsAccepted([s], [GoogleStep(google)]);
          }
        }
        LadderKeepsAccepted(earlier, [NominatimStep(nominatim)]);
        return Ok(s.at);
      }
      if s.Record? {
        errors := errors + [s.entry];
      }
      RecordedSnoc([], s);
      assert [] + [s] == [s];
    }
    ghost var done := ExternalAttempts(config, external);
    assert NoAccept(done) && errors == Recorded(done);
    if config.googleKeySet {
      var s := GoogleStep(google);
      if s.Accept? {
        AcceptedLast(done, s);
        LadderKeepsAccepted(done + [s], [NominatimStep(nominatim)]);
        return Ok(s.at);
      }
      if s.Record? {
        errors := errors + [s.entry];
      }
      RecordedSnoc(done, s);
      done := done + [s];
    }
    assert done == EarlierAttempts(config, external, google);
    var s := NominatimStep(nominatim);
    if s.Accept? {
      AcceptedLast(done, s);
      return Ok(s.at);
    }
    if s.Record? {
      errors := errors + [s.entry];
    }
    RecordedSnoc(done, s);
    NothingAcceptedFails(done + [s]);
    return Err(errors);
  }

  /** An attempt accepted after attempts that were not decides the ladder. */
  lemma AcceptedLast(done: seq<Step>, s: Step)
    requires NoAccept(done) && s.Accept?
    ensures Ladder(done + [s]) == Ok(s.at)
  {
    var steps := done + [s];
    assert steps[..|done|] == done && steps[|done|] == s;
    FirstAcceptedWins(steps, |done|);
  }

  /** Later attempts do not matter once one is accepted. */
  lemma {:induction false} LadderKeepsAccepted(a: seq<Step>, b: seq<Step>)
    requires Ladder(a).Ok?
    ensures Ladder(a + b) == Ladder(a)
  {
    assert (a + b)[0] == a[0];
    if !a[0].Accept? {
      assert (a + b)[1..] == a[1..] + b;
      LadderKeepsAccepted(a[1..], b);
    }
  }

  /** Appending an attempt that is not accepted keeps the ladder failing
      and records its entry, if any. */
  lemma RecordedSnoc(done: seq<Step>, s: Step)
    requires NoAccept(done) && !s.Accept?
    ensures NoAccept(done + [s])
    ensures s.Record? ==> Recorded(done + [s]) == Recorded(done) + [s.entry]
    ensures !s.Record? ==> Recorded(done + [s]) == Recorded(done)
  {
    RecordedAppend(done, [s]);
    assert [s][1..] == [];
    assert Recorded([s]) == if s.Record? then [s.entry] else [];
    assert Recorded(done) + [] == Recorded(done);
  }

  lemma {:induction false} RecordedAppend(a: seq<Step>, b: seq<Step>)
    ensures Recorded(a + b) == Recorded(a) + Recorded(b)
    ensures NoAccept(a) && NoAccept(b) ==> NoAccept(a + b)
    decreases |a|
  {
    if a != [] {
      assert (a + b)[1..] == a[1..] + b;
      RecordedAppend(a[1..], b);
    } else {
      assert a + b == b;
    }
  }

  /** Google accepts a coordinate the other providers would reject as out
      of range. */
  lemma OnlyGoogleSkipsRangeCheck()
    ensures var far := LatLng(95.0, 200.0);
      && GoogleStep(Answered(GoogleBody("OK", [GoogleResult(Some(far))]))) == Accept(far)
      && ExternalStep(Answered(ExternalBody(Some(far)))) == Silent
      && NominatimStep(Answered(NominatimBody(Some([NominatimHit(true, Some(far))])))) == Silent
  {
  }

  /** Status `OK` with no results falls to the catch-all branch and
      records `OK` itself. */
  lemma OkWithoutResultsRecordsStatus()
    ensures GoogleStep(Answered(GoogleBody("OK", []))) == Record(Diagnostic("google", "OK"))
  {
  }

  /** The entries of a total failure appear in attempt order. */
  lemma AllFailedEntriesInOrder()
    ensures Ladder(Attempts(Config(true, true, false), NotOk(503), Threw(""), TimedOut))
         == Err([Diagnostic("external", "HTTP 503"), Diagnostic("google", RequestFailedMessage), Diagnostic("osm", TimeoutMessage)])
  {
    assert IntToString(503) == "503" by {
      assert NatToString(503) == NatToString(50) + [DigitChar(3)];
      assert NatToString(50) == NatToString(5) + [DigitChar(0)];
    }
    var e, g, n := ExternalStep(NotOk(503)), GoogleStep(Threw("")), NominatimStep(TimedOut);
    assert e == Record(Diagnostic("external", "HTTP 503"));
    assert g == Record(Diagnostic("google", RequestFailedMessage));
    assert n == Record(Diagnostic("osm", TimeoutMessage));
    var steps := Attempts(Config(true, true, false), NotOk(503), Threw(""), TimedOut);
    assert steps == [e, g, n];
    NothingAcceptedFails(steps);
    assert Recorded([n]) == [n.entry];
    assert Recorded([g, n]) == [g.entry] + Recorded([n]) by { assert [g, n][1..] == [n]; }
    assert Recorded(steps) == [e.entry] + Recorded([g, n]) by { assert steps[1..] == [g, n]; }
    assert [e.entry] + ([g.entry] + [n.entry]) == [e.entry, g.entry, n.entry];
  }

  /** The entries are joined by `; `, each as `provider: error`. */
  lemma JoinedEntriesText()
    ensures JoinEntries([Diagnostic("external", "HTTP 503"), Diagnostic("google", RequestFailedMessage), Diagnostic("osm", TimeoutMessage)])
         == "external: HTTP 503" + "; " + "google: Request failed" + "; " + "osm: " + TimeoutMessage
  {
    var ds := [Diagnostic("external", "HTTP 503"), Diagnostic("google", RequestFailedMessage), Diagnostic("osm", TimeoutMessage)];
    var es := seq(|ds|, i requires 0 <= i < |ds| => Entry(ds[i]));
    assert es == [Entry(ds[0]), Entry(ds[1]), Entry(ds[2])];
    assert es[..2][..1] == [Entry(ds[0])];
    assert Join(es[..2], "; ") == Entry(ds[0]) + "; " + Entry(ds[1]);
    assert Join(es, "; ") == Entry(ds[0]) + "; " + Entry(ds[1]) + "; " + Entry(ds[2]);
    assert Entry(ds[0]) == "external: HTTP 503";
    assert Entry(ds[1]) == "google: Request failed";
    assert Entry(ds[2]) == "osm: " + TimeoutMessage;
  }
}
