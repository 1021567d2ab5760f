/**
 * The serverless checker's probe and fan-out: build one request per platform,
 * classify what comes back, collect one result per table entry in table order,
 * then derive the suggestions.
 */
module ApiChecker {
  import opened Wrappers
  import opened Text
  import opened Handles
  import opened ApiPlatforms
  import ApiSuggestions

  const DefaultHeaders: map<string, string> :=
    map["User-Agent" := "HandleScout/1.0", "Accept-Language" := "en-US,en;q=0.9"]

  /** `{**DEFAULT_HEADERS, **platform.get("headers", {})}`: platform values win key by key. */
  function RequestHeaders(p: PlatformSpec): (h: map<string, string>)
    ensures h.Keys == DefaultHeaders.Keys + p.headers.Keys
    ensures forall k :: k in p.headers ==> h[k] == p.headers[k]
    ensures forall k :: k in DefaultHeaders && k !in p.headers ==> h[k] == DefaultHeaders[k]
  {
    DefaultHeaders + p.headers
  }

  /** The link shown to the user. */
  function ProfileUrl(p: PlatformSpec, username: string): string {
    Format(p.profileUrlTemplate, username)
  }

  /** The URL actually requested: the check template when there is one, else the profile template. */
  function CheckUrl(p: PlatformSpec, username: string): string {
    Format(p.checkUrlTemplate.GetOr(p.profileUrlTemplate), username)
  }

  function BuildRequest(p: PlatformSpec, username: string): Request {
    Request(p.checkMethod.GetOr("GET"), CheckUrl(p, username), RequestHeaders(p))
  }

  /** The result of a platform marked `skip_check`. */
  function SkipResult(p: PlatformSpec): ProbeResult {
    ProbeResult(p.name, None, Unknown, None, p.reason.GetOr("Not checkable"))
  }

  /** Some marker of the list occurs in the (lower-cased) body. */
  predicate AnyMarker(markers: seq<string>, text: string) {
    exists i :: 0 <= i < |markers| && Contains(text, markers[i])
  }

  /** Taken markers as searched: `{username}` substituted, then lower-cased. */
  function TakenMarkerTexts(markers: seq<string>, username: string): seq<string> {
    seq(|markers|, i requires 0 <= i < |markers| => Lower(Format(markers[i], username)))
  }

  /** A result for a response that arrived. */
  function Answered(p: PlatformSpec, username: string, code: int, status: Status, reason: string): ProbeResult {
    ProbeResult(p.name, Some(ProfileUrl(p, username)), status, Some(code), reason)
  }

  /** The verdict cascade of `_check_platform` once the request was made. */
  function Classify(p: PlatformSpec, username: string, outcome: Outcome): (r: ProbeResult)
    ensures r.platform == p.name
  {
    match outcome
    case Failed(e) =>
      ProbeResult(p.name, Some(CheckUrl(p, username)), Error, None, e)
    case Response(code, body) =>
      var text := Lower(body);
      if code in p.availableStatuses then
        Answered(p, username, code, Available, "Profile returns " + IntToString(code) + " => likely available")
      else if code in p.takenStatuses then
        if AnyMarker(p.unknownMarkers, text) then
          Answered(p, username, code, Unknown, "Page requires verification or is blocked")
        else if AnyMarker(p.availableMarkers, text) then
          Answered(p, username, code, Available, "Page indicates account does not exist")
        else if AnyMarker(TakenMarkerTexts(p.takenMarkers, username), text) then
          Answered(p, username, code, Taken, "Page includes username marker")
        else if p.ambiguousOn200 then
          Answered(p, username, code, Unknown, "200 but no definitive marker found")
        else
          Answered(p, username, code, Taken, "Profile returns " + IntToString(code) + " => likely taken")
      else if code in p.unknownStatuses then
        Answered(p, username, code, Unknown, "Status " + IntToString(code) + " => blocked or rate-limited")
      else
        Answered(p, username, code, Unknown, "Unexpected " + IntToString(code))
  }

  /** `_check_platform` with the HTTP client replaced by `respond`. */
  function Probe(p: PlatformSpec, username: string, respond: Request -> Outcome): (r: ProbeResult)
    ensures r.platform == p.name
  {
    if p.skipCheck then SkipResult(p) else Classify(p, username, respond(BuildRequest(p, username)))
  }

  /** `for marker in markers: if marker in text_lower: return ...`. */
  method FindMarker(markers: seq<string>, text: string) returns (found: bool)
    ensures found == AnyMarker(markers, text)
  {
    for i := 0 to |markers|
      invariant forall k :: 0 <= k < i ==> !Contains(text, markers[k])
    {
      if Contains(text, markers[i]) {
        return true;
      }
    }
    return false;
  }

  /** The taken-marker loop: each marker is formatted with the username and lower-cased before the search. */
  method FindTakenMarker(markers: seq<string>, username: string, text: string) returns (found: bool)
    ensures found == AnyMarker(TakenMarkerTexts(markers, username), text)
  {
    ghost var texts := TakenMarkerTexts(markers, username);
    for i := 0 to |markers|
      invariant forall k :: 0 <= k < i ==> !Contains(text, texts[k])
    {
      if Contains(text, Lower(Format(markers[i], username))) {
        assert texts[i] == Lower(Format(markers[i], username));
        return true;
      }
    }
    return false;
  }

  /** `_check_platform`: skip check, request, then the status and marker cascade. */
  method CheckPlatform(p: PlatformSpec, username: string, respond: Request -> Outcome) returns (r: ProbeResult)
    ensures r == Probe(p, username, respond)
  {
    if p.skipCheck {
      return ProbeResult(p.name, None, Unknown, None, p.reason.GetOr("Not checkable"));
    }
    var profileUrl := Format(p.profileUrlTemplate, username);
    var url := Format(p.checkUrlTemplate.GetOr(p.profileUrlTemplate), username);
    var verb := p.checkMethod.GetOr("GET");
    var headers := DefaultHeaders + p.headers;
    var outcome := respond(Request(verb, url, headers));
    if outcome.Failed? {
      return ProbeResult(p.name, Some(url), Error, None, outcome.exceptionName);
    }
    var code := outcome.statusCode;
    var textLower := Lower(outcome.text);
    if code in p.availableStatuses {
      return ProbeResult(p.name, Some(profileUrl), Available, Some(code),
                         "Profile returns " + IntToString(code) + " => likely available");
    }
    if code in p.takenStatuses {
      var hit := FindMarker(p.unknownMarkers, textLower);
      if hit {
        return ProbeResult(p.name, Some(profileUrl), Unknown, Some(code), "Page requires verification or is blocked");
      }
      hit := FindMarker(p.availableMarkers, textLower);
      if hit {
        return ProbeResult(p.name, Some(profileUrl), Available, Some(code), "Page indicates account does not exist");
      }
      hit := FindTakenMarker(p.takenMarkers, username, textLower);
      if hit {
        return ProbeResult(p.name, Some(profileUrl), Taken, Some(code), "Page includes username marker");
      }
      if p.ambiguousOn200 {
        return ProbeResult(p.name, Some(profileUrl), Unknown, Some(code), "200 but no definitive marker found");
      }
      return ProbeResult(p.name, Some(profileUrl), Taken, Some(code),
                         "Profile returns " + IntToString(code) + " => likely taken");
    }
    if code in p.unknownStatuses {
      return ProbeResult(p.name, Some(profileUrl), Unknown, Some(code),
                         "Status " + IntToString(code) + " => blocked or rate-limited");
    }
    return ProbeResult(p.name, Some(profileUrl), Unknown, Some(code), "Unexpected " + IntToString(code));
  }

  datatype CheckBatch = CheckBatch(results: seq<ProbeResult>, suggestions: seq<string>)

  predicate AllAvailable(results: seq<ProbeResult>) {
    forall i :: 0 <= i < |results| ==> results[i].status == Available
  }

  /** The `asyncio.gather` of one probe per platform, results in platform order. */
  method Gather(platforms: seq<PlatformSpec>, username: string, respond: Request -> Outcome) returns (results: seq<ProbeResult>)
    ensures |results| == |platforms|
    ensures forall i :: 0 <= i < |platforms| ==> results[i] == Probe(platforms[i], username, respond)
  {
    results := [];
    for i := 0 to |platforms|
      invariant |results| == i
      invariant forall k :: 0 <= k < i ==> results[k] == Probe(platforms[k], username, respond)
    {
      var r := CheckPlatform(platforms[i], username, respond);
      results := results + [r];
    }
  }

  /**
   * `check_username`: one probe per table entry, gathered in table order, then
   * the suggestions. For a valid username there are no suggestions exactly when
   * every platform is available or the username is already 30 characters long.
   */
  method CheckUsername(username: string, respond: Request -> Outcome) returns (batch: CheckBatch)
    ensures |batch.results| == |Registry|
    ensures forall i :: 0 <= i < |Registry| ==> batch.results[i] == Probe(Registry[i], username, respond)
    ensures batch.suggestions == ApiSuggestions.Suggestions(username, batch.results)
    ensures ValidHandle(username) ==>
              (batch.suggestions == [] <==> AllAvailable(batch.results) || |username| == MaxLength)
  {
    var results := Gather(Registry, username, respond);
    var suggestions := ApiSuggestions.GenerateSuggestions(username, results);
    batch := CheckBatch(results, suggestions);
    RegistryResultsNeedSuggestions(username, respond, results);
    if ValidHandle(username) {
      ApiSuggestions.SuggestionsEmptyIff(username, results);
    }
  }

  // ---------------------------------------------------------------------------
  // Properties of the classifier

  /** A skipped platform is answered without a request: the result is the same whatever the network would say. */
  lemma SkipMakesNoRequest(p: PlatformSpec, username: string, respond: Request -> Outcome, respond': Request -> Outcome)
    requires p.skipCheck
    ensures Probe(p, username, respond) == Probe(p, username, respond')
    ensures var r := Probe(p, username, respond);
      && r.platform == p.name && r.status == Unknown && r.url == None && r.httpStatus == None
      && r.reason == (if p.reason.Some? then p.reason.value else "Not checkable")
  {
  }

  /** Once a response arrives: the platform name, the observed code, the profile link, and never "error". */
  lemma ResponseFacts(p: PlatformSpec, username: string, code: int, body: string)
    ensures var r := Classify(p, username, Response(code, body));
      && r.platform == p.name && r.httpStatus == Some(code)
      && r.url == Some(ProfileUrl(p, username)) && r.status != Error
      && (code in p.availableStatuses ==> r.status == Available)
      && (code !in p.availableStatuses && code !in p.takenStatuses ==> r.status == Unknown)
  {
  }

  /**
   * For a code in `taken_statuses` (and not in `available_statuses`): an unknown
   * marker beats an available marker, which beats a taken marker; with no hit the
   * verdict is unknown under `ambiguous_on_200` and taken otherwise.
   */
  lemma MarkerPriority(p: PlatformSpec, username: string, code: int, body: string)
    requires code !in p.availableStatuses && code in p.takenStatuses
    ensures var r := Classify(p, username, Response(code, body));
      var text := Lower(body);
      var unknownHit := AnyMarker(p.unknownMarkers, text);
      var availableHit := AnyMarker(p.availableMarkers, text);
      var takenHit := AnyMarker(TakenMarkerTexts(p.takenMarkers, username), text);
      && (unknownHit ==> r.status == Unknown)
      && (!unknownHit && availableHit ==> r.status == Available)
      && (!unknownHit && !availableHit && takenHit ==> r.status == Taken)
      && (!unknownHit && !availableHit && !takenHit ==> r.status == (if p.ambiguousOn200 then Unknown else Taken))
  {
  }

  /** A failed request: "error", no code, the exception's name, and the URL that was requested. */
  lemma FailureFacts(p: PlatformSpec, username: string, e: string)
    ensures var r := Classify(p, username, Failed(e));
      r == ProbeResult(p.name, Some(CheckUrl(p, username)), Error, None, e)
  {
  }

  /** "error" arises exactly from a failed request of a platform that is not skipped. */
  lemma ErrorIffFailed(p: PlatformSpec, username: string, respond: Request -> Outcome)
    ensures Probe(p, username, respond).status == Error <==>
              !p.skipCheck && respond(BuildRequest(p, username)).Failed?
  {
  }

  /** The request carries the platform's method, its check URL, and the merged headers. */
  lemma RequestFacts(p: PlatformSpec, username: string)
    ensures var req := BuildRequest(p, username);
      && req.verb == (if p.checkMethod.Some? then p.checkMethod.value else "GET")
      && req.url == CheckUrl(p, username)
      && (p.checkUrlTemplate == None ==> req.url == ProfileUrl(p, username))
      && forall k :: k in req.headers <==> k in DefaultHeaders || k in p.headers
  {
  }

  /** A check template that extends the profile template after the field probes the profile URL plus that tail. */
  lemma CheckUrlExtendsProfile(p: PlatformSpec, username: string, front: string, tail: string)
    requires NoBrace(front) && NoBrace(tail)
    requires p.profileUrlTemplate == front + Placeholder
    requires p.checkUrlTemplate == Some(front + Placeholder + tail)
    ensures CheckUrl(p, username) == ProfileUrl(p, username) + tail
  {
    assert p.profileUrlTemplate == front + Placeholder + [];
    FormatField(front, [], username);
    FormatNoField([], username);
    assert ProfileUrl(p, username) == front + username;
    FormatField(front, tail, username);
    FormatNoField(tail, username);
    assert CheckUrl(p, username) == front + username + tail;
  }

  /** Reddit probes its JSON endpoint but links to the profile page, so an error result shows the endpoint. */
  lemma RedditUrlsDiffer(username: string)
    ensures CheckUrl(Reddit, username) == ProfileUrl(Reddit, username) + "/about.json"
    ensures CheckUrl(Reddit, username) != ProfileUrl(Reddit, username)
  {
    var front := "https://www.reddit.com/user/";
    assert Placeholder == "{username}";
    assert Reddit.checkUrlTemplate.value == front + "{username}" + "/about.json";
    CheckUrlExtendsProfile(Reddit, username, front, "/about.json");
  }

  /** Unknown and available markers are searched as written: one holding an upper-case letter never matches. */
  lemma UpperCaseMarkerNeverMatches(markers: seq<string>, body: string, i: int, k: int)
    requires 0 <= i < |markers| && 0 <= k < |markers[i]| && IsUpper(markers[i][k])
    ensures !Contains(Lower(body), markers[i])
  {
    UpperNeverInLowered(body, markers[i], k);
  }

  // ---------------------------------------------------------------------------
  // Properties of the fan-out

  /** The key-platform set is the set of table names. */
  lemma KeyPlatformsAreRegistryNames()
    ensures forall i :: 0 <= i < |Registry| ==> Registry[i].name in ApiSuggestions.KeyPlatforms
    ensures forall n :: n in ApiSuggestions.KeyPlatforms ==> exists i :: 0 <= i < |Registry| && Registry[i].name == n
  {
    assert Registry[0].name == "GitHub";
    assert Registry[1].name == "Reddit";
    assert Registry[2].name == "TikTok";
    assert Registry[3].name == "X";
    assert Registry[4].name == "GitLab";
    assert Registry[5].name == "Bitbucket";
    assert Registry[6].name == "Dev.to";
    assert Registry[7].name == "CodePen";
    assert Registry[8].name == "Dribbble";
    assert Registry[9].name == "Behance";
  }

  /** When every result comes from a key platform, suggestions are needed exactly when some result is not "available". */
  lemma KeyResultsNeedSuggestions(results: seq<ProbeResult>)
    requires forall i :: 0 <= i < |results| ==> results[i].platform in ApiSuggestions.KeyPlatforms
    ensures ApiSuggestions.NeedsSuggestions(results) <==> !AllAvailable(results)
  {
    if !AllAvailable(results) {
      var i :| 0 <= i < |results| && results[i].status != Available;
      assert results[i].platform in ApiSuggestions.KeyPlatforms;
    }
  }

  /** With one result per table entry, suggestions are needed exactly when some result is not "available". */
  lemma RegistryResultsNeedSuggestions(username: string, respond: Request -> Outcome, results: seq<ProbeResult>)
    requires |results| == |Registry|
    requires forall i :: 0 <= i < |Registry| ==> results[i] == Probe(Registry[i], username, respond)
    ensures ApiSuggestions.NeedsSuggestions(results) <==> !AllAvailable(results)
  {
    KeyPlatformsAreRegistryNames();
    forall i | 0 <= i < |results|
      ensures results[i].platform in ApiSuggestions.KeyPlatforms
    {
      assert results[i].platform == Registry[i].name;
    }
    KeyResultsNeedSuggestions(results);
  }
}
