/**
 * The command-line checker: a 404/200/other classifier per platform, an
 * ordered fan-out over the table, and an unvalidated list of 12 suggestions.
 */
module Checker {
  import opened Text
  import opened Handles
  import opened Platforms

  const Headers: map<string, string> :=
    map["User-Agent" := "Mozilla/5.0 (Macintosh; Intel Mac OS X 10_15_7) AppleWebKit/537.36"]
  const Suffixes: seq<string> := ["dev", "hq", "app", "official", "real", "the"]
  const Numbers: seq<string> := ["1", "01", "2", "99"]
  const MaxSuggestions: nat := 12

  datatype CheckResult = CheckResult(platform: string, url: string, status: Status)

  datatype Batch = Batch(results: seq<CheckResult>, suggestions: seq<string>)

  /** The URL requested: the pattern with the username substituted. */
  function RequestUrl(p: Platform, username: string): string {
    Format(p.url, username)
  }

  /** The URL shown: the requested URL with every "/about.json" removed. */
  function DisplayUrl(p: Platform, username: string): string {
    RemoveAll(RequestUrl(p, username), "/about.json")
  }

  /** `check_platform` with the HTTP client replaced by `respond`. */
  function CheckPlatform(p: Platform, username: string, respond: Request -> Outcome): (r: CheckResult)
    ensures r.platform == p.name && r.url == DisplayUrl(p, username)
  {
    var url := Format(p.url, username);
    var profileUrl := RemoveAll(url, "/about.json");
    if p.unreliable then
      CheckResult(p.name, profileUrl, Unknown)
    else
      match respond(Request("GET", url, Headers))
      case Failed(_) => CheckResult(p.name, profileUrl, Error)
      case Response(code, _) =>
        if code == 404 then CheckResult(p.name, profileUrl, Available)
        else if code == 200 then CheckResult(p.name, profileUrl, Taken)
        else CheckResult(p.name, profileUrl, Unknown)
  }

  /** An unreliable platform is "unknown" without a request: the network's answer does not matter. */
  lemma UnreliableMakesNoRequest(p: Platform, username: string, respond: Request -> Outcome, respond': Request -> Outcome)
    requires p.unreliable
    ensures CheckPlatform(p, username, respond) == CheckPlatform(p, username, respond')
    ensures CheckPlatform(p, username, respond).status == Unknown
  {
  }

  /** 404 means available, 200 taken, any other code unknown, an exception error. */
  lemma StatusByOutcome(p: Platform, username: string, respond: Request -> Outcome)
    requires !p.unreliable
    ensures var outcome := respond(Request("GET", RequestUrl(p, username), Headers));
      var status := CheckPlatform(p, username, respond).status;
      && (status == Error <==> outcome.Failed?)
      && (status == Available <==> outcome.Response? && outcome.statusCode == 404)
      && (status == Taken <==> outcome.Response? && outcome.statusCode == 200)
      && (status == Unknown <==> outcome.Response? && outcome.statusCode != 404 && outcome.statusCode != 200)
  {
  }

  /** When the requested URL has no "/about.json", the shown URL is the requested one. */
  lemma DisplayUrlUnchanged(p: Platform, username: string)
    requires !Contains(RequestUrl(p, username), "/about.json")
    ensures DisplayUrl(p, username) == RequestUrl(p, username)
  {
    RemoveAbsent(RequestUrl(p, username), "/about.json");
  }

  /** The host part of the first entry's pattern. */
  const GitHubHost: string := "https://github.com"

  /**
   * No pattern of the table holds "/about.json", but a handle can complete it: the
   * valid handle "about.json" is requested on GitHub (the first entry, as
   * `GitHubPattern` states) and shown as the bare host.
   */
  lemma HandleCanBeCut(p: Platform, username: string)
    requires p.url == GitHubHost + "/" + Placeholder && username == "about.json"
    ensures ValidHandle(username)
    ensures DisplayUrl(p, username) == GitHubHost
    ensures RequestUrl(p, username) == DisplayUrl(p, username) + "/" + username
  {
    assert "/" + username == "/about.json";
    HandleCompletesSuffix(p, GitHubHost, username);
  }

  lemma GitHubPattern()
    ensures Registry[0].name == "GitHub" && Registry[0].url == GitHubHost + "/" + Placeholder
  {
  }

  /** A pattern `{host}/{username}` asked for a handle that completes "/about.json" shows just the host. */
  lemma HandleCompletesSuffix(p: Platform, host: string, username: string)
    requires p.url == host + "/" + Placeholder && NoBrace(host)
    requires "/" + username == "/about.json"
    requires forall i {:trigger host[i]} :: 0 <= i < |host| ==> host[i] != '/' || (i + 1 < |host| && host[i + 1] != 'a')
    ensures RequestUrl(p, username) == host + "/about.json"
    ensures DisplayUrl(p, username) == host
  {
    assert NoBrace(host + "/");
    FormatField(host + "/", [], username);
    assert p.url == (host + "/") + Placeholder + [];
    assert Format([], username) == [];
    assert RequestUrl(p, username) == host + "/about.json";
    RemoveTrailing(host, "/about.json");
  }

  predicate AllAvailable(results: seq<CheckResult>) {
    forall i :: 0 <= i < |results| ==> results[i].status == Available
  }

  /** What the first loop appends at position `k`: `{u}_{s}` at even, `{u}{s}` at odd positions. */
  function Variant(k: nat): string
    requires k < 2 * |Suffixes|
  {
    if k % 2 == 0 then "_" + Suffixes[k / 2] else Suffixes[k / 2]
  }

  function SuggestionAt(username: string, k: nat): string
    requires k < 2 * |Suffixes|
  {
    username + Variant(k)
  }

  /**
   * `generate_suggestions`: none when every result is available (so none for no
   * results); otherwise the suffix pairs, in suffix order, cut to 12 — which is
   * exactly the pairs, so the numeric variants never survive the cut.
   */
  method GenerateSuggestions(username: string, results: seq<CheckResult>) returns (suggestions: seq<string>)
    ensures AllAvailable(results) ==> suggestions == []
    ensures !AllAvailable(results) ==>
              |suggestions| == MaxSuggestions &&
              forall k :: 0 <= k < MaxSuggestions ==> suggestions[k] == SuggestionAt(username, k)
  {
    if AllAvailable(results) {
      return [];
    }
    var appended: seq<string> := [];
    for i := 0 to |Suffixes|
      invariant |appended| == 2 * i
      invariant forall k :: 0 <= k < 2 * i ==> appended[k] == SuggestionAt(username, k)
    {
      appended := appended + [username + "_" + Suffixes[i]];
      appended := appended + [username + Suffixes[i]];
    }
    for i := 0 to |Numbers|
      invariant |appended| == 2 * |Suffixes| + i
      invariant forall k :: 0 <= k < 2 * |Suffixes| ==> appended[k] == SuggestionAt(username, k)
      invariant forall k :: 0 <= k < i ==> appended[2 * |Suffixes| + k] == username + Numbers[k]
    {
      appended := appended + [username + Numbers[i]];
    }
    suggestions := appended[..MaxSuggestions];
  }

  /** The `asyncio.gather` of one check per platform, results in platform order. */
  method Gather(platforms: seq<Platform>, username: string, respond: Request -> Outcome) returns (results: seq<CheckResult>)
    ensures |results| == |platforms|
    ensures forall i :: 0 <= i < |platforms| ==> results[i] == CheckPlatform(platforms[i], username, respond)
  {
    results := [];
    for i := 0 to |platforms|
      invariant |results| == i
      invariant forall k :: 0 <= k < i ==> results[k] == CheckPlatform(platforms[k], username, respond)
    {
      results := results + [CheckPlatform(platforms[i], username, respond)];
    }
  }

  /**
   * `check_username`: one result per table entry, in table order, and the
   * suggestions, which are empty exactly when every platform is available.
   */
  method CheckUsername(username: string, respond: Request -> Outcome) returns (batch: Batch)
    ensures |batch.results| == |Registry|
    ensures forall i :: 0 <= i < |Registry| ==> batch.results[i] == CheckPlatform(Registry[i], username, respond)
    ensures batch.suggestions == [] <==> AllAvailable(batch.results)
    ensures !AllAvailable(batch.results) ==>
              |batch.suggestions| == MaxSuggestions &&
              forall k :: 0 <= k < MaxSuggestions ==> batch.suggestions[k] == SuggestionAt(username, k)
  {
    var results := Gather(Registry, username, respond);
    var suggestions := GenerateSuggestions(username, results);
    batch := Batch(results, suggestions);
  }

  // ---------------------------------------------------------------------------
  // Properties of the suggestions

  lemma VariantsDistinct()
    ensures forall a, b :: 0 <= a < b < 2 * |Suffixes| ==> Variant(a) != Variant(b)
  {
    assert Variant(0) == "_dev" && Variant(1) == "dev";
    assert Variant(2) == "_hq" && Variant(3) == "hq";
    assert Variant(4) == "_app" && Variant(5) == "app";
    assert Variant(6) == "_official" && Variant(7) == "official";
    assert Variant(8) == "_real" && Variant(9) == "real";
    assert Variant(10) == "_the" && Variant(11) == "the";
  }

  lemma ExtensionsDiffer(username: string, x: string, y: string)
    requires x != y
    ensures username + x != username + y
  {
    assert (username + x)[|username|..] == x;
    assert (username + y)[|username|..] == y;
  }

  /** The 12 suggestions are pairwise distinct. */
  lemma SuggestionsDistinct(username: string)
    ensures forall a, b :: 0 <= a < b < MaxSuggestions ==> SuggestionAt(username, a) != SuggestionAt(username, b)
  {
    VariantsDistinct();
    forall a, b | 0 <= a < b < MaxSuggestions
      ensures SuggestionAt(username, a) != SuggestionAt(username, b)
    {
      ExtensionsDiffer(username, Variant(a), Variant(b));
    }
  }

  /** Every suggestion starts with the username and is strictly longer. */
  lemma SuggestionsExtendUsername(username: string)
    ensures forall k :: 0 <= k < MaxSuggestions ==>
              |SuggestionAt(username, k)| > |username| && SuggestionAt(username, k)[..|username|] == username
  {
    forall k | 0 <= k < MaxSuggestions
      ensures |Variant(k)| > 0
    {
      assert Suffixes[k / 2] != [];
    }
  }

  /** None of `{u}1`, `{u}01`, `{u}2`, `{u}99` survives the cut to 12. */
  lemma NumbersCutOff(username: string)
    ensures forall n, k :: 0 <= n < |Numbers| && 0 <= k < MaxSuggestions ==>
              SuggestionAt(username, k) != username + Numbers[n]
  {
    forall n, k | 0 <= n < |Numbers| && 0 <= k < MaxSuggestions
      ensures SuggestionAt(username, k) != username + Numbers[n]
    {
      assert Variant(k) != Numbers[n] by {
        assert Numbers[n] in {"1", "01", "2", "99"};
        assert Suffixes[k / 2] in {"dev", "hq", "app", "official", "real", "the"};
      }
      ExtensionsDiffer(username, Variant(k), Numbers[n]);
    }
  }

  /** The suggestions are not validated: a valid username of 22 or more characters gets a 31-plus-character `{u}_official`. */
  lemma SuggestionsMayBeInvalid(username: string)
    requires ValidHandle(username) && |username| >= 22
    ensures !ValidHandle(SuggestionAt(username, 6))
  {
    assert Variant(6) == "_official";
  }
}
