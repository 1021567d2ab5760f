/** The serverless checker's platform table. */
module ApiPlatforms {
  import opened Wrappers

  /**
   * One platform's probe definition. Keys the table leaves out take the
   * defaults `_check_platform` reads them with: no check template (probe the
   * profile URL), method "GET", empty status and marker lists, no headers,
   * `ambiguous_on_200` and `skip_check` false, no reason.
   */
  datatype PlatformSpec = PlatformSpec(
    name: string,
    profileUrlTemplate: string,
    checkUrlTemplate: Option<string>,
    checkMethod: Option<string>,
    availableStatuses: seq<int>,
    takenStatuses: seq<int>,
    unknownStatuses: seq<int>,
    unknownMarkers: seq<string>,
    availableMarkers: seq<string>,
    takenMarkers: seq<string>,
    ambiguousOn200: bool,
    headers: map<string, string>,
    skipCheck: bool,
    reason: Option<string>)

  /** The entry shape every platform of the table shares: 404 free, 200 taken, 429/403/401 blocked. */
  function Standard(name: string, profileUrlTemplate: string): PlatformSpec {
    PlatformSpec(
      name, profileUrlTemplate, None, Some("GET"),
      [404], [200], [429, 403, 401],
      [], [], [],
      false, map[], false, None)
  }

  const BrowserAgent: string :=
    "Mozilla/5.0 (Macintosh; Intel Mac OS X 10_15_7) AppleWebKit/537.36 (KHTML, like Gecko) Chrome/122.0.0.0 Safari/537.36"

  const Reddit: PlatformSpec :=
    Standard("Reddit", "https://www.reddit.com/user/{username}").(
      checkUrlTemplate := Some("https://www.reddit.com/user/{username}/about.json"),
      headers := map["User-Agent" := "Mozilla/5.0 (compatible; HandleScout/1.0; +https://example.com)"])

  const TikTok: PlatformSpec :=
    Standard("TikTok", "https://www.tiktok.com/@{username}").(
      unknownMarkers := ["verify you are human", "captcha", "unusual traffic", "something went wrong"],
      availableMarkers := ["couldn't find this account", "couldn't find this user", "user not found"],
      takenMarkers := ["\"uniqueId\":\"{username}\""],
      ambiguousOn200 := true,
      headers := map["User-Agent" := BrowserAgent, "Accept-Language" := "en-US,en;q=0.9"])

  const X: PlatformSpec :=
    Standard("X", "https://x.com/{username}").(
      unknownMarkers := ["something went wrong", "unusual activity", "retry", "access denied"],
      availableMarkers := ["this account doesn't exist", "account doesn't exist"],
      ambiguousOn200 := true,
      headers := map["User-Agent" := BrowserAgent, "Accept-Language" := "en-US,en;q=0.9"])

  /** `PLATFORMS`, in table order. */
  const Registry: seq<PlatformSpec> := [
    Standard("GitHub", "https://github.com/{username}"),
    Reddit,
    TikTok,
    X,
    Standard("GitLab", "https://gitlab.com/{username}"),
    Standard("Bitbucket", "https://bitbucket.org/{username}"),
    Standard("Dev.to", "https://dev.to/{username}"),
    Standard("CodePen", "https://codepen.io/{username}"),
    Standard("Dribbble", "https://dribbble.com/{username}"),
    Standard("Behance", "https://www.behance.net/{username}")
  ]
}
