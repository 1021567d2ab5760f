/** The command-line checker's platform table: a name and a URL pattern each. */
module Platforms {

  /** `unreliable` is the optional flag the checker reads; no entry of the table sets it. */
  datatype Platform = Platform(name: string, url: string, unreliable: bool)

  /** `PLATFORMS`, in table order. */
  const Registry: seq<Platform> := [
    Platform("GitHub", "https://github.com/{username}", false),
    Platform("Reddit", "https://www.reddit.com/user/{username}", false),
    Platform("X", "https://x.com/{username}", false),
    Platform("TikTok", "https://www.tiktok.com/@{username}", false),
    Platform("GitLab", "https://gitlab.com/{username}", false),
    Platform("Bitbucket", "https://bitbucket.org/{username}", false),
    Platform("Dev.to", "https://dev.to/{username}", false),
    Platform("CodePen", "https://codepen.io/{username}", false),
    Platform("Dribbble", "https://dribbble.com/{username}", false),
    Platform("Behance", "https://www.behance.net/{username}", false)
  ]
}
