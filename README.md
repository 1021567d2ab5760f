# Username availability checker — a verified model

The repository checks whether a handle is free on a fixed list of platforms. It has
two front ends.

- **The serverless API** (`netlify/functions/api/api.py`):
  - It validates the handle and probes ten platforms.
  - Each probe sends one HTTP request and classifies the answer with a per-platform
    cascade: status-code sets first, then body markers.
  - It then proposes up to 18 alternative handles. Every proposal is checked by the
    same validity rule and appears only once.
- **The older command-line checker** (`checker.py`, `platforms.py`, `cli.py`):
  - Each probe is a plain 404 / 200 / other classifier.
  - It proposes 12 handles without validating them.
  - `print_results` lays the results out as an aligned, coloured table, but `run_once`
    as written never reaches it (see "## Findings").

The model keeps each file's own form:

- Decision cascades are functions.
- Loops that build lists (the `push` closure, the suggestion lists, `format_row`, the
  row-building in `print_results`, the early-return validators and marker searches)
  are methods. Each method is proved equal to a specification function or to the
  validity rule.

The network is a parameter `respond: Request -> Outcome`. It maps the request a probe
would send to either a raised exception (`Failed(name)`) or a response
(`Response(code, body)`). `asyncio.gather` keeps input order, so it is modelled as an
ordered loop over the platform table.

Modules:

- `Wrappers`: Option and Result.
- `Text`: Python's `in`, `lower`, `format(username=…)`, `replace`, `join`, `*` and
  `str(int)`, restricted to ASCII.
- `Handles`: the shared 2–30 character handle rule, the four verdicts, and the
  request/outcome/result records.
- `ApiPlatforms`: the API's platform table.
- `ApiSuggestions`, `ApiChecker`, `ApiHandler`: the three parts of `api.py`.
- `Platforms`, `Checker`: `platforms.py` and `checker.py`.
- `Cli`: `cli.py`.

## Model

| member | source | states |
|---|---|---|
| ApiSuggestions.IsValid | netlify/functions/api/api.py:132-138 | accepts exactly the handles of 2–30 characters made of letters, digits, `_` and `.` |
| ApiHandler.ValidateUsername | netlify/functions/api/api.py:310-318 | no error exactly when the handle rule holds; otherwise the first failing check picks the message: "required" exactly for the empty string, the length message exactly for a non-empty string of bad length, the charset message exactly for a good length with a bad character |
| Cli.IsValid | cli.py:70-76 | accepts exactly the same handles as the two API validators (all three are proved equal to one rule) |
| ApiSuggestions.Push | netlify/functions/api/api.py:158-162 | appends the value unless it was seen or is invalid, and keeps the `seen` set equal to the list's elements |
| ApiSuggestions.PushBlock | netlify/functions/api/api.py:164-167 | one outer iteration pushes `u+x`, then `u+sep+x` for each separator in order, and keeps the `seen` set in step |
| ApiSuggestions.PushAllVariants | netlify/functions/api/api.py:164-171 | an outer loop pushes the blocks of all suffixes (or numbers) in order |
| ApiSuggestions.GenerateSuggestions | netlify/functions/api/api.py:141-175 | the result is [] when no key platform reports anything other than "available"; otherwise it is the first 18 values the pushes keep, in push order |
| ApiSuggestions.Take | netlify/functions/api/api.py:175 | the slice `[:n]` is the prefix of exactly min(`n`, length) elements |
| ApiSuggestions.PushedAllFacts | netlify/functions/api/api.py:158-162 | after any pushes, the list holds exactly the valid pushed values, without repeats, in order of first push |
| ApiSuggestions.SuggestionsFacts | netlify/functions/api/api.py:141-175 | when suggestions are needed, exactly the first min(18, n) of the n kept values; at most 18 suggestions; each one was generated and passes `_is_valid`; none contains "-"; pairwise distinct; in generation order |
| ApiSuggestions.FinalDevPushAddsNothing | netlify/functions/api/api.py:164-174 | the final `{username}_dev` push repeats a value pushed in the "dev" iteration, so it never changes the list |
| ApiSuggestions.LongUsernameGetsNone | netlify/functions/api/api.py:133-175 | a username of 30 or more characters gets no suggestions, because every candidate is longer than 30 |
| ApiSuggestions.ShortUsernameGetsSome | netlify/functions/api/api.py:164-175 | a valid username shorter than 30 gets at least one suggestion once suggestions are needed |
| ApiSuggestions.SuggestionsEmptyIff | netlify/functions/api/api.py:146-175 | for a valid username, the list is [] exactly when no key platform fails to be "available", or the username has 30 characters |
| ApiSuggestions.NothingValidNothingPushed | netlify/functions/api/api.py:159-160 | if no pushed value is valid, the candidate list stays empty |
| ApiSuggestions.GeneratedLonger | netlify/functions/api/api.py:164-174 | every generated candidate is strictly longer than the username |
| ApiChecker.RequestHeaders | netlify/functions/api/api.py:179-203 | the merged headers have the keys of both maps; a platform header overrides the default with the same key, and the other defaults are kept |
| ApiChecker.RequestFacts | netlify/functions/api/api.py:200-206 | the request uses the platform's method (GET by default), the check URL (the profile URL when there is no check template) and the merged headers |
| ApiChecker.CheckPlatform | netlify/functions/api/api.py:186-298 | the method, with its three early-return marker loops, returns exactly the classifier's result for the oracle's answer |
| ApiChecker.FindMarker | netlify/functions/api/api.py:236-247 | the loop finds a marker exactly when some marker occurs in the lower-cased body |
| ApiChecker.FindTakenMarker | netlify/functions/api/api.py:256-257 | the loop finds a hit exactly when some taken marker, with `{username}` substituted and lower-cased, occurs in the lower-cased body |
| ApiChecker.SkipMakesNoRequest | netlify/functions/api/api.py:191-198 | a skipped platform gives "unknown" with no URL and no code, and the configured reason or "Not checkable"; the result does not depend on the network |
| ApiChecker.ResponseFacts | netlify/functions/api/api.py:216-298 | once a response arrives, the result has the platform name, the observed code and the profile URL, and is never "error"; an available code gives "available" whatever the body says; a code in neither the available nor the taken set gives "unknown" |
| ApiChecker.MarkerPriority | netlify/functions/api/api.py:231-281 | for a taken code, an unknown marker beats an available marker, which beats a taken marker; with no hit the verdict is "unknown" under `ambiguous_on_200` and "taken" otherwise |
| ApiChecker.FailureFacts | netlify/functions/api/api.py:207-214 | a raised exception gives "error", no code, the exception name as reason, and the check URL rather than the profile URL |
| ApiChecker.ErrorIffFailed | netlify/functions/api/api.py:191-214 | "error" arises exactly when a platform that is not skipped has its request fail |
| ApiChecker.CheckUrlExtendsProfile | netlify/functions/api/api.py:200-201 | when the check template is the profile template plus a brace-free tail, the check URL is the profile URL plus that tail |
| ApiChecker.RedditUrlsDiffer | netlify/functions/api/api.py:22-24 | for Reddit, the check URL is the profile URL plus "/about.json", so an error result shows a different URL from a success |
| ApiChecker.UpperCaseMarkerNeverMatches | netlify/functions/api/api.py:217-247 | an unknown or available marker that holds an upper-case letter can never match the lower-cased body |
| ApiChecker.Gather | netlify/functions/api/api.py:303-304 | one probe result per platform, in platform order |
| ApiChecker.CheckUsername | netlify/functions/api/api.py:301-306 | one result per table entry, in table order, then the suggestions; for a valid username the suggestions are [] exactly when every result is "available" or the username has 30 characters |
| ApiChecker.KeyPlatformsAreRegistryNames | netlify/functions/api/api.py:12-145 | the key-platform set is exactly the set of names in the platform table |
| ApiChecker.KeyResultsNeedSuggestions | netlify/functions/api/api.py:146-148 | when every result comes from a key platform, suggestions are needed exactly when some result is not "available" |
| ApiChecker.RegistryResultsNeedSuggestions | netlify/functions/api/api.py:142-148 | for the results of the whole table, suggestions are needed exactly when some result is not "available" |
| Text.Lower | netlify/functions/api/api.py:217 | same length; each upper-case letter becomes its lower-case letter (code point plus 32), other characters are unchanged, and no upper-case letter is left |
| Text.UpperNeverInLowered | netlify/functions/api/api.py:217-237 | a pattern with an upper-case letter never occurs in lower-cased text |
| Text.ContainsIffOccurs | netlify/functions/api/api.py:237 | `pat in text` holds exactly when the pattern occurs at some position |
| Text.FormatField | netlify/functions/api/api.py:200-201 | formatting replaces the `{username}` field by the username and keeps the text around it |
| Text.FormatNoField | netlify/functions/api/api.py:200-201 | a template without braces is left unchanged |
| Text.RemoveAbsent | checker.py:11 | removing a substring that does not occur changes nothing |
| Checker.CheckPlatform | checker.py:9-30 | every result carries the platform name and the URL with the username substituted and "/about.json" removed, on every path including the error path |
| Checker.UnreliableMakesNoRequest | checker.py:13-15 | an unreliable platform gives "unknown" whatever the network would say |
| Checker.StatusByOutcome | checker.py:17-30 | "available" exactly for 404, "taken" exactly for 200, "unknown" exactly for any other code, "error" exactly for an exception |
| Checker.DisplayUrlUnchanged | checker.py:10-11 | when the requested URL has no "/about.json", the shown URL is the requested one |
| Checker.HandleCompletesSuffix | checker.py:10-11 | for a `{host}/{username}` pattern whose host cannot start "/about.json", a handle that completes it is requested as host plus "/about.json" and shown as the bare host |
| Checker.HandleCanBeCut | checker.py:10-11 | the table holds no "/about.json", yet the valid handle "about.json" on GitHub's pattern is shown as "https://github.com": the cut removes the handle itself |
| Checker.GitHubPattern | platforms.py:5 | the first table entry is GitHub with the pattern `https://github.com/{username}` |
| Checker.GenerateSuggestions | checker.py:42-56 | [] when every result is "available", including for no results; otherwise exactly 12 strings, `{u}_{s}` then `{u}{s}` for each suffix in order |
| Checker.Gather | checker.py:35-36 | one result per platform, in platform order |
| Checker.CheckUsername | checker.py:33-39 | one result per table entry, in table order; suggestions are [] exactly when every result is "available", and otherwise the 12 suffix variants |
| Checker.SuggestionsDistinct | checker.py:49-51 | the 12 suggestions are pairwise distinct |
| Checker.SuggestionsExtendUsername | checker.py:49-51 | every suggestion starts with the username and is strictly longer |
| Checker.NumbersCutOff | checker.py:53-56 | no numeric variant survives the cut to 12 |
| Checker.SuggestionsMayBeInvalid | checker.py:46-56 | suggestions are not validated: a valid username of 22 or more characters gets `{u}_official`, which breaks the 30-character limit |
| Cli.StripAnsi | cli.py:17-21 | deleting escape sequences never lengthens the text |
| Cli.StripNoEsc | cli.py:17-21 | on text without ESC, `visible_len` is `len` |
| Cli.StripConcat | cli.py:17-21 | no escape sequence spans a break between two texts, so text joined there is stripped piece by piece |
| Cli.StripSgrPrefix | cli.py:17-21 | a complete `ESC [ [0-9;]* m` sequence in front of a text is invisible |
| Cli.StatusColorFacts | cli.py:24-31 | `status_color` gives colour + status + reset, with green, red, yellow for available, taken, unknown and magenta otherwise; the colour adds nothing visible |
| Cli.FormatRow | cli.py:34-40 | the row is the padded cells of the zipped columns, joined by two spaces |
| Cli.CellFacts | cli.py:37-39 | a padded cell keeps its whole text, and its visible length is the larger of the width and the text's visible length |
| Cli.JoinVisible | cli.py:40 | the visible length of a joined row is the sum of its parts plus two per separator |
| Cli.RowFacts | cli.py:52-54 | a missing platform shows "-"; a missing status shows a coloured "unknown"; a missing or empty link shows "-"; the status and link cells are never empty |
| Cli.ColumnWidth | cli.py:57-61 | a column's width is at least its floor and at least every cell's visible length, and it is the floor or some cell's visible length |
| Cli.ColumnsFit | cli.py:57-61 | every cell fits the width computed for its column |
| Cli.BuildRows | cli.py:50-54 | one row per result, in order |
| Cli.PrintResults | cli.py:50-67 | the printed lines are the header, the dash row, and one row per result, laid out with the computed widths |
| Cli.TableFacts | cli.py:56-67 | the table has two lines more than there are results, every line has the same visible length whatever colour codes the status cells carry, and each result's line starts with its platform name |
| Cli.PrintResultsAsWritten | cli.py:50-54 | iterating something that yields a string key fails with "'str' object has no attribute 'get'"; a list of result entries prints its table |
| Cli.RunOnceAsWritten | cli.py:79-81 | as written, every check ends in that failure, whatever the username and the network |
| Cli.RunOnce | cli.py:79-81 | corrected: prints the table of the "results" list |
| Cli.RunOnceTable | cli.py:79-81 | the corrected table has one line per platform plus two, all of one visible width, each platform's line starting with its name, in table order |

## Left out

- HTTP: `httpx`, the client object, timeouts (`TIMEOUT_SECONDS`, `TIMEOUT`) and redirect following. The network is the `respond` parameter, and a redirect is whatever `respond` returns.
- Concurrency: `asyncio.gather`, `asyncio.run` and the API handler's event-loop fallback. The model is a loop in input order, which is the order `gather` returns.
- `handler` and `_json_response` in `api.py`: routing, CORS headers, `json.dumps` and the wall-clock timestamp. Only `_validate_username` is modelled.
- `app.py` (FastAPI routes, static files, uvicorn) is not part of this model.
- `cli.py` `main`: the banner, the input loop, the quit words, `colorama.init`, and catching exceptions to print "Error: …".
- `print_results`: the title line and the `datetime.now` timestamp. The model is the table below them.
- Unicode: `str.isalnum` and `str.lower` are ASCII only here. A non-ASCII letter is rejected by the model's validators but accepted by Python.
- `str.format`: only the `{username}` field is modelled. `{{`/`}}` escapes and other fields are not. No template in either table uses them.
- Exception class names: a failure carries an opaque name string, not a Python type.
- An entry with a key present but set to `None` is not modelled. A missing key is `None` in the model. The checker never produces either.
- Colour constants are the SGR sequences colorama emits for reset, green, red, yellow and magenta. `colorama.Style.BRIGHT` and `Fore.CYAN` appear only in the left-out title lines.

## Findings

| source | as written | input that shows it | evidently intended | confidence | as-written member | corrected member |
|---|---|---|---|---|---|---|
| cli.py:79-81 | `run_once` passes the whole dictionary returned by `check_username` to `print_results`. Iterating it yields the key strings "results" and "suggestions", and `.get` on a string raises AttributeError. So every check prints "Error: 'str' object has no attribute 'get'" and no table. | any valid username, e.g. "alice", with any network answers | print the table of `results["results"]` | high; not executed | Cli.RunOnceAsWritten | Cli.RunOnce |
