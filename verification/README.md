# HAX LinkedIn poster: a Dafny model

This project models the two Node scripts that post the HAX project's weekly
issue statistics to LinkedIn, and proves properties of that model.

- `setup-linkedin.js` runs the OAuth 2.0 authorization-code grant (section 4.1
  of RFC 6749) once:
  - it builds the authorization URL;
  - it waits on a one-shot local callback server for the browser's redirect;
  - it exchanges the code for a token and reads the member's profile;
  - it saves a credential record.
- `post-to-linkedin.js`:
  - checks that record at start-up and fixes the mode for the whole run, API or
    manual hand-off;
  - computes the weekly statistics, or takes a custom text and derives its short
    companion post;
  - asks for confirmation, makes at most one API attempt with a manual
    fallback, and appends a record to `post-history.json`.

The model is organised by module:

| file | module | what it holds |
|---|---|---|
| `wrappers.dfy` | `Wrappers` | `Option` and `Result` |
| `text.dfy` | `Text` | `toLowerCase`, `includes`, `trim` emptiness, `split`/`join` |
| `http.dfy` | `Http` | `response.ok` and the outcomes of a `fetch` whose body is read with `json()` |
| `collections.dfy` | `Collections` | `Array.prototype.filter`, the sum of a counter dictionary |
| `credentials.dfy` | `Credentials` | the credential record and `loadConfig`'s expiry check |
| `issue_stats.dfy` | `IssueStats` | `generateWeeklyStats`, `categorizeIssues`, the top-four selection, `formatCategory` |
| `custom_post.dfy` | `CustomPost` | `generateTwitterFromCustom` |
| `poster.dfy` | `Poster` | the `LinkedInPoster` class: mode, `postToLinkedIn`, `manualPost`, `run` |
| `uri.dfy` | `Uri` | `encodeURIComponent`, a reference decoder, query strings built and parsed |
| `setup.dfy` | `Setup` | `generateAuthUrl`, the callback handler as a `CallbackServer` class, `saveConfig`, the credential check of `run` |

Imperative code is modelled imperatively:

- The counters object of `categorizeIssues` is updated in a `for` loop
  (`IssueStats.CategorizeIssues`).
- The author dictionary of the `reduce` is also updated in a `for` loop
  (`IssueStats.AuthorStats`).
- The poster is a class whose methods append to a trace of effects and rewrite
  the history file.
- The callback server is a class whose fields record:
  - whether it listens;
  - the state of its promise;
  - the requests it sent, the statuses it wrote and the `close()` calls.

Each method is proved against a pure specification function:
`Tally`, `AuthorTally`, `Publish`, `Appended`/`RecordFor` or `Respond`. The
properties are proved about those functions.

The outside world enters as parameters:

- the config file's contents and the clock (integer milliseconds);
- the issue list;
- the history file;
- the user's answer;
- the `fetch` replies;
- the random `state`.

Where a reader might expect otherwise, the model follows the code:

- **The expiry boundary.** A token is still accepted at exactly
  `createdAt + expiresIn*1000 - 5 min`, because `post-to-linkedin.js:32` tests
  with a strict `>`; a stricter check would already refuse that instant.
  See `Credentials.ExpiryBoundary`.
- **`posted` and `method` in the record.** They follow the mode fixed at
  start-up (`post-to-linkedin.js:12`, `:361-362`). An API failure that falls
  back to the manual hand-off is therefore recorded as `method: 'api'`,
  `posted: true`, so the record does not say which path was actually taken.
  See `Poster.FallbackStillRecordedAsApi`.
- **Manual mode records `posted: 'manual'`**, a string where the API path
  records the boolean `true`.
- **A 2xx reply whose body cannot be read.** When the body is not JSON,
  `response.json()` throws inside the same `try`; when it is the JSON `null`,
  `result.id` throws. Either way the post is published and also handed off by
  hand. `Http.Answered` holds exactly when neither happens. See
  `Poster.NonJsonSuccessIsHandedOff`.
- **A 2xx profile reply whose body is the JSON `null`.** The success branch of
  the callback handler sets the 200 header (`setup-linkedin.js:149`) before
  `profileData.name` throws (`:157`). The catch's own `res.writeHead(500)`
  (`:174`) then throws because the header is already set. So the server is not
  closed, the promise stays pending, and the handler's rejection escapes
  unhandled; setup then never completes. See
  `Setup.NullProfileLeavesServerOpen`. A JSON `null` token body, read at
  `:139` before any header is set, is an ordinary 500 rejection.
- **An unreadable history file.** `JSON.parse` throws after the post has
  already gone out, and the run ends through the error exit with no record
  (`RunOutcome.Crashed`).
- **The `'LinkedIn User'` fallback is never taken** (`setup-linkedin.js:170`).
  The template before it always holds a space. A profile without any name is
  saved under the name `"undefined undefined"`. See `Setup.DisplayName`.

## Model

| member | source | states |
|---|---|---|
| Credentials.LoadConfig | post-to-linkedin.js:15-45 | a record is returned iff the file exists, parses, and `now <= createdAt + expiresIn*1000 - 300000`; the record returned is the stored one |
| Credentials.Classify | post-to-linkedin.js:15-45 | missing file, unparseable file and usable record are told apart; `Usable` exactly when `loadConfig` returns a record |
| Credentials.ExpiryBoundary | post-to-linkedin.js:27-32 | the buffered deadline itself is valid, one millisecond later is not, one second earlier is valid |
| Credentials.ExpiryIsFinal | post-to-linkedin.js:27-36 | validity only ends: a record refused at one time is refused, as expired, at every later time |
| Credentials.HourTokenMinuteLate | post-to-linkedin.js:27-36 | a one-hour token checked a minute after expiry is refused even though an access token is present |
| Poster.LinkedInPoster.constructor | post-to-linkedin.js:9-13 | the config is checked once at start-up and `manualMode` holds exactly when no usable record was found |
| Http.Answered | post-to-linkedin.js:249-252 | a reply whose fields can be read: a 2xx status and a body that parses to a JSON value other than `null` |
| Http.NullAnswer | setup-linkedin.js:147-157 | a 2xx reply whose body is the JSON `null`: `json()` succeeds and the first field read throws |
| Poster.Publish | post-to-linkedin.js:215-265 | without a credential only the hand-off; with one, first the request with author `urn:li:person:<personId>` and the bearer token, then the hand-off exactly when the reply was not a 2xx answer whose body is a JSON value other than `null` |
| Poster.OneAttemptAtMostOneFallback | post-to-linkedin.js:215-265 | whatever the reply: one API request with a credential and none without; exactly one hand-off unless the request was published |
| Poster.ManualModeNeverCallsApi | post-to-linkedin.js:216-218 | in manual mode no effect is an API request |
| Poster.NonJsonSuccessIsHandedOff | post-to-linkedin.js:249-264 | a 2xx reply whose body is not JSON, or is the JSON `null`, leads to the request and then the hand-off |
| Poster.LinkedInPoster.ManualPost | post-to-linkedin.js:267-298 | always succeeds, appends one hand-off to the trace, and leaves the history alone |
| Poster.LinkedInPoster.PostToLinkedIn | post-to-linkedin.js:215-265 | always returns `true`; the effects are the old effects followed by `Publish`'s for the run's credential |
| Poster.ConfirmedExactly | post-to-linkedin.js:350 | `answer.toLowerCase() === 'y'` holds exactly for the answers `y` and `Y` |
| Poster.IsCustom | post-to-linkedin.js:302 | `!!customContent`: a custom run needs a non-empty string |
| Poster.DraftFor | post-to-linkedin.js:302-323 | the run is a custom one iff the content is a non-empty string; then the LinkedIn post is that text, the short post is `generateTwitterFromCustom` of it and there are no stats; otherwise the stats are `StatsOf` the issues, the LinkedIn post carries them with the `FocusAreas` of their counters, and the short post carries them too |
| Poster.LinkedInPoster.Drafts | post-to-linkedin.js:308-323 | the drafts equal `DraftFor` of the content and the loaded issues, the statistics coming from the `generateWeeklyStats` method |
| Poster.RecordFor | post-to-linkedin.js:354-363 | `method` is `api` and `posted` is `true` exactly when not in manual mode; date, type, stats and both posts come from the drafts |
| Poster.FallbackStillRecordedAsApi | post-to-linkedin.js:355-363 | with a credential, a failed request is handed off by hand, yet the record says `api` and `posted: true` |
| Poster.Appended | post-to-linkedin.js:365-371 | an unreadable history gives nothing; otherwise the new history is the old records, unchanged and in order, followed by the one new record |
| Poster.LinkedInPoster.SaveRecord | post-to-linkedin.js:365-371 | an unreadable history ends the run unchanged; otherwise the history becomes `Appended` of the old one and the record |
| Poster.LinkedInPoster.Run | post-to-linkedin.js:301-384 | declining does nothing and records nothing; confirming posts the LinkedIn draft once through `Publish` and then appends `RecordFor` of the drafts, or crashes on an unreadable history |
| Collections.Filter | post-to-linkedin.js:60-61 | the kept elements are exactly those of the input that pass, never more than the input |
| Text.Contains | post-to-linkedin.js:110-130 | `String.prototype.includes`: tested from each position in turn; see `Text.ContainsIff` |
| Text.ContainsIff | post-to-linkedin.js:110-130 | `includes` holds exactly when the piece occurs at some position of the string |
| Text.ToLower | post-to-linkedin.js:107 | same length, no upper-case ASCII letter left, every other character unchanged |
| IssueStats.LowerLabels | post-to-linkedin.js:108 | a missing label list is an empty one; otherwise each label lower-cased, in order |
| IssueStats.Tests | post-to-linkedin.js:106-130 | the cleanup test reads only the lower-cased title |
| IssueStats.Add | post-to-linkedin.js:110-130 | after one issue each counter whose test passed is one higher and every other counter is unchanged |
| IssueStats.Tally | post-to-linkedin.js:95-134 | every one of the seven counters equals the number of issues it matches, and is at most the number of issues |
| IssueStats.TallyPrefix | post-to-linkedin.js:106-131 | one more issue bumps exactly the counters it matches |
| IssueStats.CountIssue | post-to-linkedin.js:110-130 | the seven `if`s produce `Add` of the counters and the test outcomes |
| IssueStats.CategorizeIssues | post-to-linkedin.js:95-134 | all seven counters start at zero and end at the number of issues each matches, each at most the number of issues |
| IssueStats.CleanupByTitleOnly | post-to-linkedin.js:128-130 | issue lists with the same titles, whatever their labels, give the same cleanup count |
| IssueStats.OneIssueSeveralCounters | post-to-linkedin.js:110-124 | a single issue titled "a11y bug", in any case, counts both for accessibility and for bug fixes |
| IssueStats.CountByPrefix | post-to-linkedin.js:64-68 | one more issue adds one to its own author's count and changes no other author's count |
| IssueStats.CountByPositive | post-to-linkedin.js:64-68 | an author's count is positive exactly when they opened one of the issues |
| IssueStats.AuthorsPrefix | post-to-linkedin.js:64-68 | one more issue adds its author to the set of authors |
| IssueStats.AuthorTally | post-to-linkedin.js:64-68 | the `reduce`: each issue adds one to its author's entry, a new author starting from `0`; its meaning is stated by the three lemmas below |
| IssueStats.AuthorTallyEntry | post-to-linkedin.js:64-68 | the dictionary has an entry exactly for each author, holding the number of issues that author opened |
| IssueStats.AuthorTallyTotal | post-to-linkedin.js:64-68 | the author counts add up to the number of issues |
| IssueStats.AuthorTallyMeaning | post-to-linkedin.js:64-68 | the keys are exactly the authors, each entry is the author's positive count, and the counts sum to the number of issues |
| IssueStats.AuthorStats | post-to-linkedin.js:64-68 | the in-place `reduce` yields one entry per author, with the author's issue count, summing to the number of issues |
| IssueStats.StatsOf | post-to-linkedin.js:56-93 | the object `generateWeeklyStats` returns: recent issues are those numbered 2455 or more, with their closed count, author tally and category tally, and the totals over all issues; its properties are stated by `StatsConsistent` |
| IssueStats.StatsConsistent | post-to-linkedin.js:60-91 | resolved is at most created and at most all closed; author counts sum to created; `active = total - totalClosed` and is never negative; every category count is at most created |
| IssueStats.GenerateWeeklyStats | post-to-linkedin.js:56-93 | recent issues are exactly those numbered 2455 or more; resolved ≤ created; author counts sum to created; active = total − closed ≥ 0 |
| IssueStats.Entries | post-to-linkedin.js:140 | the seven counters as `[name, count]` pairs in declaration order |
| IssueStats.Insert | post-to-linkedin.js:142 | inserting into a list sorted by decreasing count keeps it sorted and adds exactly the one entry |
| IssueStats.SortByCount | post-to-linkedin.js:142 | the result is in non-increasing count order and is a permutation of the input |
| IssueStats.PositiveAfterSort | post-to-linkedin.js:141-142 | a permutation of entries with positive counts has positive counts |
| IssueStats.TopCategories | post-to-linkedin.js:140-143 | at most four entries, all with a positive count, in non-increasing order, all taken from the input |
| IssueStats.TopCategoriesAreTop | post-to-linkedin.js:140-143 | a positive entry left out means four were kept, none with a smaller count than it |
| IssueStats.FormatCategory | post-to-linkedin.js:183-194 | the seven counter names map to their labels, any other name comes back unchanged |
| IssueStats.KnownCategories | post-to-linkedin.js:184-192 | the label table has an entry for exactly the seven counter names |
| IssueStats.FocusAreas | post-to-linkedin.js:140-144 | the focus lines of the post: one per `TopCategories` entry, in its order, each the entry's `formatCategory` label with its count; so at most four, positive counts, busiest first |
| IssueStats.FocusShowsLabels | post-to-linkedin.js:144 | every focus line shows one of the seven labels |
| Text.Split | post-to-linkedin.js:198 | at least one piece, and no piece holds the separator |
| Text.HasContent | post-to-linkedin.js:198 | `line.trim()` is truthy exactly when the line holds a character outside the ECMAScript white-space and line-terminator set |
| CustomPost.ContentLines | post-to-linkedin.js:198 | the kept lines are exactly the lines of the text with non-blank content, none holding a line break |
| CustomPost.FirstLine | post-to-linkedin.js:198-199 | a single line: either a line of the text with content or `'LinkedIn post content'` |
| CustomPost.FirstLineIsFirst | post-to-linkedin.js:198-199 | when line i is the first line with content, the first line is line i |
| CustomPost.FirstLineStandIn | post-to-linkedin.js:198-199 | when no line has content, the first line is `'LinkedIn post content'` |
| CustomPost.BlankText | post-to-linkedin.js:198-199 | a text of white space only gives `'LinkedIn post content'` |
| CustomPost.Shorten | post-to-linkedin.js:202-205 | a line of at most 200 characters is kept; a longer one becomes its first 200 characters followed by `...` |
| CustomPost.TwitterFromCustom | post-to-linkedin.js:196-213 | starts with the shortened first line; at most 203 characters plus the hashtags; holds a line break, and ends with the hashtags, exactly when the text holds no `#` |
| CustomPost.HashtagsOnlyWithoutHash | post-to-linkedin.js:207-210 | the short post is the shortened first line, followed by `\n\n#HAXTheWeb #OpenSource` iff the whole text has no `#` |
| CustomPost.OneShortLine | post-to-linkedin.js:196-213 | a single short line without `#` comes back whole followed by the hashtags |
| Uri.EncodeURIComponent | setup-linkedin.js:82 | the result is never shorter, is made only of unreserved characters, `%` and hex digits, and equals the input when that is all unreserved |
| Uri.EncodedHasNoSeparators | setup-linkedin.js:82-84 | an encoded component holds no `&`, `=` or `?` |
| Uri.DecodeEncodeAscii | setup-linkedin.js:82-84 | decoding the encoding of ASCII text gives the text back |
| Uri.ParseQueryString | setup-linkedin.js:79-84 | parsing a query string gives back its pairs when keys hold no `=` and nothing holds `&` |
| Setup.GenerateAuthUrl | setup-linkedin.js:73-87 | the returned `state` is the one drawn, the returned redirect URI is the fixed one, and the URL is `AuthUrl` of the client ID and that state |
| Setup.AuthUrl | setup-linkedin.js:79-84 | the URL is the authorization endpoint, `?`, then the query of the template |
| Setup.AuthQueryIsQueryString | setup-linkedin.js:79-84 | the template's query is the `&`-joined `key=value` string of response type, client ID, encoded redirect URI, state and encoded scopes, in that order |
| Setup.AuthParametersPlain | setup-linkedin.js:79-84 | no key holds `&` or `=` and no value holds `&` when the client ID and the state hold no `&` |
| Setup.AuthQueryParses | setup-linkedin.js:79-84 | read back, the query holds exactly the parameters it was built from |
| Setup.AuthUrlCarriesParameters | setup-linkedin.js:73-87 | the returned URL carries `response_type=code`, the client ID, the encoded redirect URI and scopes, and the very `state` and redirect URI returned beside it |
| Setup.AuthParametersDecode | setup-linkedin.js:82-84 | the encoded redirect URI and scopes decode back to the values encoded |
| Setup.ConstantsAreAscii | setup-linkedin.js:75-76 | the fixed redirect URI and scopes are ASCII text, so the decoding round trip applies to them |
| Setup.FixedParametersDecode | setup-linkedin.js:82-84 | in the URL `generateAuthUrl` builds, the redirect URI and scopes decode back to the two fixed values |
| Setup.DisplayName | setup-linkedin.js:170 | the profile's `name` when present and non-empty, else `"given family"`; never empty, so `'LinkedIn User'` is never chosen |
| Setup.Respond | setup-linkedin.js:94-183 | other paths get 404 and settle nothing; a truthy `error` gets 400 and a rejection with it; a state mismatch with no `error` gets 400, no token request and the rejection `Invalid state`; the token request is sent iff path, error and state checks pass; the profile is fetched only after a 2xx token reply with a non-null JSON body; resolution iff the profile reply is that too; a 2xx profile reply whose body is the JSON `null` leaves status 200 set with no close and no verdict, the exception escaping the handler; every other failure gets 500 and a rejection |
| Setup.SuccessFields | setup-linkedin.js:165-171 | on success the result holds `access_token`, `refresh_token`, `expires_in`, `sub` and the display name |
| Setup.NullProfileLeavesServerOpen | setup-linkedin.js:147-177 | a matching state, a good token reply and a 2xx JSON-`null` profile reply: the profile is requested, status 200 is set, the exception escapes, the server is not closed and nothing is settled |
| Setup.Truthy | setup-linkedin.js:100 | `if (error)`: an absent parameter and the empty string are falsy, a non-empty string and an array are truthy |
| Setup.DenialBeforeStateCheck | setup-linkedin.js:100-112 | a denial with a matching state is still a 400 rejection, and no token request is sent |
| Setup.CallbackServer.constructor | setup-linkedin.js:93-94 | the server listens, its promise is pending, nothing was sent, written or closed yet, and the one-shot invariant `Valid` holds |
| Setup.CallbackServer.Finish | setup-linkedin.js:103-104 | `close()` is called and the listener stops; the promise takes the verdict only if still pending; `Valid` is kept |
| Setup.CallbackServer.Handle | setup-linkedin.js:94-183 | one request appends the status, token request and profile request that `Respond` gives, closes the server on every settling branch, leaves it open with the promise pending when the exception escapes, and settles the promise at most once; it keeps `Valid`: the server listens exactly while the promise is pending, and `close()` has been called exactly when it no longer listens |
| Setup.OtherPathsChangeNothing | setup-linkedin.js:179-182 | a request to any other path gets 404 and neither closes the server nor settles the promise |
| Setup.SaveConfig | setup-linkedin.js:193-207 | the record is stored whole, with the given client credentials, the token and profile fields of the result, and `createdAt` the time of saving |
| Setup.SavedConfigLoads | setup-linkedin.js:193-207 | a record saved now is accepted at once iff the token lives at least 300 seconds, and stays accepted until five minutes before expiry |
| Setup.StartSetup | setup-linkedin.js:227-233 | setup stops before any URL is made exactly when the client ID or secret is empty; otherwise it yields `generateAuthUrl`'s request |
| Setup.FinishSetup | setup-linkedin.js:244-256 | a resolved promise is saved, a rejected one writes nothing |

## Left out

- Console output, emoji, and the wording of the LinkedIn and Twitter templates. The summary posts are symbolic values (`Poster.Post`) that carry the statistics and the selected focus areas.
- `toFixed`, `toLocaleString` and the percentages of `generateWeeklyStats`. They are floating-point formatting, and `completionRate` divides by zero when there are no recent issues.
- `Date` parsing, its `NaN` behaviour and ISO strings. Timestamps are integer milliseconds and the date of the record is a parameter.
- `fs` reads and writes, the clipboard and `xdg-open` calls, and the `readline` prompts. They are I/O; the best-effort actions of `manualPost` never change its result.
- `loadIssuesData` and its `process.exit` are not part of this model. The issue list is a constructor parameter.
- The CLI argument handling and stdin reader of `post-to-linkedin.js`, and `displayInstructions` and `promptForCredentials` of `setup-linkedin.js`. They are process plumbing.
- `Math.random` state generation. The state is a parameter.
- The `http` server, its port binding and its `'error'` event. Each run of the handler is treated as atomic: `Handle` runs it whole, awaits included. The handler awaits both `fetch`es before it calls `server.close()`, so a second `/callback` request arriving during those awaits would pass the state check and send a second token request with the same code; requests arriving during a handler's awaits are not modelled.
- `url.parse` itself. Requests arrive with their path and query values already parsed.
- JSON field typing. The fields of token and profile bodies are assumed to have the right types. A body that does not parse is `Http.Body.Unparsable`, and the JSON `null` is `Http.Body.Null`. Issue records are assumed well-typed too. A missing `author` or `title` would make `issue.author.login` (`post-to-linkedin.js:65`) or `issue.title.toLowerCase()` (`:107`) throw, and the run would end through the catch at `:380-382`; `IssueStats.Issue` cannot represent such a record.
- `Object.prototype` property names such as `constructor`, which `formatCategory` and the author dictionary would also see.
- Text.ToLower: maps only ASCII `A`–`Z`, while JavaScript's `toLowerCase` also maps letters of other scripts; string lengths count code points, not UTF-16 units.
- CustomPost.Shorten: counts characters as code points, where `length` and `substring(0, 200)` count UTF-16 units; a first line of 150 emoji is 300 units long, so the code cuts it to 100 emoji and `...`, while the model keeps it whole.
- IssueStats.SortByCount: stability of `Array.prototype.sort` for equal counts is not stated, only order and permutation.
- Uri.DecodeEncodeAscii: the decoding round trip is proved for ASCII text only, which covers the two fixed values the URL encodes.
- What the process does after an exception escapes the callback handler: Node reports an unhandled rejection, and from version 15 on ends the process. The model records the escape (`Response.escaped`) and leaves the server open with its promise pending.
- Setup.Respond: rejection reasons other than a denial are fixed tags; the messages of the thrown errors, with their status codes, are not modelled.
- Setup.Respond: the HTML page of the success response and the response bodies are not modelled.
