# github-readme-stats (Go) — a Dafny model of the stats engine

This project models the core of the Go port of github-readme-stats. That service renders a GitHub
user's activity as an SVG "stats card". The model covers the decision logic around the network
calls and the SVG templates:

- **Token failover.** `RetryGraphQL` (`internal/github/retryer.go`), `RetryRateLimit`
  (`internal/github/pat.go`) and `retryRest` (`internal/fetchers/stats.go`) walk the sorted,
  duplicate-free list of `PAT_<n>` keys. A bad-credential, suspended or rate-limited key is skipped,
  anything else decides, and the result is "first working key wins", "no github api tokens found"
  or "all github api tokens failed". The three loops share one abstraction (module `Failover`): a
  list of per-key verdicts `Skip | Final(outcome)`, the first final verdict, and the number of calls
  made. Each loop is a method proved equal to that specification; the lemmas beside it give the
  source's promises (no keys means no call, a transport error aborts, later keys are never called).
- **Status report.** `collectPATInfo` (`internal/handlers/status.go`) classifies every key as valid,
  expired, exhausted, suspended or error, and partitions the keys into five lists.
- **Pagination and stats assembly.** `statsFetcher` requests pages until the stop rule holds, and
  `mergeGraphQL` appends repository nodes. `FetchStats` maps errors to typed errors, derives the
  counters, sums stars outside an exclusion set and guards the merged-PR percentage. Each page is a
  record (nodes with name and stars, page info, counters, errors), not JSON text.
- **Rank.** `CalculateRank` (`internal/common/rank.go`) forms the weighted combination of the six
  distribution values and runs the threshold search that picks one of nine grades.
- **Supporting rules.** Query parsing (`ParseBoolean`, `ParseArray`, `ParseInt`, `ClampValue`,
  `SplitComma`), hex-colour and gradient validation and colour resolution, the cache lifetime, the
  whitelist/blacklist guard, the error types and their messages, translation lookup, HTML escaping,
  the flex layout, the stats card's layout arithmetic, and the stats handler's query reading and
  cache headers.

Upstream calls are oracles: function parameters that return
`Call<T> = TransportFailure(err) | RestFailure(message) | Answered(response)` (module `GitHub`).
Configuration (viper settings, `os.Environ`) is a `Config` value holding the environment entries,
the configuration keys and a `setting` function from name to text. One Dafny module models each Go
file. `Text` holds the parts of Go's `strings` and `strconv` that the core uses, with ASCII case
folding, and `Wrappers` holds `Option` and `Result`.

All-zero counters make every distribution value 0 (`internal/common/rank.go:5-11,42-57`), so the
percentile is 100 and the grade is "C": see `Ranking.AllZeroIsLowestGrade`.

## Model

| member | source | states |
|---|---|---|
| Text.ToLower | internal/github/pat.go:53 | the lower-cased string has the same length, each ASCII capital mapped to its small letter and every other character kept |
| Text.ToUpper | internal/github/pat.go:31 | the upper-cased string has the same length, each ASCII small letter mapped to its capital and every other character kept |
| Text.ContainsLength | internal/github/pat.go:53 | a string only contains strings no longer than itself |
| Text.TrimLeft | internal/common/render.go:76 | trimming from the left never lengthens the string, and the result does not start with white space |
| Text.TrimRight | internal/common/render.go:76 | trimming from the right never lengthens the string, and the result does not end with white space |
| Text.TrimLeftBlank | internal/common/render.go:76 | left trimming leaves nothing exactly when the string is all white space |
| Text.TrimRightEmpty | internal/common/render.go:76 | right trimming leaves nothing exactly when the string is all white space |
| Text.TrimSpaceEmpty | internal/common/render.go:76 | TrimSpace gives "" exactly when the string is all white space |
| Text.Split | internal/common/ops.go:28 | splitting always yields at least one piece |
| Text.SplitPiecesFree | internal/common/ops.go:28 | no piece of a split contains the separator |
| Text.JoinSplit | internal/common/ops.go:28 | joining the pieces of a split with the separator gives the string back |
| Text.NatToDecimal | internal/cards/stats.go:131 | the decimal text of a number is non-empty and all digits |
| Text.DecimalValueOfNat | internal/common/ops.go:56 | reading back the digits written for a number gives the number |
| Text.LessIrreflexive | internal/github/pat.go:41 | no string sorts before itself |
| Text.LessTransitive | internal/github/pat.go:41 | the byte-wise string order is transitive |
| Text.LessTotal | internal/github/pat.go:41 | of two different strings one sorts before the other |
| Text.LessAsymmetric | internal/github/pat.go:41 | two strings never sort before each other |
| Errors.NewCustomError | internal/common/error.go:44-61 | the error keeps its message and kind; the secondary message equals the kind exactly when the kind is none of the six known kinds; GRAPHQL_ERROR and GITHUB_REST_API_ERROR get "Please try again later", and MAX_RETRY, NO_TOKENS, USER_NOT_FOUND and WAKATIME_ERROR get their own fixed hints |
| Errors.Error.Message | internal/common/error.go:31-77 | the Error() text of a CustomError is exactly its message, of a ColorError its message, and of a MissingParamError the quoted-names sentence MissingParamMessage builds |
| Errors.MissingParamMessage | internal/common/error.go:68-77 | the quoting loop yields MissingParamText: the fixed sentence for no parameters, otherwise "Missing params " and the double-quoted names joined by ", " and the fixed tail |
| Errors.MissingParamTextNamesEach | internal/common/error.go:72-76 | the missing-parameter message mentions every parameter, double-quoted |
| Errors.RetrieveSecondaryMessage | internal/common/error.go:83-94 | nil gives ""; a CustomError or MissingParamError gives its secondary message; any other error gives "" |
| Envs.SplitComma | internal/common/envs.go:26-31 | the empty string gives the empty list, and every element returned is non-empty and comma-free |
| Envs.Whitelist | internal/common/envs.go:5-10 | nil exactly when WHITELIST is empty; otherwise its comma-separated non-empty entries |
| Envs.GistWhitelist | internal/common/envs.go:12-17 | nil exactly when GIST_WHITELIST is empty; otherwise its comma-separated non-empty entries |
| Envs.ExcludeRepositories | internal/common/envs.go:19-24 | the comma-separated non-empty entries of EXCLUDE_REPO, and the empty list when it is unset |
| Ops.ParseBoolean | internal/common/ops.go:8-22 | "true" in any letter case gives true, "false" in any letter case gives false, everything else (the empty string included) gives nil |
| Ops.ParseArray | internal/common/ops.go:24-37 | the append loop yields the comma-separated pieces of the value with empty ones dropped, in order ("" gives []); no element is empty or holds a comma |
| Ops.DropEmptyElements | internal/common/ops.go:30-34 | the filter keeps exactly the non-empty pieces |
| Ops.DropEmptyKeepsAll | internal/common/ops.go:30-34 | pieces that are all non-empty pass the filter unchanged |
| Ops.ArrayOfPieces | internal/common/ops.go:24-37 | no element of the parsed array is empty or contains "," |
| Ops.ArrayOfJoin | internal/common/ops.go:24-37 | when no comma-separated piece is empty, joining the parsed array with "," gives the input back |
| Ops.ClampValue | internal/common/ops.go:39-50 | NaN and values below min give min, values above max give max, values in between are kept; with min <= max the result lies in [min, max] |
| Ops.ParseInt | internal/common/ops.go:52-61 | an optionally signed decimal integer within the 64-bit range gives (value, true); anything else, the empty string included, gives (0, false) |
| Ops.ParseIntFormatInt | internal/common/ops.go:52-61 | every 64-bit integer printed in decimal parses back to itself |
| Colors.FallbackColor | internal/common/color.go:36-55 | a value splitting on commas into more than two parts whose parts after the first are hex colours is returned as a gradient (with an empty colour); otherwise a valid hex colour gets a "#" prefix and anything else yields the fallback |
| Colors.HexIsNotGradient | internal/common/color.go:18-34 | no value is both a valid hex colour and a gradient, so fallbackColor's two accepting branches never overlap |
| Colors.SplitWithoutSeparator | internal/common/color.go:40 | splitting a string that lacks the separator yields that string alone |
| Colors.SelectedTheme | internal/common/color.go:58-63 | an unknown or empty theme name falls back to the default theme |
| Colors.IsValidHexColor | internal/common/color.go:18-22 | a valid hex colour has no "#" prefix and no comma, so it can never be read as a gradient |
| Colors.IsValidGradient | internal/common/color.go:24-34 | a valid gradient has at least three items and none of its colours holds a comma |
| Colors.GetCardColors | internal/common/color.go:57-109 | the call fails with the ColorError message exactly when the title, ring, icon, text or border value is a gradient; on success a valid hex value of title, ring, icon, text, border or background is kept as "#" + value; an invalid title, icon, text or background value takes the default theme's colour, an invalid ring colour takes the resolved title colour, and an invalid border colour takes the selected theme's; a background gradient is returned as its comma-separated parts with an empty background colour |
| Colors.NoColorsGiveDefaultTheme | internal/common/color.go:57-109 | with no colour given, under any theme name, the card gets the default theme's colours and the ring takes the title colour |
| Cache.TtlValues | internal/common/cache.go:44-50 | the stats card lives one day by default, within 12 hours and two days; errors are cached ten minutes; every card's default lies within its bounds |
| Cache.CacheOverride | internal/common/cache.go:75-79 | a CACHE_SECONDS setting overrides exactly when it is non-empty and parses as an integer, and then with the parsed value |
| Cache.ResolveCacheSeconds | internal/common/cache.go:69-82 | a valid CACHE_SECONDS wins; otherwise a zero request gives the default and any other request is clamped into [min, max] |
| Cache.ResolveWithinBounds | internal/common/cache.go:69-82 | without an override, and with a default inside the bounds, the result always lies in [min, max] |
| Access.CurrentWhitelist | internal/common/access.go:19-29 | the gist guard reads GIST_WHITELIST, every other guard type reads WHITELIST, an unset variable counting as empty |
| Access.ContainsFold | internal/common/access.go:68-75 | an exact member is found, and an empty list holds nothing; the match is case-insensitive |
| Access.GuardAccess | internal/common/access.go:18-66 | an id is rejected as "not whitelisted" (gist or username wording) exactly when the applicable whitelist is non-empty and holds no case-insensitive match; it is rejected as blacklisted exactly for a username guard with an empty whitelist and a blacklist match; it passes exactly when neither holds; every rejection carries "Please deploy your own instance" and hides the repository link |
| Access.WhitelistedPasses | internal/common/access.go:31-48 | an id found in its whitelist passes, even if blacklisted |
| Access.BlacklistOnlyForUsernames | internal/common/access.go:48 | for any guard type other than "username" the blacklist has no effect |
| Html.EncodeChar | internal/common/html.go:6-11 | "&", "<", ">" and the no-break space become "&#38;", "&#60;", "&#62;" and "&#160;"; every other character is kept; no replacement contains "<", ">" or a no-break space |
| Html.EncodeHTML | internal/common/html.go:5-13 | the output never contains "<", ">" or a no-break space, and is at least as long as the input |
| Html.EncodeConcat | internal/common/html.go:12 | the replacer works piece by piece: encoding a concatenation equals concatenating the encodings |
| Html.EncodePlain | internal/common/html.go:12 | text without any of the four special characters is returned unchanged |
| Html.NotIdempotent | internal/common/html.go:12 | replacements are not re-scanned, so encoding "<" twice differs from encoding it once |
| I18nModel.NewI18n | internal/common/i18n.go:10-15 | an empty locale becomes "en", any other locale is kept, and the table is kept |
| I18nModel.T | internal/common/i18n.go:17-26 | the text stored for the key in the translator's locale; "" when the key or that locale is missing |
| I18nModel.NoEnglishFallback | internal/common/i18n.go:17-26 | a key translated only into "en" reads as "" in any other locale, and as its text under the default locale |
| Render.IssueLinkShown | internal/common/render.go:29-37 | ShowRepoLink false never shows the link, and a shown link never accompanies "Please try again later" or the max-retry hint |
| Render.RenderError | internal/common/render.go:17-70 | the card fails exactly when the colour resolution fails, with its error; otherwise it carries the resolved colours, the message and the secondary text, and the issue link exactly when ShowRepoLink (default true) holds and the secondary text is not one of the two upstream-blaming messages |
| Render.IssueLinkCases | internal/common/render.go:12-37 | "Please try again later" and the max-retry hint never show the link, ShowRepoLink false never shows it, and by default every other secondary text shows it |
| Render.FlexLayout | internal/common/render.go:72-91 | the loop emits, in order, one wrapped group per placed item at its running offset, translated along y for "column" and along x for any other direction |
| Render.NonBlank | internal/common/render.go:76-78 | the kept items are non-blank items of the input, no more of them than the input has |
| Render.ArrangeKeepsNonBlank | internal/common/render.go:75-88 | exactly the non-blank items are placed, each once, in their original order |
| Render.ArrangePositions | internal/common/render.go:75-88 | each placed item is the input item at its original position, and those positions strictly increase |
| Render.ArrangeOffsets | internal/common/render.go:73-87 | the first placed item sits at 0, and each later one at the previous offset plus the previous item's size (looked up by original position, 0 past the end of sizes) plus the gap |
| Render.ArrangeWithoutSizes | internal/common/render.go:79-87 | with no sizes the k-th placed item sits at k times the gap |
| Ranking.LogNormalCdf | internal/common/rank.go:9-11 | x / (1 + x) lies in [0, 1) for x >= 0 and is 0 exactly at 0 |
| Ranking.ExponentialCdfRange | internal/common/rank.go:5-7 | 1 - 2^-x lies in [0, 1) for x >= 0 |
| Ranking.ExponentialCdfMonotone | internal/common/rank.go:5-7 | 1 - 2^-x never decreases as x grows |
| Ranking.LogNormalCdfMonotone | internal/common/rank.go:9-11 | x / (1 + x) never decreases as x grows |
| Ranking.LevelIndex | internal/common/rank.go:39-55 | the grade index is one of the nine; the percentile exceeds every earlier threshold and does not exceed its own, except for the last grade "C" |
| Ranking.LevelFrom | internal/common/rank.go:50-55 | the threshold search from position k finds the first threshold the percentile does not exceed, or the last grade |
| Ranking.PercentileRange | internal/common/rank.go:42-57 | the percentile lies in (0, 100] |
| Ranking.CalculateRank | internal/common/rank.go:18-58 | the percentile is 100 times one minus the weighted average (weights 2, 3, 1, 1, 4, 1 over 12, medians 250 or 1000, 50, 25, 2, 50, 10) of the six distribution values; it lies in (0, 100]; the threshold loop picks the grade of the first threshold the percentile does not exceed |
| Ranking.AllZeroIsLowestGrade | internal/common/rank.go:42-57 | all-zero counters give percentile 100 and grade "C" |
| Ranking.PercentileMonotone | internal/common/rank.go:42-47 | raising any counters never raises the percentile |
| Ranking.CountMonotone | internal/common/rank.go:42-47 | over the same median, a larger counter gives a larger value of both distributions |
| Ranking.AllCommitsModeIsStricter | internal/common/rank.go:19-22 | the same counters never get a lower percentile when all commits are counted (median 1000 instead of 250) |
| Ranking.LevelMonotone | internal/common/rank.go:49-55 | a higher percentile never gets a better grade |
| Ranking.LevelBands | internal/common/rank.go:39-55 | a percentile above threshold k-1 and at most threshold k gets grade k |
| Pat.MinimumExists | internal/github/pat.go:41 | every non-empty set of keys has a byte-wise least element, which sort.Strings puts first |
| Pat.SortedKeys | internal/github/pat.go:37-42 | the sorted key list is strictly ascending and holds exactly the keys of the set |
| Pat.SortedUnique | internal/github/pat.go:37-42 | two strictly ascending lists with the same elements are equal, so the sorted result does not depend on the map's iteration order |
| Pat.Insert | internal/github/pat.go:38-41 | adding a new key at its place keeps the list strictly ascending and adds exactly that key |
| Pat.GetPATKeys | internal/github/pat.go:17-43 | the two collecting loops and the sort return a strictly ascending, duplicate-free list holding exactly the environment keys matching `^PAT_\d+$` and the upper-cased configuration keys that match it |
| Pat.IsRateLimited | internal/github/pat.go:45-54 | no errors means not rate limited; a first error of type RATE_LIMITED means rate limited; otherwise the first error's lower-cased message decides, by containing "rate limit" |
| Pat.IsBadCredential | internal/github/pat.go:56-58 | the test is whole-string: a matching message has exactly the length of "Bad credentials" |
| Pat.IsSuspended | internal/github/pat.go:60-62 | the test is whole-string: a matching message has exactly the length of "Sorry. Your account was suspended." |
| Pat.IsRateLimitedFirstOnly | internal/github/pat.go:45-54 | only the first GraphQL error decides whether a response is rate limited, and no errors means not rate limited |
| Pat.BadCredentialMessage | internal/github/pat.go:56-58 | a message counts as bad credentials exactly when it lower-cases to "bad credentials" |
| Pat.SuspendedMessage | internal/github/pat.go:60-62 | a message counts as a suspension exactly when it lower-cases to "sorry. your account was suspended." |
| Pat.RateLimitVerdict | internal/github/pat.go:72-88 | a transport error stops with that error; a bad-credential or suspension REST message skips the key and any other REST message stops with it; a rate-limited answer skips the key and any other answer stops with its data and GraphQL errors |
| Pat.RateLimitVerdicts | internal/github/pat.go:70-89 | one verdict per key, in order, each for the probe made with that key's configured token |
| Pat.EnvTokens | internal/github/pat.go:71 | the token of each key is its configured value |
| Pat.RetryRateLimit | internal/github/pat.go:64-92 | with no keys the result is "no github api tokens found" and no probe is made; otherwise keys are probed in order, the first key not skipped decides the result, "all github api tokens failed" is returned when every key is skipped, and exactly the keys up to the deciding one are probed |
| Pat.ProbeEachKey | internal/github/pat.go:70-91 | the loop keeps "every key so far was skipped" and probes each key once, in order, until one decides |
| Failover.FirstFinal | internal/github/retryer.go:21-42 | the first key that is not skipped: every key before it is skipped, and none exists exactly when every key is skipped |
| Failover.Attempts | internal/github/retryer.go:21-42 | a loop never makes more calls than there are keys |
| Failover.SettleAt | internal/github/retryer.go:21-42 | if every key before k is skipped and key k is not, k's outcome is the result and exactly k + 1 calls are made, so no later key is called |
| Failover.SettleAllSkipped | internal/github/retryer.go:21-44 | when every key is skipped, the "all tokens failed" outcome is returned after calling every key |
| Retryer.GetToken | internal/github/retryer.go:47-49 | the token passed to the fetcher is the configured value with surrounding white space removed; it is empty exactly when that value is blank |
| Retryer.GraphQLVerdict | internal/github/retryer.go:22-41 | a transport error stops with that error; a bad-credential or suspension REST message skips the key and any other REST message stops with it; an answer is skipped exactly when the hook is present and reports it rate limited, and is otherwise returned unchanged |
| Retryer.GraphQLVerdicts | internal/github/retryer.go:21-42 | one verdict per key, in order, each for the fetcher called with that key's trimmed token |
| Retryer.Tokens | internal/github/retryer.go:22 | the token of each key is its trimmed configured value |
| Retryer.RetryGraphQL | internal/github/retryer.go:15-45 | with no keys the result is "no github api tokens found"; otherwise the first key not skipped decides, every key is skipped gives "all github api tokens failed", and the fetcher is called exactly with the trimmed tokens of the keys up to the deciding one, in GetPATKeys order |
| Retryer.TryEachKey | internal/github/retryer.go:21-44 | the loop keeps "every key before i was skipped" and calls the fetcher once per key, in order, until one decides |
| Retryer.NoKeysNoCalls | internal/github/retryer.go:16-19 | without any PAT key the result is "no github api tokens found" and the fetcher is never called |
| Retryer.TransportErrorAborts | internal/github/retryer.go:23-26 | a transport error on the first key is returned as is after a single call |
| Retryer.AllBadCredentials | internal/github/retryer.go:28-44 | when every call answers "Bad credentials" in some letter case, every key is tried and the result is "all github api tokens failed" |
| Retryer.FirstKeyAnswers | internal/github/retryer.go:36-41 | an answer on the first key that the hook does not call rate limited (or with no hook) is returned unchanged after a single call |
| Status.ShieldsUptimeBadge | internal/handlers/status.go:98-114 | schema version 1, label "Public Instance", the error flag set; "up" in brightgreen when up, "down" in red otherwise |
| Status.PatVerdict | internal/handlers/status.go:121-181 | a transport error aborts the report; a REST message is "expired" exactly when it lower-cases to "bad credentials" and "suspended" exactly when it lower-cases to the suspension text, any other aborts with that message; a first GraphQL error other than RATE_LIMITED gives "error" with that error; a RATE_LIMITED first error or no remaining calls gives "exhausted" with 0 remaining; otherwise "valid" with the remaining count |
| Status.RestMessagesMatchRotation | internal/handlers/status.go:127-135 | the report's lower-cased comparisons recognise exactly the messages that the token rotation skips |
| Status.Details | internal/handlers/status.go:120-182 | a finished report has an entry for exactly the processed keys, each with one of the five statuses |
| Status.Filtered | internal/handlers/status.go:196-208 | a key is listed exactly when it is in the key list, has an entry and that entry has the status |
| Status.FilterPATs | internal/handlers/status.go:196-208 | the loop returns the keys with the given status in key-list order |
| Status.SortDetails | internal/handlers/status.go:210-218 | exactly the entries whose key is listed are kept, unchanged |
| Status.GatherDetails | internal/handlers/status.go:117-182 | the per-key loop builds the report entries and stops with the error of the first key whose query aborts |
| Status.CollectPATInfo | internal/handlers/status.go:116-194 | an aborting key's error is returned; otherwise the five status lists are filtered from the details in GetPATKeys order and the details are kept whole |
| Status.FailureSticks | internal/handlers/status.go:123-137 | once a key aborts the report, no later key changes the outcome |
| Status.ReportPartitionsKeys | internal/handlers/status.go:184-190 | every key of a finished report is in exactly the one list matching its status, so the five lists partition the keys |
| Fetchers.Request | internal/fetchers/stats.go:251-270 | the first request (empty cursor) is the full stats query with no `after`; every later one is the repositories-only query with `after` set to the cursor; startTime is sent exactly when one is given; the login is the username |
| Fetchers.MergeGraphQL | internal/fetchers/stats.go:314-339 | as written: an empty base gives the next page, an empty next page gives the base; otherwise the next page's nodes follow the base's, and everything else, pageInfo and errors included, is the base's |
| Fetchers.MergeGraphQLLatest | internal/fetchers/stats.go:314-339 | the corrected merge: as MergeGraphQL, but the pageInfo is the latest page's |
| Fetchers.StarredCount | internal/fetchers/stats.go:300-305 | the number of nodes with stars never exceeds the number of nodes |
| Fetchers.CountStarred | internal/fetchers/stats.go:300-305 | the counting loop counts the nodes with a non-zero star count, and the count equals the number of nodes exactly when every node has stars |
| Fetchers.AllStarred | internal/fetchers/stats.go:300-307 | every node is counted exactly when every node has stars |
| Fetchers.FetcherErrors | internal/fetchers/stats.go:279-281 | the NO_TOKENS and MAX_RETRY errors are NewCustomError's values for their fixed messages |
| Fetchers.MapRetryError | internal/fetchers/stats.go:275-284 | an error whose lower-cased message contains "no github api tokens found" becomes NO_TOKENS; otherwise one containing "all github api tokens failed" becomes MAX_RETRY; any other error is passed on unchanged |
| Fetchers.NoTokensPhrase | internal/fetchers/stats.go:278 | the "no tokens" phrase is already lower case and contains itself |
| Fetchers.AllTokensPhrase | internal/fetchers/stats.go:280 | the "all tokens failed" phrase is already lower case and contains itself |
| Fetchers.PhrasesApart | internal/fetchers/stats.go:277-281 | the "all tokens failed" phrase does not contain the "no tokens" phrase, so the two cases cannot be confused |
| Fetchers.NoTokensTranslated | internal/fetchers/stats.go:278-279 | the failover's "no github api tokens found" error becomes NO_TOKENS |
| Fetchers.AllTokensTranslated | internal/fetchers/stats.go:280-281 | the failover's "all github api tokens failed" error becomes MAX_RETRY |
| Fetchers.FailoverAnswerApplied | internal/fetchers/stats.go:272-285 | one page request yields the GraphQL failover's outcome, rate limits judged by isRateLimitedGraphQL, with the error translation applied |
| Fetchers.NoKeysNoTokensError | internal/fetchers/stats.go:272-279 | without any PAT key every page request fails with NO_TOKENS |
| Fetchers.BadCredentialsRateLimitError | internal/fetchers/stats.go:272-281 | when every key answers "Bad credentials", every page request fails with MAX_RETRY |
| Fetchers.IsRateLimitedGraphQL | internal/fetchers/stats.go:341-350 | a response without errors is not rate limited; one whose first error has type RATE_LIMITED is; otherwise the first error's lower-cased message decides, by containing "rate limit" |
| Fetchers.Paginate | internal/fetchers/stats.go:245-312 | a run within a budget of n requests sends at most n requests, exactly n when it runs out, and its first request is the one for the starting cursor |
| Fetchers.PageStop | internal/fetchers/stats.go:287-308 | after a merge the loop goes on exactly when the merged payload is present, has nodes, multi-page counting is on, every node has stars and another page is announced; an absent payload stops with the decoding error; otherwise the merged response is the result |
| Fetchers.PaginateUnfold | internal/fetchers/stats.go:250-309 | one loop step: a failed request ends the run with its error, a stopping page ends it with the page's outcome, and otherwise the run continues from the merged response and its cursor |
| Fetchers.FetchPage | internal/fetchers/stats.go:251-308 | one loop iteration, merging by the given rule (mergeGraphQL as written, or the corrected merge), sends the request for the current cursor and either ends the run or continues it exactly as the run's definition says |
| Fetchers.StatsFetcher | internal/fetchers/stats.go:245-312 | the loop's outcome and the requests it sends are exactly those of the run with the given merge rule, from an empty response and cursor, within the request budget |
| Fetchers.FirstRequestIsStatsQuery | internal/fetchers/stats.go:254-270 | the first request is the full stats query without a cursor |
| Fetchers.FlagOffSingleRequest | internal/fetchers/stats.go:307 | with FETCH_MULTI_PAGE_STARS off, exactly one request is made, whatever the merge |
| Fetchers.PaginateSuccessHasData | internal/fetchers/stats.go:289-292 | a run that succeeds always carries a decoded payload |
| Fetchers.AllStarredAppend | internal/fetchers/stats.go:300-307 | appending a page in which every node has stars keeps "every node has stars" |
| Fetchers.KeepFirstRepeats | internal/fetchers/stats.go:307-338 | with the merge as written, once the accumulated response announces a page after "c1" and every node has stars, every further request repeats the cursor "c1" until the budget runs out |
| Fetchers.ExampleAnswers | internal/fetchers/stats.go:272-274 | under the one-key example configuration multi-page counting is on and the failover passes both example pages through |
| Fetchers.AsWrittenNeverFinishes | internal/fetchers/stats.go:307-338 | on the two-page example the loop as written never finishes, whatever the request budget |
| Fetchers.AsWrittenRepeats | internal/fetchers/stats.go:307-338 | the same for any answer serving the example's two pages |
| Fetchers.CorrectedFinishes | internal/fetchers/stats.go:307-308 | with the corrected merge, the two-page example finishes after two requests with both pages' nodes |
| Fetchers.CorrectedTwoPages | internal/fetchers/stats.go:307-308 | the same for any answer serving the example's two pages |
| Fetchers.RestVerdict | internal/fetchers/stats.go:371-384 | a transport error stops with that error; a REST message skips the key exactly when it lower-cases to "bad credentials" or the suspension text, and any other message stops with it; a response stops with that response (no rate-limit check) |
| Fetchers.RestSkipsLikeGraphQL | internal/fetchers/stats.go:377-379 | the REST failover skips exactly the credential failures the GraphQL failover skips |
| Fetchers.RestVerdicts | internal/fetchers/stats.go:369-385 | one verdict per key, in order, for the commit search made with that key's untrimmed token |
| Fetchers.RetryRest | internal/fetchers/stats.go:363-388 | no key gives NO_TOKENS; otherwise the first key not skipped decides, and every key skipped gives MAX_RETRY |
| Fetchers.TotalCommitsFetcher | internal/fetchers/stats.go:352-361 | a failover error is passed on; a total of 0 gives "Could not fetch total commits." (GITHUB_REST_API_ERROR); otherwise the positive total is the result |
| Fetchers.FmtDateYear | internal/fetchers/stats.go:390-392 | the text ends in "-01-01T00:00:00Z" and its year part parses back to the year |
| Fetchers.GraphQLErrorFor | internal/fetchers/stats.go:164-173 | NOT_FOUND gives USER_NOT_FOUND with the upstream message; any other type gives GRAPHQL_ERROR with the upstream message, or the fixed generic text when that message is empty |
| Fetchers.StarTotalAppend | internal/fetchers/stats.go:223-230 | star totals add up over concatenated pages |
| Fetchers.StarTotalExclusionMonotone | internal/fetchers/stats.go:216-230 | excluding more repositories never raises the total |
| Fetchers.StarTotalUnlisted | internal/fetchers/stats.go:216-230 | excluding a name that no repository has changes nothing |
| Fetchers.MergedPercentage | internal/fetchers/stats.go:199-204 | 0 unless merged pull requests are asked for and there are pull requests; within [0, 100] when the merged count does not exceed the total; 100 when every pull request is merged |
| Fetchers.ArgsFor | internal/fetchers/stats.go:154-157 | a start time is passed exactly when a commits year is given |
| Fetchers.CollectExcluded | internal/fetchers/stats.go:216-221 | the set-building loop holds exactly the listed names |
| Fetchers.SumStars | internal/fetchers/stats.go:223-230 | the summing loop gives the stars of the nodes whose name is not excluded (exact, case-sensitive names) |
| Fetchers.AssembleStats | internal/fetchers/stats.go:180-242 | with all commits counted, the result succeeds exactly when the REST total is positive, takes that total, and passes on its error; otherwise the commit count is the GraphQL one; the name falls back to the login, issues are open plus closed, merged and discussion counters are 0 unless asked for, stars exclude the caller's and EXCLUDE_REPO's names, and the rank is computed from these counters |
| Fetchers.FetchStats | internal/fetchers/stats.go:149-243 | an empty username gives MissingParamError(["username"]) before any request; a fetch error is passed on; a first GraphQL error is translated; otherwise the stats record is assembled from the payload as AssembleStats states |
| StatsCard.Apostrophe | internal/cards/stats.go:111-114 | the possessive suffix is empty exactly when the trimmed, lower-cased name ends in "s", and "'" otherwise |
| StatsCard.ContainsExact | internal/cards/stats.go:531-538 | membership is exact, case-sensitive equality: the list holds the target itself |
| StatsCard.ClampPrecision | internal/cards/stats.go:544-550 | no precision gives 2; a given precision is clamped into [0, 2] |
| StatsCard.TotalCommitsYearLabel | internal/cards/stats.go:521-529 | counting all commits gives ""; a given year gives " (year)"; otherwise " (" + the last-year translation + ")" |
| StatsCard.BorderOpacity | internal/cards/stats.go:418-423 | 0 exactly when the border is hidden, 1 otherwise |
| StatsCard.Entry | internal/cards/stats.go:128-209 | each stat is stored under its own key; the commits label carries the year label; only the merged-percentage stat carries the "%" unit and the formatted percentage |
| StatsCard.StatMap | internal/cards/stats.go:127-209 | stars, commits, prs, issues and contribs are always present; each optional stat is present exactly when `Show` names it exactly; nothing else is present |
| StatsCard.Visible | internal/cards/stats.go:213-220 | the shown keys are present in the map and not hidden, and there are no more of them than keys |
| StatsCard.VisibleStep | internal/cards/stats.go:213-231 | one more key extends the shown keys by that key exactly when it is present and not hidden |
| StatsCard.VisibleMembers | internal/cards/stats.go:213-220 | a key is shown exactly when it is in the key order, present in the map and not hidden |
| StatsCard.VisiblePositions | internal/cards/stats.go:213-231 | the shown keys keep the order of the key order: their positions in it strictly increase |
| StatsCard.ApplyNumberFormat | internal/cards/stats.go:552-568 | the merged percentage and the "long" format (any letter case) keep the raw value; every other format, an empty one included, k-formats it |
| StatsCard.Place | internal/cards/stats.go:221-229 | a placed stat keeps its key and label, takes its index, a delay of (index + 3) * 150 ms, a value shift of 79.01 (129.01 for long locales) and a value position 120 or, with icons, 140 beyond that shift |
| StatsCard.PlaceStats | internal/cards/stats.go:211-231 | the loop places exactly the shown stats, in key order, with consecutive indices from 0 |
| StatsCard.GoDiv | internal/cards/stats.go:497-502 | integer division truncating toward zero, as Go's `/` does for negative operands |
| StatsCard.LineHeight | internal/cards/stats.go:93-96 | a line height of 0 becomes 25, any other is kept |
| StatsCard.BaseHeight | internal/cards/stats.go:237-244 | with lines = 45 + (n + 1) * lineHeight, the height is max(lines, 0) without the rank, max(lines, 150) with the rank and some stat, and max(lines, 180) for a rank-only card |
| StatsCard.BaseHeightMonotone | internal/cards/stats.go:237-244 | with a non-negative line height, more stats never make the card shorter (except when leaving the rank-only case) |
| StatsCard.RankOnlyCardIsTaller | internal/cards/stats.go:237-244 | with the default line height, a rank-only card (180) is taller than a card with one stat (150) |
| StatsCard.RenderHeight | internal/cards/stats.go:246-252 | hiding the title takes 30 off the height, floored at 0 |
| StatsCard.IconWidth | internal/cards/stats.go:265-268 | 17 exactly when icons are on and some stat is shown, 0 otherwise |
| StatsCard.MinCardWidth | internal/cards/stats.go:270-277 | without the rank, the larger of 287 and the title width, plus the icon room; with the rank 420, or 290 for a rank-only card, plus the icon room |
| StatsCard.DefaultCardWidth | internal/cards/stats.go:279-286 | 287 without the rank, 450 with the rank and stats, 290 for a rank-only card, plus the icon room |
| StatsCard.CardWidth | internal/cards/stats.go:288-294 | the width is never below the minimum; a requested width at or above the minimum is kept; no request gives the default when it meets the minimum |
| StatsCard.DefaultWidthWithRank | internal/cards/stats.go:270-294 | with the rank shown and no width requested, the card gets its default width exactly |
| StatsCard.RankXTranslation | internal/cards/stats.go:493-503 | with stats the circle sits at 350 plus the icon room plus half the extra width (truncated), up to the 450 default, and then moves with the width one for one; without stats it sits at half the width plus 10 |
| StatsCard.RankXMonotone | internal/cards/stats.go:493-503 | on the narrowest card the circle sits at 350 plus the icon room, and it never moves left as the card widens |
| StatsCard.GradientOffsets | internal/cards/stats.go:511-515 | the stop offsets start at 0, never decrease, stay within [0, 100] and end at 100 when there are more than two entries |
| StatsCard.GradientStops | internal/cards/stats.go:510-517 | one stop per colour after the angle, the i-th at offset i * 100 / (n - 2), or 0 when n is 2 |
| StatsCard.RenderGradient | internal/cards/stats.go:505-519 | fewer than two entries give ""; otherwise the rotation by the angle and, from the loop, one stop per remaining colour |
| StatsCard.BuildAccessibilityLabels | internal/cards/stats.go:570-587 | the loop labels exactly the shown stats, in key order, the commits label rebuilt with " : " and the others as "label: value", joined by ", " |
| StatsCard.TitleText | internal/cards/stats.go:257-263 | a custom title wins; otherwise the stats title, or the rank title when no stat is shown |
| StatsCard.CardGeometry | internal/cards/stats.go:237-303 | the rendered height is never negative, and the rank circle is placed exactly when the rank is not hidden |
| StatsCard.CardBackground | internal/cards/stats.go:307-312 | a background gradient fills with "url(#gradient)" and renders its definitions; otherwise the background colour fills and there are no definitions |
| StatsCard.RenderStatsCard | internal/cards/stats.go:92-335 | a colour error is returned as is; otherwise CardComposed holds for the resolved colours, the card's translator and its stat table: no shown stat with the rank hidden gives "Could not render stats card." / "Either stats or rank are required."; otherwise the card places exactly the shown stats in order, with the modelled height, width, rank position, title, accessibility title (title + ", Rank: " + level) and labels, border opacity, resolved border and title colours, and background |
| StatsCard.ComposeCard | internal/cards/stats.go:211-335 | once the colours, translator and stat table are known, the card is built exactly as CardComposed describes: no card without stats and rank, otherwise the shown stats placed in order with the geometry, titles, labels, border and background |
| CardHandlers.BoolValue | internal/handlers/cards.go:204-209 | an absent boolean reads as false, a present one as itself |
| CardHandlers.ParseIntDefault | internal/handlers/cards.go:211-217 | the parsed integer when the text parses, 0 otherwise (the empty text included) |
| CardHandlers.ShowFlagsOf | internal/handlers/cards.go:50-54 | merged pull requests are fetched exactly when `show` lists "prs_merged" or "prs_merged_percentage", and each discussion counter exactly when its own entry is listed, compared exactly |
| CardHandlers.ShowFlagsAreCaseSensitive | internal/handlers/cards.go:227-234 | differently cased entries switch no flag on |
| CardHandlers.OptionalInt | internal/handlers/cards.go:56-59 | an optional integer parameter is present exactly when it parses, with the parsed value |
| CardHandlers.TextBold | internal/handlers/cards.go:108-111 | text_bold is true unless a boolean is given, and then it is that boolean |
| CardHandlers.FetchOptions | internal/handlers/cards.go:50-69 | the fetcher gets the parsed exclude_repo list, include_all_commits only when it parses as true, the merged and discussion flags derived from `show`, and commits_year only when it parses |
| CardHandlers.CardOptions | internal/handlers/cards.go:101-145 | the renderer gets the parsed hide and show lists, card_width and line_height as integers defaulting to 0, text_bold defaulting to true, hide_rank only when it parses as true, number_precision and commits_year only when they parse, and the lower-cased locale |
| CardHandlers.CacheHeaders | internal/handlers/cards.go:236-243 | the no-cache header trio exactly when the lifetime is below 1 or NODE_ENV is "development" in any letter case; otherwise a single Cache-Control of max-age and s-maxage set to the lifetime and stale-while-revalidate=86400 |
| CardHandlers.ErrorCacheHeaders | internal/handlers/cards.go:245-258 | the no-cache trio exactly when CACHE_SECONDS parses (after trimming) to a value below 1 or NODE_ENV is "development"; otherwise the 600-second error lifetime |
| CardHandlers.ErrorCacheIgnoresPositiveSetting | internal/handlers/cards.go:245-258 | a positive CACHE_SECONDS does not change the 600-second error lifetime |
| CardHandlers.FetchErrorIssueLink | internal/handlers/cards.go:70-90 | a missing-parameter error card never links to the issue tracker; any other fetch error links to it exactly when its secondary message does not blame the upstream API |

## Left out

- HTTP, timeouts and JSON decoding: `internal/github/client.go`, `graphql.go` and `rest.go` are not
  part of this model. `DoGraphQL`, `QueryRateLimit` and the commit search are parameters returning a
  `Call`, and an empty `data` payload is `None`.
- JSON marshalling inside `mergeGraphQL` and `statsFetcher`, and their unmarshal/marshal failure
  branches: pages are records, so those branches cannot arise.
- viper, `os.Environ` and `config.Load`: a `Config` value. `FETCH_MULTI_PAGE_STARS`,
  `CACHE_SECONDS`, `NODE_ENV`, the whitelists and `EXCLUDE_REPO` are read through its `setting`.
- The `Blacklist` table and the locale tables (`IsLocaleAvailable`, the stat-card and wakatime
  translations) are not in the modelled files, so they are parameters.
- Floating point is modelled as `real`, without rounding, NaN or infinities. `ClampValue`'s NaN
  case is an explicit `NaN` value of the number datatype.
- `math.Pow(2, -x)` in `exponentialCDF`: a parameter `pow` with the properties `Ranking.IsPow2Neg`
  lists (1 at 0, within (0, 1], non-increasing).
- `MeasureText`, `KFormatter`, `ParseFloat`, `parseFloatDefault` (`border_radius`),
  `calculateCircleProgress`, `%.*f` and `%g` formatting, `getStyles`: parameters of the card
  renderer or left out. The query values `border_radius`, `disable_animations` and `rank_icon` only
  reach the SVG text, so they are left out.
- SVG and HTML templates (`renderCard`, `renderStatItem`, the error card's markup): the model stops
  at the values handed to the templates.
- The gin plumbing of `Stats`, `StatusUp` and `PATInfo` (headers written to the context, status
  codes, response bodies), `internal/server/router.go` and `cmd/server/main.go`: the model
  computes the values they send.
- `log.Printf` in the retry loops: no effect on results.
- The wall clock in `resetIn`: `minutesUntil` is a parameter standing for parsing the reset time
  and rounding the minutes left.
- `internal/common/themes.go` is a data table: only the default theme is modelled, so every other
  theme name falls back to it.
- `strings.ToLower`, `ToUpper` and `EqualFold` fold ASCII letters only. Lengths count characters,
  not UTF-8 bytes.
- Go's `int` is unbounded here: counters are `nat` or `int` without 64-bit overflow. `ParseInt`
  does check the 64-bit range, as `strconv.Atoi` does.
- StatsFetcher (`Fetchers.StatsFetcher`): the Go loop has no bound on its page requests. The model
  takes a budget `maxRequests` and reports `OutOfRequests` when it is exhausted, so it says nothing
  about runs longer than the budget.
- FetchPage (`Fetchers.FetchPage`): the merge is a parameter `rule`; with `KeepFirstPageInfo` it is
  `mergeGraphQL` as written, and the ghost budget only relates the step to the run's definition.
- FetchStats (`Fetchers.FetchStats`): runs `Fetchers.StatsFetcher` with the corrected merge
  `AdoptLatestPageInfo` rather than `mergeGraphQL` as written (see Findings), within the request
  budget.
- `LowercaseTrim` and `ParseFloat` (`internal/common/ops.go:63-76`): outside the modelled paths;
  `ParseFloat` only feeds `border_radius`, which reaches the SVG text alone.
- The order of the stats handler's steps (access guard, the unknown-locale error card, fetch,
  render) is not modelled as one function; each step is modelled on its own (`Access.GuardAccess`,
  `CardHandlers.FetchOptions`, `CardHandlers.CardOptions`, `CardHandlers.FetchErrorIssueLink`,
  `Cache.ResolveCacheSeconds`, `CardHandlers.CacheHeaders`).
- Request concurrency belongs to gin; the core has none.

## Findings

| source | as written | input that shows it | evidently intended | confidence | as-written member | corrected member |
|---|---|---|---|---|---|---|
| internal/fetchers/stats.go:314-339 | `mergeGraphQL` appends the next page's nodes but keeps the first page's `pageInfo`, so `statsFetcher` (lines 307-308) requests the page after cursor "c1" again and again, and `hasNextPage` stays true | `FETCH_MULTI_PAGE_STARS=true`, one token, a first page whose nodes all have stars with `hasNextPage` true and cursor "c1", and a second page (after "c1") with `hasNextPage` false | adopt the latest page's `pageInfo`, so the loop advances and stops after the second page | not executed | Fetchers.AsWrittenNeverFinishes | Fetchers.CorrectedFinishes |
