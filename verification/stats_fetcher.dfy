/** internal/fetchers/stats.go: the paginated GraphQL fetch of a user's statistics, the
    merge of the pages, the REST commit-count fallback and the assembly of the stats record. */
module Fetchers {
  import opened Wrappers
  import opened Text
  import opened Errors
  import opened Envs
  import opened GitHub
  import opened Failover
  import Ops
  import Pat
  import Retryer
  import Ranking

  // ---------------------------------------------------------------- decoded payload

  /** One repository node of the `repositories` connection. */
  datatype RepoNode = RepoNode(name: string, stars: nat)

  datatype PageInfo = PageInfo(hasNextPage: bool, endCursor: string)

  /** The `user` object of the stats query (graphQLUser); every count is a `totalCount`. */
  datatype UserData = UserData(
    name: string, login: string,
    commits: nat, reviews: nat, contributedTo: nat, prs: nat, mergedPrs: nat,
    openIssues: nat, closedIssues: nat, followers: nat,
    discussions: nat, discussionAnswers: nat,
    nodes: seq<RepoNode>, pageInfo: PageInfo)

  type StatsResponse = GraphQLResponse<UserData>

  /** The response statsFetcher starts from: no data and no errors. */
  const EmptyResponse: StatsResponse := GraphQLResponse(None, [])

  /** The message encoding/json gives for an empty payload. */
  const UnexpectedEnd := "unexpected end of JSON input"

  // ---------------------------------------------------------------- requests

  /** The first page uses the full stats query; later pages only the repositories query. */
  datatype QueryKind = StatsQuery | ReposQuery

  /** The arguments statsFetcher receives. */
  datatype FetchArgs = FetchArgs(login: string, includeMergedPrs: bool, includeDiscussions: bool,
                                 includeDiscussionAnswers: bool, startTime: string)

  /** One GraphQL request: the query and its variables (`first` is always 100). */
  datatype StatsRequest = StatsRequest(query: QueryKind, login: string, after: Option<string>,
                                       includeMergedPrs: bool, includeDiscussions: bool,
                                       includeDiscussionAnswers: bool, startTime: Option<string>)

  /** The request statsFetcher builds for the current end cursor. */
  function Request(args: FetchArgs, endCursor: string): (req: StatsRequest)
    ensures req.after.None? <==> endCursor == ""
    ensures req.after.Some? ==> req.after.value == endCursor
    ensures req.query == ReposQuery <==> endCursor != ""
    ensures req.startTime.None? <==> args.startTime == ""
    ensures req.login == args.login
  {
    StatsRequest(if endCursor != "" then ReposQuery else StatsQuery, args.login,
                 if endCursor != "" then Some(endCursor) else None,
                 args.includeMergedPrs, args.includeDiscussions, args.includeDiscussionAnswers,
                 if args.startTime != "" then Some(args.startTime) else None)
  }

  // ---------------------------------------------------------------- merging pages

  /** mergeGraphQL as written: the later page's nodes are appended and everything else,
      pageInfo included, is kept from `base`. */
  function MergeGraphQL(base: StatsResponse, next: StatsResponse): (r: StatsResponse)
    ensures base.data.None? ==> r == next
    ensures base.data.Some? && next.data.None? ==> r == base
    ensures base.data.Some? && next.data.Some? ==>
      r.errors == base.errors && r.data.Some?
      && r.data.value.nodes == base.data.value.nodes + next.data.value.nodes
      && r.data.value.pageInfo == base.data.value.pageInfo
  {
    if base.data.None? then next
    else if next.data.None? then base
    else base.(data := Some(base.data.value.(nodes := base.data.value.nodes + next.data.value.nodes)))
  }

  /** The merge statsFetcher needs: as MergeGraphQL, but the cursor information is the
      latest page's, so the next request continues after the page just read. */
  function MergeGraphQLLatest(base: StatsResponse, next: StatsResponse): (r: StatsResponse)
    ensures base.data.None? ==> r == next
    ensures base.data.Some? && next.data.None? ==> r == base
    ensures base.data.Some? && next.data.Some? ==>
      r.errors == base.errors && r.data.Some?
      && r.data.value.nodes == base.data.value.nodes + next.data.value.nodes
      && r.data.value.pageInfo == next.data.value.pageInfo
  {
    if base.data.None? then next
    else if next.data.None? then base
    else base.(data := Some(base.data.value.(nodes := base.data.value.nodes + next.data.value.nodes,
                                               pageInfo := next.data.value.pageInfo)))
  }

  datatype MergeRule = KeepFirstPageInfo | AdoptLatestPageInfo

  function Merge(rule: MergeRule, base: StatsResponse, next: StatsResponse): StatsResponse {
    match rule
    case KeepFirstPageInfo => MergeGraphQL(base, next)
    case AdoptLatestPageInfo => MergeGraphQLLatest(base, next)
  }

  /** isRateLimitedGraphQL: the same test as isRateLimited on the response's errors. */
  function IsRateLimitedGraphQL(resp: StatsResponse): (r: bool)
    ensures |resp.errors| == 0 ==> !r
    ensures |resp.errors| > 0 && resp.errors[0].kind == "RATE_LIMITED" ==> r
    ensures |resp.errors| > 0 && resp.errors[0].kind != "RATE_LIMITED" ==>
      (r <==> Contains(ToLower(resp.errors[0].message), "rate limit"))
  {
    Pat.IsRateLimited(resp.errors)
  }

  // ---------------------------------------------------------------- pagination

  /** How many nodes have a non-zero star count. */
  function StarredCount(nodes: seq<RepoNode>): (n: nat)
    ensures n <= |nodes|
  {
    if |nodes| == 0 then 0
    else StarredCount(nodes[..|nodes| - 1]) + (if nodes[|nodes| - 1].stars != 0 then 1 else 0)
  }

  /** The counting loop of statsFetcher. */
  method CountStarred(nodes: seq<RepoNode>) returns (count: nat)
    ensures count == StarredCount(nodes)
    ensures count == |nodes| <==> forall i :: 0 <= i < |nodes| ==> nodes[i].stars != 0
  {
    count := 0;
    var i := 0;
    while i < |nodes|
      invariant 0 <= i <= |nodes|
      invariant count == StarredCount(nodes[..i])
    {
      assert nodes[..i + 1][..i] == nodes[..i];
      if nodes[i].stars != 0 {
        count := count + 1;
      }
      i := i + 1;
    }
    assert nodes[..i] == nodes;
    AllStarred(nodes);
  }

  /** Every node is counted exactly when every node has stars. */
  lemma {:induction false} AllStarred(nodes: seq<RepoNode>)
    ensures StarredCount(nodes) == |nodes| <==> forall i :: 0 <= i < |nodes| ==> nodes[i].stars != 0
  {
    if |nodes| > 0 {
      var init := nodes[..|nodes| - 1];
      AllStarred(init);
      if StarredCount(nodes) == |nodes| {
        forall i | 0 <= i < |nodes| ensures nodes[i].stars != 0 {
          if i < |nodes| - 1 { assert nodes[i] == init[i]; }
        }
      }
    }
  }

  /** Whether multi-page star counting is switched on (FETCH_MULTI_PAGE_STARS, any letter case). */
  predicate MultiPageStars(cfg: Config) {
    ToLower(cfg.setting("FETCH_MULTI_PAGE_STARS")) == "true"
  }

  /** Whether statsFetcher asks for another page after reading `d`; `multiPage` is the
      FETCH_MULTI_PAGE_STARS switch. */
  predicate WantsNextPage(multiPage: bool, d: UserData) {
    multiPage && |d.nodes| == StarredCount(d.nodes) && d.pageInfo.hasNextPage
  }

  // ---------------------------------------------------------------- failover errors

  /** The errors statsFetcher and totalCommitsFetcher report when the failover finds no
      token key, or when every key failed (FetcherErrors shows how they are built). */
  const NoTokensError: Error := Custom("No GitHub API tokens found", ErrorNoTokens, NoTokensHint)
  const RateLimitedError: Error := Custom("Downtime due to GitHub API rate limiting", ErrorMaxRetry, MaxRetryHint)

  /** Both errors are NewCustomError's values for their message and kind. */
  lemma FetcherErrors()
    ensures NoTokensError == NewCustomError("No GitHub API tokens found", ErrorNoTokens)
    ensures RateLimitedError == NewCustomError("Downtime due to GitHub API rate limiting", ErrorMaxRetry)
  {
  }

  /** statsFetcher's error translation for a failed failover: an error whose message mentions
      one of the failover's own two errors, in any letter case, becomes the custom error above;
      any other error is passed on unchanged. */
  function MapRetryError(e: Error): (r: Error)
    ensures r == e || r == NoTokensError || r == RateLimitedError
    ensures Contains(ToLower(e.Message()), Pat.NoTokensFound) ==> r == NoTokensError
    ensures !Contains(ToLower(e.Message()), Pat.NoTokensFound) && Contains(ToLower(e.Message()), Pat.AllTokensFailed)
            ==> r == RateLimitedError
    ensures !Contains(ToLower(e.Message()), Pat.NoTokensFound) && !Contains(ToLower(e.Message()), Pat.AllTokensFailed)
            ==> r == e
  {
    var msg := ToLower(e.Message());
    if Contains(msg, Pat.NoTokensFound) then NoTokensError
    else if Contains(msg, Pat.AllTokensFailed) then RateLimitedError
    else e
  }

  /** The failover's "no tokens" phrase is lower case and mentions itself. */
  lemma NoTokensPhrase()
    ensures ToLower(Pat.NoTokensFound) == Pat.NoTokensFound
    ensures Contains(Pat.NoTokensFound, Pat.NoTokensFound)
  {
    var none := Pat.NoTokensFound;
    assert ToLower(none) == none;
    assert IsPrefix(none, none);
  }

  /** The failover's "all tokens failed" phrase is lower case and mentions itself. */
  lemma AllTokensPhrase()
    ensures ToLower(Pat.AllTokensFailed) == Pat.AllTokensFailed
    ensures Contains(Pat.AllTokensFailed, Pat.AllTokensFailed)
  {
    var all := Pat.AllTokensFailed;
    assert ToLower(all) == all;
    assert IsPrefix(all, all);
  }

  /** The "all tokens failed" phrase does not mention the "no tokens" phrase. */
  lemma PhrasesApart()
    ensures !Contains(Pat.AllTokensFailed, Pat.NoTokensFound)
  {
    var none, all := Pat.NoTokensFound, Pat.AllTokensFailed;
    // no match at the first three positions ("all"), and after them too little is left
    assert all[..|none|][0] != none[0];
    assert all[1..][..|none|][0] != none[0];
    assert all[1..][1..][..|none|][0] != none[0];
    ContainsLength(all[1..][1..][1..], none);
  }

  /** The failover's "no tokens" error becomes NO_TOKENS. */
  lemma NoTokensTranslated()
    ensures MapRetryError(Plain(Pat.NoTokensFound)) == NoTokensError
  {
    NoTokensPhrase();
  }

  /** The failover's "all tokens failed" error becomes MAX_RETRY. */
  lemma AllTokensTranslated()
    ensures MapRetryError(Plain(Pat.AllTokensFailed)) == RateLimitedError
  {
    AllTokensPhrase();
    PhrasesApart();
  }

  /** The outcome of a fetch with a bound on the number of requests: finished with a
      result, or stopped because the bound was reached. */
  datatype Fetch<T> = Done(result: Result<T, Error>) | OutOfRequests

  /** The GraphQL upstream: a request and a token give the call's outcome. */
  type Upstream = (StatsRequest, string) -> Call<StatsResponse>

  /** What one request yields inside statsFetcher's loop: the failover's outcome with the
      error translation applied. */
  type Answer = StatsRequest -> Result<StatsResponse, Error>

  /** The answer RetryGraphQL gives for `graphql` under `cfg`, rate limits judged by
      isRateLimitedGraphQL, errors translated by MapRetryError. */
  ghost function FailoverAnswer(cfg: Config, graphql: Upstream): Answer {
    req => Translated(Retryer.RetryGraphQLOutcome(cfg, graphql, req, Some(IsRateLimitedGraphQL)))
  }

  /** FailoverAnswer applied to one request. */
  lemma FailoverAnswerApplied(cfg: Config, graphql: Upstream, req: StatsRequest)
    ensures FailoverAnswer(cfg, graphql)(req)
         == Translated(Retryer.RetryGraphQLOutcome(cfg, graphql, req, Some(IsRateLimitedGraphQL)))
  {
  }

  /** A failover result with its error, if any, translated by MapRetryError. */
  function Translated(r: Result<StatsResponse, Error>): Result<StatsResponse, Error> {
    match r
    case Failure(e) => Failure(MapRetryError(e))
    case Success(resp) => Success(resp)
  }

  /** Without any PAT_<n> key every request fails with the NO_TOKENS error. */
  lemma NoKeysNoTokensError(cfg: Config, graphql: Upstream, req: StatsRequest)
    requires Pat.MatchingKeys(cfg) == {}
    ensures FailoverAnswer(cfg, graphql)(req) == Failure(NoTokensError)
  {
    Retryer.NoKeysNoCalls(cfg, graphql, req, Some(IsRateLimitedGraphQL));
    NoTokensTranslated();
  }

  /** When every key answers "Bad credentials" every request fails with the MAX_RETRY error. */
  lemma BadCredentialsRateLimitError(cfg: Config, graphql: Upstream, req: StatsRequest)
    requires |Pat.PatKeys(cfg)| > 0
    requires forall t :: graphql(req, t).RestFailure? && Pat.IsBadCredential(graphql(req, t).message)
    ensures FailoverAnswer(cfg, graphql)(req) == Failure(RateLimitedError)
  {
    Retryer.AllBadCredentials(cfg, graphql, req, Some(IsRateLimitedGraphQL));
    AllTokensTranslated();
  }

  // ---------------------------------------------------------------- pagination

  /** After merging a page: the outcome if statsFetcher stops here, None if it asks for the next page. */
  function PageStop(multiPage: bool, merged: StatsResponse): (r: Option<Fetch<StatsResponse>>)
    ensures r.None? <==> merged.data.Some? && |merged.data.value.nodes| > 0 && WantsNextPage(multiPage, merged.data.value)
    ensures merged.data.None? ==> r == Some(Done(Failure(Plain(UnexpectedEnd))))
    ensures merged.data.Some? && r.Some? ==> r == Some(Done(Success(merged)))
  {
    if merged.data.None? then Some(Done(Failure(Plain(UnexpectedEnd))))
    else if |merged.data.value.nodes| == 0 || !WantsNextPage(multiPage, merged.data.value) then Some(Done(Success(merged)))
    else None
  }

  /** What a bounded run of statsFetcher's loop ends with: its outcome and the requests it sent. */
  datatype Run = Run(outcome: Fetch<StatsResponse>, sent: seq<StatsRequest>)

  /** The loop run from the accumulated response `acc` and cursor `endCursor` with at most
      `fuel` more requests allowed; `rule` is the merge applied to each page. */
  ghost function Paginate(rule: MergeRule, multiPage: bool, answer: Answer, args: FetchArgs,
                          acc: StatsResponse, endCursor: string, fuel: nat): (r: Run)
    ensures |r.sent| <= fuel
    ensures r.outcome.OutOfRequests? ==> |r.sent| == fuel
    ensures fuel > 0 ==> |r.sent| > 0 && r.sent[0] == Request(args, endCursor)
    decreases fuel
  {
    if fuel == 0 then Run(OutOfRequests, [])
    else
      var req := Request(args, endCursor);
      match answer(req)
      case Failure(e) => Run(Done(Failure(e)), [req])
      case Success(resp) =>
        var merged := Merge(rule, acc, resp);
        match PageStop(multiPage, merged)
        case Some(o) => Run(o, [req])
        case None =>
          var rest := Paginate(rule, multiPage, answer, args, merged, merged.data.value.pageInfo.endCursor, fuel - 1);
          Run(rest.outcome, [req] + rest.sent)
  }

  /** One step of Paginate, with the remaining budget named `more`. */
  lemma PaginateUnfold(rule: MergeRule, multiPage: bool, answer: Answer, args: FetchArgs,
                       acc: StatsResponse, endCursor: string, fuel: nat, more: nat)
    requires fuel == more + 1
    ensures var req := Request(args, endCursor);
      var run := Paginate(rule, multiPage, answer, args, acc, endCursor, fuel);
      if answer(req).Failure? then run == Run(Done(Failure(answer(req).error)), [req])
      else
        var merged := Merge(rule, acc, answer(req).value);
        if PageStop(multiPage, merged).Some? then run == Run(PageStop(multiPage, merged).value, [req])
        else
          var rest := Paginate(rule, multiPage, answer, args, merged, merged.data.value.pageInfo.endCursor, more);
          run == Run(rest.outcome, [req] + rest.sent)
  {
  }

  /** The body of statsFetcher's loop, merging pages by `rule` (KeepFirstPageInfo is mergeGraphQL as
      written): it sends `req` and either stops the run with `stop` or continues it from `merged` and
      `nextCursor`. */
  method FetchPage(rule: MergeRule, cfg: Config, graphql: Upstream, args: FetchArgs, statsResponse: StatsResponse, endCursor: string,
                   ghost fuel: nat, ghost more: nat)
    returns (req: StatsRequest, stop: Option<Fetch<StatsResponse>>, merged: StatsResponse, nextCursor: string)
    requires fuel == more + 1
    ensures req == Request(args, endCursor)
    ensures var run := Paginate(rule, MultiPageStars(cfg), FailoverAnswer(cfg, graphql), args,
                                statsResponse, endCursor, fuel);
      if stop.Some? then run == Run(stop.value, [req])
      else
        var rest := Paginate(rule, MultiPageStars(cfg), FailoverAnswer(cfg, graphql), args,
                             merged, nextCursor, more);
        run == Run(rest.outcome, [req] + rest.sent)
  {
    req := Request(args, endCursor);
    PaginateUnfold(rule, MultiPageStars(cfg), FailoverAnswer(cfg, graphql), args, statsResponse, endCursor, fuel, more);
    var resp, _ := Retryer.RetryGraphQL(cfg, graphql, req, Some(IsRateLimitedGraphQL));
    if resp.Failure? {
      return req, Some(Done(Failure(MapRetryError(resp.error)))), statsResponse, endCursor;
    }
    FailoverAnswerApplied(cfg, graphql, req);
    merged := Merge(rule, statsResponse, resp.value);
    if merged.data.None? {
      return req, Some(Done(Failure(Plain(UnexpectedEnd)))), merged, endCursor;
    }
    var repoNodes := merged.data.value.nodes;
    if |repoNodes| == 0 {
      return req, Some(Done(Success(merged))), merged, endCursor;
    }
    var nodesWithStars := CountStarred(repoNodes);
    var hasNextPage := MultiPageStars(cfg) && |repoNodes| == nodesWithStars && merged.data.value.pageInfo.hasNextPage;
    if !hasNextPage {
      return req, Some(Done(Success(merged))), merged, endCursor;
    }
    return req, None, merged, merged.data.value.pageInfo.endCursor;
  }

  /** Moving one request from the rest of a run to the requests already sent. */
  lemma SentSoFar(requests: seq<StatsRequest>, req: StatsRequest, rest: seq<StatsRequest>)
    ensures requests + ([req] + rest) == (requests + [req]) + rest
  {
  }

  /** statsFetcher, merging pages by `rule`, with at most `maxRequests` requests. */
  method StatsFetcher(rule: MergeRule, cfg: Config, graphql: Upstream, args: FetchArgs, maxRequests: nat)
    returns (outcome: Fetch<StatsResponse>, requests: seq<StatsRequest>)
    ensures Run(outcome, requests)
         == Paginate(rule, MultiPageStars(cfg), FailoverAnswer(cfg, graphql), args, EmptyResponse, "", maxRequests)
  {
    ghost var multiPage, answer := MultiPageStars(cfg), FailoverAnswer(cfg, graphql);
    var statsResponse := EmptyResponse;
    var endCursor := "";
    var left: nat := maxRequests;
    requests := [];
    ghost var whole := Paginate(rule, multiPage, answer, args, statsResponse, endCursor, left);
    while left > 0
      invariant whole.outcome == Paginate(rule, multiPage, answer, args, statsResponse, endCursor, left).outcome
      invariant whole.sent == requests + Paginate(rule, multiPage, answer, args, statsResponse, endCursor, left).sent
    {
      var more: nat := left - 1;
      var req, stop, merged, nextCursor := FetchPage(rule, cfg, graphql, args, statsResponse, endCursor, left, more);
      if stop.Some? {
        return stop.value, requests + [req];
      }
      SentSoFar(requests, req, Paginate(rule, multiPage, answer, args, merged, nextCursor, more).sent);
      requests := requests + [req];
      statsResponse, endCursor, left := merged, nextCursor, more;
    }
    return OutOfRequests, requests;
  }

  /** The first request is the full stats query without a cursor. */
  lemma FirstRequestIsStatsQuery(rule: MergeRule, multiPage: bool, answer: Answer, args: FetchArgs, fuel: nat)
    requires fuel > 0
    ensures var run := Paginate(rule, multiPage, answer, args, EmptyResponse, "", fuel);
            |run.sent| > 0 && run.sent[0].query == StatsQuery && run.sent[0].after == None
  {
  }

  /** With FETCH_MULTI_PAGE_STARS off, statsFetcher makes exactly one request, whatever the merge. */
  lemma FlagOffSingleRequest(rule: MergeRule, answer: Answer, args: FetchArgs,
                             acc: StatsResponse, endCursor: string, fuel: nat)
    requires fuel > 0
    ensures Paginate(rule, false, answer, args, acc, endCursor, fuel).outcome.Done?
    ensures Paginate(rule, false, answer, args, acc, endCursor, fuel).sent == [Request(args, endCursor)]
  {
  }

  /** A finished fetch that succeeded always carries a decoded payload. */
  lemma {:induction false} PaginateSuccessHasData(rule: MergeRule, multiPage: bool, answer: Answer, args: FetchArgs,
                                                  acc: StatsResponse, endCursor: string, fuel: nat)
    ensures var o := Paginate(rule, multiPage, answer, args, acc, endCursor, fuel).outcome;
            o.Done? && o.result.Success? ==> o.result.value.data.Some?
    decreases fuel
  {
    if fuel > 0 && answer(Request(args, endCursor)).Success? {
      var merged := Merge(rule, acc, answer(Request(args, endCursor)).value);
      if PageStop(multiPage, merged).None? {
        PaginateSuccessHasData(rule, multiPage, answer, args, merged, merged.data.value.pageInfo.endCursor, fuel - 1);
      }
    }
  }

  // ---------------------------------------------------------------- the page-cursor defect

  /** Merging keeps "every node has stars" when both parts have it. */
  lemma AllStarredAppend(a: seq<RepoNode>, b: seq<RepoNode>)
    requires StarredCount(a) == |a| && StarredCount(b) == |b|
    ensures StarredCount(a + b) == |a + b|
  {
    AllStarred(a);
    AllStarred(b);
    AllStarred(a + b);
  }

  /** With the merge as written, once the accumulated response says "more pages after c1"
      and every node has stars, each further request asks again for the page after "c1":
      the pageInfo never changes, so the loop only stops when the request budget runs out. */
  lemma {:induction false} KeepFirstRepeats(answer: Answer, args: FetchArgs,
                                            acc: StatsResponse, next: UserData, fuel: nat)
    requires acc.data.Some? && acc.data.value.pageInfo == PageInfo(true, "c1")
    requires |acc.data.value.nodes| > 0 && StarredCount(acc.data.value.nodes) == |acc.data.value.nodes|
    requires StarredCount(next.nodes) == |next.nodes|
    requires answer(Request(args, "c1")) == Success(GraphQLResponse(Some(next), []))
    ensures Paginate(KeepFirstPageInfo, true, answer, args, acc, "c1", fuel).outcome == OutOfRequests
    ensures Paginate(KeepFirstPageInfo, true, answer, args, acc, "c1", fuel).sent == seq(fuel, _ => Request(args, "c1"))
    decreases fuel
  {
    if fuel > 0 {
      var merged := MergeGraphQL(acc, GraphQLResponse(Some(next), []));
      AllStarredAppend(acc.data.value.nodes, next.nodes);
      assert PageStop(true, merged).None?;
      KeepFirstRepeats(answer, args, merged, next, fuel - 1);
      assert seq(fuel, _ => Request(args, "c1")) == [Request(args, "c1")] + seq(fuel - 1, _ => Request(args, "c1"));
    }
  }

  /** A configuration with one token key and multi-page star counting switched on. */
  function ExampleSetting(key: string): string {
    if key == "FETCH_MULTI_PAGE_STARS" then "true" else "token"
  }

  const ExampleConfig: Config := Config([], ["PAT_1"], ExampleSetting)

  const ExampleArgs: FetchArgs := FetchArgs("octocat", false, false, false, "")

  /** Two pages of one starred repository each; the first says that a page follows after "c1". */
  const FirstPage: UserData := UserData("", "octocat", 0, 0, 0, 0, 0, 0, 0, 0, 0, 0, [RepoNode("a", 1)], PageInfo(true, "c1"))
  const SecondPage: UserData := UserData("", "octocat", 0, 0, 0, 0, 0, 0, 0, 0, 0, 0, [RepoNode("b", 1)], PageInfo(false, ""))

  /** An upstream that serves SecondPage after cursor "c1" and FirstPage otherwise. */
  function ExampleUpstream(req: StatsRequest, token: string): Call<StatsResponse> {
    Answered(GraphQLResponse(Some(if req.after == Some("c1") then SecondPage else FirstPage), []))
  }

  /** Under the example configuration the failover passes the example upstream's pages through. */
  lemma ExampleAnswers()
    ensures MultiPageStars(ExampleConfig)
    ensures FailoverAnswer(ExampleConfig, ExampleUpstream)(Request(ExampleArgs, "")) == Success(GraphQLResponse(Some(FirstPage), []))
    ensures FailoverAnswer(ExampleConfig, ExampleUpstream)(Request(ExampleArgs, "c1")) == Success(GraphQLResponse(Some(SecondPage), []))
  {
    assert ToUpper("PAT_1") == "PAT_1";
    assert Pat.IsPatKey("PAT_1") by {
      assert "PAT_1"[..4] == "PAT_";
      assert "PAT_1"[4..] == "1";
    }
    assert "PAT_1" in Pat.MatchingKeys(ExampleConfig);
    Pat.HeadMember(Pat.PatKeys(ExampleConfig));
    assert ToLower("true") == "true";
    Retryer.FirstKeyAnswers(ExampleConfig, ExampleUpstream, Request(ExampleArgs, ""), Some(IsRateLimitedGraphQL),
                            GraphQLResponse(Some(FirstPage), []));
    Retryer.FirstKeyAnswers(ExampleConfig, ExampleUpstream, Request(ExampleArgs, "c1"), Some(IsRateLimitedGraphQL),
                            GraphQLResponse(Some(SecondPage), []));
  }

  /** The defect, as written: on the two-page example every request after the first repeats
      cursor "c1", so no request budget is ever enough. */
  lemma AsWrittenNeverFinishes(fuel: nat)
    ensures Paginate(KeepFirstPageInfo, MultiPageStars(ExampleConfig), FailoverAnswer(ExampleConfig, ExampleUpstream),
                     ExampleArgs, EmptyResponse, "", fuel).outcome == OutOfRequests
  {
    ExampleAnswers();
    AsWrittenRepeats(FailoverAnswer(ExampleConfig, ExampleUpstream), fuel);
  }

  /** AsWrittenNeverFinishes for any answer that serves the example's two pages. */
  lemma AsWrittenRepeats(answer: Answer, fuel: nat)
    requires answer(Request(ExampleArgs, "")) == Success(GraphQLResponse(Some(FirstPage), []))
    requires answer(Request(ExampleArgs, "c1")) == Success(GraphQLResponse(Some(SecondPage), []))
    ensures Paginate(KeepFirstPageInfo, true, answer, ExampleArgs, EmptyResponse, "", fuel).outcome == OutOfRequests
  {
    if fuel > 0 {
      var first := GraphQLResponse(Some(FirstPage), []);
      assert MergeGraphQL(EmptyResponse, first) == first;
      assert PageStop(true, first).None?;
      KeepFirstRepeats(answer, ExampleArgs, first, SecondPage, fuel - 1);
    }
  }

  /** The corrected merge reads the example's two pages with two requests and sums both. */
  lemma CorrectedFinishes(fuel: nat)
    requires fuel >= 2
    ensures Paginate(AdoptLatestPageInfo, MultiPageStars(ExampleConfig), FailoverAnswer(ExampleConfig, ExampleUpstream),
                     ExampleArgs, EmptyResponse, "", fuel)
         == Run(Done(Success(GraphQLResponse(Some(FirstPage.(nodes := [RepoNode("a", 1), RepoNode("b", 1)],
                                                              pageInfo := PageInfo(false, ""))), []))),
                [Request(ExampleArgs, ""), Request(ExampleArgs, "c1")])
  {
    ExampleAnswers();
    CorrectedTwoPages(FailoverAnswer(ExampleConfig, ExampleUpstream), fuel);
  }

  /** CorrectedFinishes for any answer that serves the example's two pages. */
  lemma CorrectedTwoPages(answer: Answer, fuel: nat)
    requires fuel >= 2
    requires answer(Request(ExampleArgs, "")) == Success(GraphQLResponse(Some(FirstPage), []))
    requires answer(Request(ExampleArgs, "c1")) == Success(GraphQLResponse(Some(SecondPage), []))
    ensures Paginate(AdoptLatestPageInfo, true, answer, ExampleArgs, EmptyResponse, "", fuel)
         == Run(Done(Success(GraphQLResponse(Some(FirstPage.(nodes := [RepoNode("a", 1), RepoNode("b", 1)],
                                                              pageInfo := PageInfo(false, ""))), []))),
                [Request(ExampleArgs, ""), Request(ExampleArgs, "c1")])
  {
    var first := GraphQLResponse(Some(FirstPage), []);
    assert PageStop(true, first).None?;
    var merged := MergeGraphQLLatest(first, GraphQLResponse(Some(SecondPage), []));
    assert merged.data.value.nodes == [RepoNode("a", 1), RepoNode("b", 1)];
    assert PageStop(true, merged) == Some(Done(Success(merged)));
  }

  // ---------------------------------------------------------------- commit-count fallback

  /** The commit-search upstream: a username and a token give the call's outcome. */
  type CommitSearch = (string, string) -> Call<RestResponse>

  /** How retryRest judges one key's commit search; the credential messages are compared
      after lower-casing. */
  function RestVerdict(call: Call<RestResponse>): (v: Verdict<Result<RestResponse, Error>>)
    ensures call.TransportFailure? ==> v == Final(Failure(Plain(call.err)))
    ensures call.RestFailure? ==>
      (v.Skip? <==> ToLower(call.message) == "bad credentials" || ToLower(call.message) == "sorry. your account was suspended.")
      && (v.Final? ==> v.outcome == Failure(Plain(call.message)))
    ensures call.Answered? ==> v == Final(Success(call.response))
  {
    match call
    case TransportFailure(e) => Final(Failure(Plain(e)))
    case RestFailure(m) =>
      var msg := ToLower(m);
      if msg == "bad credentials" || msg == "sorry. your account was suspended." then Skip
      else Final(Failure(Plain(m)))
    case Answered(resp) => Final(Success(resp))
  }

  /** The REST and GraphQL failovers pass over exactly the same credential failures. */
  lemma RestSkipsLikeGraphQL(message: string)
    ensures RestVerdict(RestFailure(message)).Skip? <==> Pat.IsBadCredential(message) || Pat.IsSuspended(message)
  {
    Pat.BadCredentialMessage(message);
    Pat.SuspendedMessage(message);
  }

  ghost function RestVerdicts(cfg: Config, search: CommitSearch, username: string, keys: seq<string>)
    : (vs: seq<Verdict<Result<RestResponse, Error>>>)
    ensures |vs| == |keys|
    ensures forall i :: 0 <= i < |keys| ==> vs[i] == RestVerdict(search(username, Pat.GetEnv(cfg, keys[i])))
  {
    seq(|keys|, i requires 0 <= i < |keys| => RestVerdict(search(username, Pat.GetEnv(cfg, keys[i]))))
  }


  /** What retryRest returns. */
  ghost function RetryRestOutcome(cfg: Config, search: CommitSearch, username: string): Result<RestResponse, Error> {
    Settle(RestVerdicts(cfg, search, username, Pat.PatKeys(cfg)), Failure(NoTokensError), Failure(RateLimitedError))
  }

  /** retryRest: the commit search with each key in turn; the token is used untrimmed. */
  method RetryRest(cfg: Config, search: CommitSearch, username: string) returns (r: Result<RestResponse, Error>)
    ensures r == RetryRestOutcome(cfg, search, username)
  {
    var keys := Pat.GetPATKeys(cfg);
    ghost var vs := RestVerdicts(cfg, search, username, keys);
    if |keys| == 0 {
      return Failure(NoTokensError);
    }
    var i := 0;
    while i < |keys|
      invariant 0 <= i <= |keys|
      invariant forall j :: 0 <= j < i ==> vs[j].Skip?
    {
      var token := Pat.GetEnv(cfg, keys[i]);
      var verdict := RestVerdict(search(username, token));
      if verdict.Final? {
        SettleAt(vs, i, Failure(NoTokensError), Failure(RateLimitedError));
        return verdict.outcome;
      }
      i := i + 1;
    }
    SettleAllSkipped(vs, Failure(NoTokensError), Failure(RateLimitedError));
    return Failure(RateLimitedError);
  }

  const NoCommitsError: Error := NewCustomError("Could not fetch total commits.", ErrorGithubRest)

  /** totalCommitsFetcher: a count of zero is reported as an error, so a success is positive. */
  method TotalCommitsFetcher(cfg: Config, search: CommitSearch, username: string) returns (r: Result<nat, Error>)
    ensures r.Success? <==> RetryRestOutcome(cfg, search, username).Success? && RetryRestOutcome(cfg, search, username).value.totalCount > 0
    ensures r.Success? ==> r.value == RetryRestOutcome(cfg, search, username).value.totalCount
    ensures RetryRestOutcome(cfg, search, username).Failure? ==> r == Failure(RetryRestOutcome(cfg, search, username).error)
    ensures RetryRestOutcome(cfg, search, username) == Success(RestResponse(0)) ==> r == Failure(NoCommitsError)
  {
    var resp := RetryRest(cfg, search, username);
    if resp.Failure? {
      return Failure(resp.error);
    }
    if resp.value.totalCount == 0 {
      return Failure(NoCommitsError);
    }
    return Success(resp.value.totalCount);
  }

  /** fmtDateYear: the first instant of a year, in the DateTime format the query expects. */
  function FmtDateYear(year: int): (r: string)
    ensures HasSuffix(r, "-01-01T00:00:00Z")
    ensures Ops.Int64Min <= year <= Ops.Int64Max ==> Ops.ParseInt(r[..|r| - 16]) == (year, true)
  {
    var r := FormatInt(year) + "-01-01T00:00:00Z";
    assert r[..|r| - 16] == FormatInt(year);
    assert Ops.Int64Min <= year <= Ops.Int64Max ==> Ops.ParseInt(FormatInt(year)) == (year, true) by {
      if Ops.Int64Min <= year <= Ops.Int64Max {
        Ops.ParseIntFormatInt(year);
      }
    }
    r
  }

  // ---------------------------------------------------------------- assembling the stats

  /** StatsData: what FetchStats hands to the card renderer. */
  datatype StatsData = StatsData(
    name: string, totalStars: nat, totalCommits: nat, totalIssues: nat, totalPrs: nat,
    totalPrsMerged: nat, mergedPrsPercentage: real, totalReviews: nat,
    totalDiscussionsStarted: nat, totalDiscussionsAnswered: nat, contributedTo: nat,
    rank: Ranking.Rank)

  const GenericGraphQLMessage := "Something went wrong while trying to retrieve the stats data using the GraphQL API."

  /** FetchStats's translation of the first GraphQL error of the response. */
  function GraphQLErrorFor(err: GraphQLError): (e: Error)
    ensures e.Custom?
    ensures e.kind == ErrorUserNotFound <==> err.kind == "NOT_FOUND"
    ensures e.kind != ErrorUserNotFound ==> e.kind == ErrorGraphQL && e.secondary == TryAgainLater
    ensures e.kind == ErrorUserNotFound ==> e.secondary == UserNotFoundHint
    ensures e.Message() == (if err.kind == "NOT_FOUND" || err.message != "" then err.message else GenericGraphQLMessage)
  {
    if err.kind == "NOT_FOUND" then NewCustomError(err.message, ErrorUserNotFound)
    else if err.message != "" then NewCustomError(err.message, ErrorGraphQL)
    else NewCustomError(GenericGraphQLMessage, ErrorGraphQL)
  }

  /** The stars of the nodes whose name is not excluded (exact, case-sensitive names). */
  function StarTotal(nodes: seq<RepoNode>, excluded: set<string>): nat {
    if |nodes| == 0 then 0
    else StarTotal(nodes[..|nodes| - 1], excluded)
         + (if nodes[|nodes| - 1].name in excluded then 0 else nodes[|nodes| - 1].stars)
  }

  /** Star totals add up over concatenated pages. */
  lemma {:induction false} StarTotalAppend(a: seq<RepoNode>, b: seq<RepoNode>, excluded: set<string>)
    ensures StarTotal(a + b, excluded) == StarTotal(a, excluded) + StarTotal(b, excluded)
    decreases |b|
  {
    if |b| > 0 {
      assert (a + b)[..|a + b| - 1] == a + b[..|b| - 1];
      StarTotalAppend(a, b[..|b| - 1], excluded);
    } else {
      assert a + b == a;
    }
  }

  /** Excluding more repositories never raises the total. */
  lemma {:induction false} StarTotalExclusionMonotone(nodes: seq<RepoNode>, fewer: set<string>, more: set<string>)
    requires fewer <= more
    ensures StarTotal(nodes, more) <= StarTotal(nodes, fewer)
    decreases |nodes|
  {
    if |nodes| > 0 {
      StarTotalExclusionMonotone(nodes[..|nodes| - 1], fewer, more);
    }
  }

  /** Excluding a name that no node carries changes nothing. */
  lemma {:induction false} StarTotalUnlisted(nodes: seq<RepoNode>, excluded: set<string>, name: string)
    requires forall i :: 0 <= i < |nodes| ==> nodes[i].name != name
    ensures StarTotal(nodes, excluded + {name}) == StarTotal(nodes, excluded)
    decreases |nodes|
  {
    if |nodes| > 0 {
      StarTotalUnlisted(nodes[..|nodes| - 1], excluded, name);
    }
  }

  /** The merged-PR share in percent, computed only when asked for and when there are PRs. */
  function MergedPercentage(includeMergedPrs: bool, merged: nat, prs: nat): (p: real)
    ensures !includeMergedPrs || prs == 0 ==> p == 0.0
    ensures merged <= prs ==> 0.0 <= p <= 100.0
    ensures includeMergedPrs && prs > 0 && merged == prs ==> p == 100.0
  {
    if includeMergedPrs && prs > 0 then (merged as real / prs as real) * 100.0 else 0.0
  }

  /** The names excluded from the star total: the caller's list and EXCLUDE_REPO. */
  function ExcludedNames(excludeRepo: seq<string>, cfg: Config): set<string> {
    set name | name in excludeRepo + ExcludeRepositories(cfg)
  }

  /** The arguments FetchStats passes to statsFetcher. */
  function ArgsFor(username: string, includeMergedPrs: bool, includeDiscussions: bool,
                   includeDiscussionAnswers: bool, commitsYear: Option<int>): (a: FetchArgs)
    ensures a.startTime == "" <==> commitsYear.None?
  {
    FetchArgs(username, includeMergedPrs, includeDiscussions, includeDiscussionAnswers,
              match commitsYear case None => "" case Some(y) => FmtDateYear(y))
  }

  /** The options of one FetchStats call. */
  datatype StatsOptions = StatsOptions(includeAllCommits: bool, excludeRepo: seq<string>, includeMergedPrs: bool,
                                       includeDiscussions: bool, includeDiscussionAnswers: bool, commitsYear: Option<int>)

  /** How the stats record is derived from the user payload `u`, given the commit count used. */
  ghost predicate Assembled(st: StatsData, u: UserData, cfg: Config, pow: real -> real, opts: StatsOptions)
  {
    st.name == (if u.name == "" then u.login else u.name)
    && st.totalStars == StarTotal(u.nodes, ExcludedNames(opts.excludeRepo, cfg))
    && st.totalPrs == u.prs
    && st.totalPrsMerged == (if opts.includeMergedPrs then u.mergedPrs else 0)
    && st.mergedPrsPercentage == MergedPercentage(opts.includeMergedPrs, u.mergedPrs, u.prs)
    && st.totalReviews == u.reviews
    && st.totalIssues == u.openIssues + u.closedIssues
    && st.totalDiscussionsStarted == (if opts.includeDiscussions then u.discussions else 0)
    && st.totalDiscussionsAnswered == (if opts.includeDiscussionAnswers then u.discussionAnswers else 0)
    && st.contributedTo == u.contributedTo
    && st.rank.percentile == Ranking.Percentile(pow, opts.includeAllCommits, st.totalCommits, st.totalPrs,
                                                st.totalIssues, st.totalReviews, st.totalStars, u.followers)
    && st.rank.level == Ranking.Levels[Ranking.LevelIndex(st.rank.percentile)]
  }

  /** The set-building loop of FetchStats. */
  method CollectExcluded(excluded: seq<string>) returns (excludedSet: set<string>)
    ensures forall name :: name in excludedSet <==> name in excluded
  {
    excludedSet := {};
    var i := 0;
    while i < |excluded|
      invariant 0 <= i <= |excluded|
      invariant forall name :: name in excludedSet <==> name in excluded[..i]
    {
      assert excluded[..i + 1] == excluded[..i] + [excluded[i]];
      excludedSet := excludedSet + {excluded[i]};
      i := i + 1;
    }
    assert excluded[..i] == excluded;
  }

  /** The star-summing loop of FetchStats. */
  method SumStars(nodes: seq<RepoNode>, excludedSet: set<string>) returns (totalStars: nat)
    ensures totalStars == StarTotal(nodes, excludedSet)
  {
    totalStars := 0;
    var i := 0;
    while i < |nodes|
      invariant 0 <= i <= |nodes|
      invariant totalStars == StarTotal(nodes[..i], excludedSet)
    {
      assert nodes[..i + 1][..i] == nodes[..i];
      if nodes[i].name !in excludedSet {
        totalStars := totalStars + nodes[i].stars;
      }
      i := i + 1;
    }
    assert nodes[..i] == nodes;
  }

  /** The part of FetchStats after a clean response: the record built from the payload `u`. */
  method AssembleStats(cfg: Config, search: CommitSearch, pow: real -> real, username: string,
                       u: UserData, opts: StatsOptions) returns (r: Result<StatsData, Error>)
    requires Ranking.IsPow2Neg(pow)
    ensures opts.includeAllCommits ==> (r.Success? <==> TotalCommitsOutcomeOk(cfg, search, username))
    ensures opts.includeAllCommits && RetryRestOutcome(cfg, search, username).Failure? ==>
              r == Failure(RetryRestOutcome(cfg, search, username).error)
    ensures !opts.includeAllCommits ==> r.Success? && r.value.totalCommits == u.commits
    ensures opts.includeAllCommits && r.Success? ==> r.value.totalCommits == RetryRestOutcome(cfg, search, username).value.totalCount
    ensures r.Success? ==> Assembled(r.value, u, cfg, pow, opts)
  {
    var name := if u.name == "" then u.login else u.name;
    var totalCommits := u.commits;
    if opts.includeAllCommits {
      var commits := TotalCommitsFetcher(cfg, search, username);
      if commits.Failure? {
        return Failure(commits.error);
      }
      totalCommits := commits.value;
    }
    var totalPrs := u.prs;
    var totalPrsMerged := 0;
    var mergedPrsPercentage := 0.0;
    if opts.includeMergedPrs {
      totalPrsMerged := u.mergedPrs;
      if totalPrs > 0 {
        mergedPrsPercentage := (totalPrsMerged as real / totalPrs as real) * 100.0;
      }
    }
    var totalIssues := u.openIssues + u.closedIssues;
    var discussionsStarted := if opts.includeDiscussions then u.discussions else 0;
    var discussionsAnswered := if opts.includeDiscussionAnswers then u.discussionAnswers else 0;
    var excludedSet := CollectExcluded(opts.excludeRepo + ExcludeRepositories(cfg));
    assert excludedSet == ExcludedNames(opts.excludeRepo, cfg);
    var totalStars := SumStars(u.nodes, excludedSet);
    var rank := Ranking.CalculateRank(pow, opts.includeAllCommits, totalCommits, totalPrs, totalIssues,
                                      u.reviews, totalStars, u.followers);
    return Success(StatsData(name, totalStars, totalCommits, totalIssues, totalPrs, totalPrsMerged,
                             mergedPrsPercentage, u.reviews, discussionsStarted, discussionsAnswered,
                             u.contributedTo, rank));
  }

  /** Whether the all-commits lookup yields a count. */
  ghost predicate TotalCommitsOutcomeOk(cfg: Config, search: CommitSearch, username: string) {
    RetryRestOutcome(cfg, search, username).Success? && RetryRestOutcome(cfg, search, username).value.totalCount > 0
  }

  /** The outcome of statsFetcher inside FetchStats. */
  ghost function StatsPages(cfg: Config, graphql: Upstream, username: string, opts: StatsOptions, maxRequests: nat): Fetch<StatsResponse> {
    Paginate(AdoptLatestPageInfo, MultiPageStars(cfg), FailoverAnswer(cfg, graphql),
             ArgsFor(username, opts.includeMergedPrs, opts.includeDiscussions, opts.includeDiscussionAnswers, opts.commitsYear),
             EmptyResponse, "", maxRequests).outcome
  }

  /** FetchStats. `graphql` and `search` are the upstream calls, `pow` stands for
      math.Pow(2, -x) in the rank, and at most `maxRequests` GraphQL pages are requested. */
  method FetchStats(cfg: Config, graphql: Upstream, search: CommitSearch, pow: real -> real,
                    username: string, opts: StatsOptions, maxRequests: nat)
    returns (r: Fetch<StatsData>)
    requires Ranking.IsPow2Neg(pow)
    ensures username == "" ==> r == Done(Failure(MissingParam(["username"], "")))
    ensures username != "" && StatsPages(cfg, graphql, username, opts, maxRequests).OutOfRequests? ==> r == OutOfRequests
    ensures username != "" && StatsPages(cfg, graphql, username, opts, maxRequests).Done? ==>
      var res := StatsPages(cfg, graphql, username, opts, maxRequests).result;
      r.Done?
      && (res.Failure? ==> r.result == Failure(res.error))
      && (res.Success? && |res.value.errors| > 0 ==> r.result == Failure(GraphQLErrorFor(res.value.errors[0])))
      && (res.Success? && |res.value.errors| == 0 ==>
            res.value.data.Some?
            && (opts.includeAllCommits ==> (r.result.Success? <==> TotalCommitsOutcomeOk(cfg, search, username)))
            && (!opts.includeAllCommits ==> r.result.Success? && r.result.value.totalCommits == res.value.data.value.commits)
            && (r.result.Success? ==> Assembled(r.result.value, res.value.data.value, cfg, pow, opts)))
  {
    if username == "" {
      return Done(Failure(MissingParam(["username"], "")));
    }
    var startTime := "";
    if opts.commitsYear.Some? {
      startTime := FmtDateYear(opts.commitsYear.value);
    }
    var args := FetchArgs(username, opts.includeMergedPrs, opts.includeDiscussions, opts.includeDiscussionAnswers, startTime);
    assert args == ArgsFor(username, opts.includeMergedPrs, opts.includeDiscussions, opts.includeDiscussionAnswers, opts.commitsYear);
    var pages, _ := StatsFetcher(AdoptLatestPageInfo, cfg, graphql, args, maxRequests);
    if pages.OutOfRequests? {
      return OutOfRequests;
    }
    if pages.result.Failure? {
      return Done(Failure(pages.result.error));
    }
    var statsResponse := pages.result.value;
    if |statsResponse.errors| > 0 {
      return Done(Failure(GraphQLErrorFor(statsResponse.errors[0])));
    }
    PaginateSuccessHasData(AdoptLatestPageInfo, MultiPageStars(cfg), FailoverAnswer(cfg, graphql), args, EmptyResponse, "", maxRequests);
    var stats := AssembleStats(cfg, search, pow, username, statsResponse.data.value, opts);
    return Done(stats);
  }
}
