/** internal/github/retryer.go: the GraphQL token failover. */
module Retryer {
  import opened Wrappers
  import opened Text
  import opened Errors
  import opened Envs
  import opened GitHub
  import opened Failover
  import Pat

  /** getToken: the configured token with surrounding white space removed. */
  function GetToken(cfg: Config, key: string): (t: string)
    ensures t == "" <==> IsBlank(Pat.GetEnv(cfg, key))
  {
    TrimSpaceEmpty(Pat.GetEnv(cfg, key));
    TrimSpace(Pat.GetEnv(cfg, key))
  }

  /** How RetryGraphQL judges one key's call. `isRateLimited` is the optional
      RetryConfig.IsRateLimited hook (None for a nil hook). */
  function GraphQLVerdict<D>(call: Call<GraphQLResponse<D>>, isRateLimited: Option<GraphQLResponse<D> -> bool>)
    : (v: Verdict<Result<GraphQLResponse<D>, Error>>)
    ensures call.TransportFailure? ==> v == Final(Failure(Plain(call.err)))
    ensures call.RestFailure? ==>
      (v.Skip? <==> Pat.IsBadCredential(call.message) || Pat.IsSuspended(call.message))
      && (v.Final? ==> v.outcome == Failure(Plain(call.message)))
    ensures call.Answered? ==>
      (v.Skip? <==> isRateLimited.Some? && isRateLimited.value(call.response))
      && (v.Final? ==> v.outcome == Success(call.response))
  {
    match call
    case TransportFailure(e) => Final(Failure(Plain(e)))
    case RestFailure(m) =>
      if Pat.IsBadCredential(m) || Pat.IsSuspended(m) then Skip else Final(Failure(Plain(m)))
    case Answered(resp) =>
      if isRateLimited.Some? && isRateLimited.value(resp) then Skip else Final(Success(resp))
  }

  /** The verdicts of every key in order, for the fetcher `graphql` applied to `query`. */
  ghost function GraphQLVerdicts<Q, D>(cfg: Config, graphql: (Q, string) -> Call<GraphQLResponse<D>>, query: Q,
                                       isRateLimited: Option<GraphQLResponse<D> -> bool>, keys: seq<string>)
    : (vs: seq<Verdict<Result<GraphQLResponse<D>, Error>>>)
    ensures |vs| == |keys|
    ensures forall i :: 0 <= i < |keys| ==> vs[i] == GraphQLVerdict(graphql(query, GetToken(cfg, keys[i])), isRateLimited)
  {
    seq(|keys|, i requires 0 <= i < |keys| => GraphQLVerdict(graphql(query, GetToken(cfg, keys[i])), isRateLimited))
  }

  function Tokens(cfg: Config, keys: seq<string>): (ts: seq<string>)
    ensures |ts| == |keys|
    ensures forall i :: 0 <= i < |keys| ==> ts[i] == GetToken(cfg, keys[i])
  {
    seq(|keys|, i requires 0 <= i < |keys| => GetToken(cfg, keys[i]))
  }

  /** The tokens of one more key. */
  lemma TokensAppend(cfg: Config, keys: seq<string>, i: nat)
    requires i < |keys|
    ensures Tokens(cfg, keys[..i + 1]) == Tokens(cfg, keys[..i]) + [GetToken(cfg, keys[i])]
  {
  }

  /** What RetryGraphQL returns for a configuration and a fetcher. */
  ghost function RetryGraphQLOutcome<Q, D>(cfg: Config, graphql: (Q, string) -> Call<GraphQLResponse<D>>, query: Q,
                                           isRateLimited: Option<GraphQLResponse<D> -> bool>)
    : Result<GraphQLResponse<D>, Error>
  {
    Settle(GraphQLVerdicts(cfg, graphql, query, isRateLimited, Pat.PatKeys(cfg)), Failure(Plain(Pat.NoTokensFound)), Failure(Plain(Pat.AllTokensFailed)))
  }

  /** RetryGraphQL. The Go fetcher closure is `graphql` with its captured request `query`;
      `tokens` lists the tokens it was called with, in order. */
  method RetryGraphQL<Q, D>(cfg: Config, graphql: (Q, string) -> Call<GraphQLResponse<D>>, query: Q,
                            isRateLimited: Option<GraphQLResponse<D> -> bool>)
    returns (r: Result<GraphQLResponse<D>, Error>, tokens: seq<string>)
    ensures r == RetryGraphQLOutcome(cfg, graphql, query, isRateLimited)
    ensures tokens == Tokens(cfg, Pat.PatKeys(cfg)[..Attempts(GraphQLVerdicts(cfg, graphql, query, isRateLimited, Pat.PatKeys(cfg)))])
  {
    var keys := Pat.GetPATKeys(cfg);
    if |keys| == 0 {
      return Failure(Plain(Pat.NoTokensFound)), [];
    }
    r, tokens := TryEachKey(cfg, graphql, query, isRateLimited, keys);
  }

  /** RetryGraphQL's loop over a non-empty list of keys: the first key whose call is not
      skipped decides, and "all github api tokens failed" is reported when every key is skipped. */
  method TryEachKey<Q, D>(cfg: Config, graphql: (Q, string) -> Call<GraphQLResponse<D>>, query: Q,
                          isRateLimited: Option<GraphQLResponse<D> -> bool>, keys: seq<string>)
    returns (r: Result<GraphQLResponse<D>, Error>, tokens: seq<string>)
    requires |keys| > 0
    ensures var vs := GraphQLVerdicts(cfg, graphql, query, isRateLimited, keys);
      r == Settle(vs, Failure(Plain(Pat.NoTokensFound)), Failure(Plain(Pat.AllTokensFailed)))
      && tokens == Tokens(cfg, keys[..Attempts(vs)])
  {
    ghost var vs := GraphQLVerdicts(cfg, graphql, query, isRateLimited, keys);
    tokens := [];
    var i := 0;
    while i < |keys|
      invariant 0 <= i <= |keys|
      invariant forall j :: 0 <= j < i ==> vs[j].Skip?
      invariant tokens == Tokens(cfg, keys[..i])
    {
      var token := GetToken(cfg, keys[i]);
      var call := graphql(query, token);
      TokensAppend(cfg, keys, i);
      tokens := tokens + [token];
      var verdict := GraphQLVerdict(call, isRateLimited);
      assert vs[i] == verdict;
      if verdict.Final? {
        SettleAt(vs, i, Failure(Plain(Pat.NoTokensFound)), Failure(Plain(Pat.AllTokensFailed)));
        return verdict.outcome, tokens;
      }
      i := i + 1;
    }
    assert keys[..i] == keys;
    SettleAllSkipped(vs, Failure(Plain(Pat.NoTokensFound)), Failure(Plain(Pat.AllTokensFailed)));
    return Failure(Plain(Pat.AllTokensFailed)), tokens;
  }

  /** Without any PAT_<n> key no call is made and the error is "no github api tokens found". */
  lemma NoKeysNoCalls<Q, D>(cfg: Config, graphql: (Q, string) -> Call<GraphQLResponse<D>>, query: Q,
                            isRateLimited: Option<GraphQLResponse<D> -> bool>)
    requires Pat.MatchingKeys(cfg) == {}
    ensures RetryGraphQLOutcome(cfg, graphql, query, isRateLimited) == Failure(Plain("no github api tokens found"))
    ensures Attempts(GraphQLVerdicts(cfg, graphql, query, isRateLimited, Pat.PatKeys(cfg))) == 0
  {
    Pat.HeadMember(Pat.PatKeys(cfg));
  }

  /** A transport error on the first key aborts the failover with that error,
      without trying the other keys. */
  lemma TransportErrorAborts<Q, D>(cfg: Config, graphql: (Q, string) -> Call<GraphQLResponse<D>>, query: Q,
                                   isRateLimited: Option<GraphQLResponse<D> -> bool>)
    requires |Pat.PatKeys(cfg)| > 0
    requires graphql(query, GetToken(cfg, Pat.PatKeys(cfg)[0])).TransportFailure?
    ensures RetryGraphQLOutcome(cfg, graphql, query, isRateLimited)
         == Failure(Plain(graphql(query, GetToken(cfg, Pat.PatKeys(cfg)[0])).err))
    ensures Attempts(GraphQLVerdicts(cfg, graphql, query, isRateLimited, Pat.PatKeys(cfg))) == 1
  {
    var vs := GraphQLVerdicts(cfg, graphql, query, isRateLimited, Pat.PatKeys(cfg));
    SettleAt(vs, 0, Failure(Plain(Pat.NoTokensFound)), Failure(Plain(Pat.AllTokensFailed)));
  }

  /** When every key answers "Bad credentials" (in any letter case) the failover reports
      "all github api tokens failed" after trying every key. */
  lemma AllBadCredentials<Q, D>(cfg: Config, graphql: (Q, string) -> Call<GraphQLResponse<D>>, query: Q,
                                isRateLimited: Option<GraphQLResponse<D> -> bool>)
    requires |Pat.PatKeys(cfg)| > 0
    requires forall t :: graphql(query, t).RestFailure? && Pat.IsBadCredential(graphql(query, t).message)
    ensures RetryGraphQLOutcome(cfg, graphql, query, isRateLimited) == Failure(Plain("all github api tokens failed"))
    ensures Attempts(GraphQLVerdicts(cfg, graphql, query, isRateLimited, Pat.PatKeys(cfg))) == |Pat.PatKeys(cfg)|
  {
    var vs := GraphQLVerdicts(cfg, graphql, query, isRateLimited, Pat.PatKeys(cfg));
    SettleAllSkipped(vs, Failure(Plain(Pat.NoTokensFound)), Failure(Plain(Pat.AllTokensFailed)));
  }

  /** A first key whose call is answered and not judged rate limited yields that answer
      after a single call. */
  lemma FirstKeyAnswers<Q, D>(cfg: Config, graphql: (Q, string) -> Call<GraphQLResponse<D>>, query: Q,
                              isRateLimited: Option<GraphQLResponse<D> -> bool>, resp: GraphQLResponse<D>)
    requires |Pat.PatKeys(cfg)| > 0
    requires graphql(query, GetToken(cfg, Pat.PatKeys(cfg)[0])) == Answered(resp)
    requires isRateLimited.None? || !isRateLimited.value(resp)
    ensures RetryGraphQLOutcome(cfg, graphql, query, isRateLimited) == Success(resp)
    ensures Attempts(GraphQLVerdicts(cfg, graphql, query, isRateLimited, Pat.PatKeys(cfg))) == 1
  {
    var vs := GraphQLVerdicts(cfg, graphql, query, isRateLimited, Pat.PatKeys(cfg));
    SettleAt(vs, 0, Failure(Plain(Pat.NoTokensFound)), Failure(Plain(Pat.AllTokensFailed)));
  }
}
