/** internal/github/pat.go: discovery of the PAT_<n> token keys, the failure
    classification shared by the failover loops, and the rate-limit probe RetryRateLimit. */
module Pat {
  import opened Wrappers
  import opened Text
  import opened Ops
  import opened Errors
  import opened Envs
  import opened GitHub
  import opened Failover

  // ---------------------------------------------------------------- key discovery

  /** The pattern `^PAT_\d+$` (RE2's `\d` is ASCII digits only). */
  predicate IsPatKey(key: string) {
    |key| > 4 && key[..4] == "PAT_" && AllDigits(key[4..])
  }

  /** The key part of an os.Environ() entry: everything before the first "=". */
  function EnvKey(entry: string): string {
    Split(entry, '=')[0]
  }

  /** The keys GetPATKeys collects: matching environment keys as they are, and
      viper keys upper-cased before matching. */
  ghost function MatchingKeys(cfg: Config): set<string> {
    (set e | e in cfg.environ && IsPatKey(EnvKey(e)) :: EnvKey(e))
    + (set k | k in cfg.viperKeys && IsPatKey(ToUpper(k)) :: ToUpper(k))
  }

  predicate StrictlySorted(s: seq<string>) {
    forall i, j :: 0 <= i < j < |s| ==> Less(s[i], s[j])
  }

  lemma MinimumExists(s: set<string>)
    requires s != {}
    ensures exists m :: m in s && forall x :: x in s && x != m ==> Less(m, x)
    decreases s
  {
    var y :| y in s;
    var rest := s - {y};
    if rest != {} {
      MinimumExists(rest);
      var m :| m in rest && forall x :: x in rest && x != m ==> Less(m, x);
      if Less(m, y) {
        assert forall x :: x in s && x != m ==> Less(m, x);
      } else {
        LessTotal(m, y);
        forall x | x in s && x != y ensures Less(y, x) {
          if x != m { LessTransitive(y, m, x); }
        }
      }
    } else {
      assert s == {y};
    }
  }

  /** The elements of `s` in ascending order. */
  ghost function SortedKeys(s: set<string>): (r: seq<string>)
    ensures StrictlySorted(r)
    ensures forall x :: x in r <==> x in s
    decreases s
  {
    if s == {} then []
    else
      MinimumExists(s);
      var m :| m in s && forall x :: x in s && x != m ==> Less(m, x);
      var rest := SortedKeys(s - {m});
      assert forall i :: 0 <= i < |rest| ==> Less(m, rest[i]) by {
        forall i | 0 <= i < |rest| ensures Less(m, rest[i]) { assert rest[i] in s - {m}; }
      }
      [m] + rest
  }

  lemma HeadMember(s: seq<string>)
    ensures s == [] || s[0] in s
  {
  }

  /** Two ascending duplicate-free lists with the same elements are the same list. */
  lemma {:induction false} SortedUnique(a: seq<string>, b: seq<string>)
    requires StrictlySorted(a) && StrictlySorted(b)
    requires forall x :: x in a <==> x in b
    ensures a == b
    decreases |a|
  {
    if |a| > 0 {
      assert a[0] in b;
      assert |b| > 0;
      if a[0] != b[0] {
        assert b[0] in a;
        var i :| 0 <= i < |a| && a[i] == b[0];
        var j :| 0 <= j < |b| && b[j] == a[0];
        assert Less(a[0], b[0]);
        assert Less(b[0], a[0]);
        LessAsymmetric(a[0], b[0]);
      }
      assert a == [a[0]] + a[1..] && b == [b[0]] + b[1..];
      forall x ensures x in a[1..] <==> x in b[1..] {
        if x in a[1..] {
          var i :| 0 <= i < |a[1..]| && a[1..][i] == x;
          assert Less(a[0], a[i + 1]);
          LessIrreflexive(a[0]);
          assert x in b && x != b[0];
        }
        if x in b[1..] {
          var i :| 0 <= i < |b[1..]| && b[1..][i] == x;
          assert Less(b[0], b[i + 1]);
          LessIrreflexive(b[0]);
          assert x in a && x != a[0];
        }
      }
      SortedUnique(a[1..], b[1..]);
      assert a == [a[0]] + a[1..] && b == [b[0]] + b[1..];
    } else {
      HeadMember(b);
    }
  }

  /** The list GetPATKeys returns for a configuration. */
  ghost function PatKeys(cfg: Config): seq<string> {
    SortedKeys(MatchingKeys(cfg))
  }

  /** Inserts a new key into an ascending list at its place (the effect of sort.Strings
      on keys appended in the map's iteration order). */
  function Insert(s: seq<string>, x: string): (r: seq<string>)
    requires StrictlySorted(s) && x !in s
    ensures StrictlySorted(r)
    ensures forall y :: y in r <==> y in s || y == x
    decreases |s|
  {
    if |s| == 0 then [x]
    else if Less(x, s[0]) then
      assert forall i :: 0 <= i < |s| ==> Less(x, s[i]) by {
        forall i | 0 < i < |s| ensures Less(x, s[i]) { LessTransitive(x, s[0], s[i]); }
      }
      [x] + s
    else
      LessTotal(x, s[0]);
      var rest := Insert(s[1..], x);
      assert forall i :: 0 <= i < |rest| ==> Less(s[0], rest[i]) by {
        forall i | 0 <= i < |rest| ensures Less(s[0], rest[i]) {
          if rest[i] != x { assert rest[i] in s[1..]; }
        }
      }
      [s[0]] + rest
  }

  /** GetPATKeys, with the source's two collecting loops; the map is a set here. */
  method GetPATKeys(cfg: Config) returns (keys: seq<string>)
    ensures keys == PatKeys(cfg)
    ensures StrictlySorted(keys)
    ensures forall k :: k in keys <==> k in MatchingKeys(cfg)
    ensures forall k :: k in keys ==> IsPatKey(k)
  {
    var found: set<string> := {};
    var i := 0;
    while i < |cfg.environ|
      invariant 0 <= i <= |cfg.environ|
      invariant found == set e | e in cfg.environ[..i] && IsPatKey(EnvKey(e)) :: EnvKey(e)
    {
      var key := EnvKey(cfg.environ[i]);
      if IsPatKey(key) {
        found := found + {key};
      }
      assert cfg.environ[..i + 1] == cfg.environ[..i] + [cfg.environ[i]];
      i := i + 1;
    }
    assert cfg.environ[..i] == cfg.environ;
    ghost var fromEnv := found;
    i := 0;
    while i < |cfg.viperKeys|
      invariant 0 <= i <= |cfg.viperKeys|
      invariant found == fromEnv + set k | k in cfg.viperKeys[..i] && IsPatKey(ToUpper(k)) :: ToUpper(k)
    {
      var upper := ToUpper(cfg.viperKeys[i]);
      if IsPatKey(upper) {
        found := found + {upper};
      }
      assert cfg.viperKeys[..i + 1] == cfg.viperKeys[..i] + [cfg.viperKeys[i]];
      i := i + 1;
    }
    assert cfg.viperKeys[..i] == cfg.viperKeys;
    assert found == MatchingKeys(cfg);

    keys := [];
    var rest := found;
    while rest != {}
      invariant rest <= found
      invariant StrictlySorted(keys)
      invariant forall k :: k in keys <==> k in found && k !in rest
      decreases rest
    {
      var k :| k in rest;
      keys := Insert(keys, k);
      rest := rest - {k};
    }
    SortedUnique(keys, PatKeys(cfg));
  }

  // ---------------------------------------------------------------- classification

  /** isRateLimited: only the first error counts; type RATE_LIMITED, or a message
      mentioning "rate limit" in any letter case. */
  predicate IsRateLimited(errors: seq<GraphQLError>)
    ensures |errors| == 0 ==> !IsRateLimited(errors)
    ensures |errors| > 0 && errors[0].kind == "RATE_LIMITED" ==> IsRateLimited(errors)
    ensures |errors| > 0 && errors[0].kind != "RATE_LIMITED" ==>
      (IsRateLimited(errors) <==> Contains(ToLower(errors[0].message), "rate limit"))
  {
    |errors| > 0 && (errors[0].kind == "RATE_LIMITED" || Contains(ToLower(errors[0].message), "rate limit"))
  }

  /** isBadCredential */
  predicate IsBadCredential(msg: string)
    ensures IsBadCredential(msg) ==> |msg| == |"Bad credentials"|
  {
    EqualFold(msg, "Bad credentials")
  }

  /** isSuspended */
  predicate IsSuspended(msg: string)
    ensures IsSuspended(msg) ==> |msg| == |"Sorry. Your account was suspended."|
  {
    EqualFold(msg, "Sorry. Your account was suspended.")
  }

  lemma IsRateLimitedFirstOnly(errors: seq<GraphQLError>, more: seq<GraphQLError>)
    requires |errors| > 0
    ensures IsRateLimited(errors + more) == IsRateLimited(errors[..1])
    ensures IsRateLimited([]) == false
  {
    assert (errors + more)[0] == errors[0] == errors[..1][0];
  }

  /** "Bad credentials" skips a key exactly when the message lower-cases to "bad credentials". */
  lemma BadCredentialMessage(msg: string)
    ensures IsBadCredential(msg) <==> ToLower(msg) == "bad credentials"
  {
    assert ToLower("Bad credentials") == "bad credentials";
  }

  /** The suspension message skips a key exactly when it lower-cases to
      "sorry. your account was suspended.". */
  lemma SuspendedMessage(msg: string)
    ensures IsSuspended(msg) <==> ToLower(msg) == "sorry. your account was suspended."
  {
    SuspendedLower();
  }

  /** The suspension text lower-cased, letter by letter. */
  lemma SuspendedLower()
    ensures ToLower("Sorry. Your account was suspended.") == "sorry. your account was suspended."
  {
  }

  // ---------------------------------------------------------------- RetryRateLimit

  const NoTokensFound := "no github api tokens found"
  const AllTokensFailed := "all github api tokens failed"

  /** getEnv */
  function GetEnv(cfg: Config, key: string): string {
    cfg.setting(key)
  }

  /** How RetryRateLimit judges one key's rate-limit query. */
  function RateLimitVerdict(call: Call<RateLimitReply>): (v: Verdict<Result<GraphQLResponse<RateLimit>, Error>>)
    ensures call.TransportFailure? ==> v == Final(Failure(Plain(call.err)))
    ensures call.RestFailure? ==>
      (v.Skip? <==> IsBadCredential(call.message) || IsSuspended(call.message))
      && (v.Final? ==> v.outcome == Failure(Plain(call.message)))
    ensures call.Answered? ==>
      (v.Skip? <==> IsRateLimited(call.response.errors))
      && (v.Final? ==> v.outcome == Success(GraphQLResponse(Some(call.response.rateLimit), call.response.errors)))
  {
    match call
    case TransportFailure(e) => Final(Failure(Plain(e)))
    case RestFailure(m) =>
      if IsBadCredential(m) || IsSuspended(m) then Skip else Final(Failure(Plain(m)))
    case Answered(reply) =>
      if IsRateLimited(reply.errors) then Skip
      else Final(Success(GraphQLResponse(Some(reply.rateLimit), reply.errors)))
  }

  ghost function RateLimitVerdicts(cfg: Config, query: string -> Call<RateLimitReply>, keys: seq<string>)
    : (vs: seq<Verdict<Result<GraphQLResponse<RateLimit>, Error>>>)
    ensures |vs| == |keys|
    ensures forall i :: 0 <= i < |keys| ==> vs[i] == RateLimitVerdict(query(GetEnv(cfg, keys[i])))
  {
    seq(|keys|, i requires 0 <= i < |keys| => RateLimitVerdict(query(GetEnv(cfg, keys[i]))))
  }

  function EnvTokens(cfg: Config, keys: seq<string>): (ts: seq<string>)
    ensures |ts| == |keys|
    ensures forall i :: 0 <= i < |keys| ==> ts[i] == GetEnv(cfg, keys[i])
  {
    seq(|keys|, i requires 0 <= i < |keys| => GetEnv(cfg, keys[i]))
  }

  /** The tokens of one more key. */
  lemma EnvTokensAppend(cfg: Config, keys: seq<string>, i: nat)
    requires i < |keys|
    ensures EnvTokens(cfg, keys[..i + 1]) == EnvTokens(cfg, keys[..i]) + [GetEnv(cfg, keys[i])]
  {
  }

  /** RetryRateLimit: probes the rate limit with each key in GetPATKeys order. `query`
      stands for QueryRateLimit; `tokens` lists the tokens it was called with, in order. */
  method RetryRateLimit(cfg: Config, query: string -> Call<RateLimitReply>)
    returns (r: Result<GraphQLResponse<RateLimit>, Error>, tokens: seq<string>)
    ensures var vs := RateLimitVerdicts(cfg, query, PatKeys(cfg));
      r == Settle(vs, Failure(Plain(NoTokensFound)), Failure(Plain(AllTokensFailed)))
      && tokens == EnvTokens(cfg, PatKeys(cfg)[..Attempts(vs)])
    ensures PatKeys(cfg) == [] ==> r == Failure(Plain(NoTokensFound)) && tokens == []
  {
    var keys := GetPATKeys(cfg);
    if |keys| == 0 {
      return Failure(Plain(NoTokensFound)), [];
    }
    r, tokens := ProbeEachKey(cfg, query, keys);
  }

  /** RetryRateLimit's loop over a non-empty list of keys: the first key whose probe is not
      skipped decides, and "all github api tokens failed" is reported when every key is skipped. */
  method ProbeEachKey(cfg: Config, query: string -> Call<RateLimitReply>, keys: seq<string>)
    returns (r: Result<GraphQLResponse<RateLimit>, Error>, tokens: seq<string>)
    requires |keys| > 0
    ensures var vs := RateLimitVerdicts(cfg, query, keys);
      r == Settle(vs, Failure(Plain(NoTokensFound)), Failure(Plain(AllTokensFailed)))
      && tokens == EnvTokens(cfg, keys[..Attempts(vs)])
  {
    ghost var vs := RateLimitVerdicts(cfg, query, keys);
    tokens := [];
    var i := 0;
    while i < |keys|
      invariant 0 <= i <= |keys|
      invariant forall j :: 0 <= j < i ==> vs[j].Skip?
      invariant tokens == EnvTokens(cfg, keys[..i])
    {
      var token := GetEnv(cfg, keys[i]);
      var call := query(token);
      EnvTokensAppend(cfg, keys, i);
      tokens := tokens + [token];
      var verdict := RateLimitVerdict(call);
      assert vs[i] == verdict;
      if verdict.Final? {
        SettleAt(vs, i, Failure(Plain(NoTokensFound)), Failure(Plain(AllTokensFailed)));
        return verdict.outcome, tokens;
      }
      i := i + 1;
    }
    assert keys[..i] == keys;
    SettleAllSkipped(vs, Failure(Plain(NoTokensFound)), Failure(Plain(AllTokensFailed)));
    return Failure(Plain(AllTokensFailed)), tokens;
  }
}
