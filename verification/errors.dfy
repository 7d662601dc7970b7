/** internal/common/error.go: the error values the core produces and their messages. */
module Errors {
  import opened Wrappers
  import opened Text

  const TryAgainLater := "Please try again later"
  const MaxRetryHint := "You can deploy own instance or wait until public will be no longer limited"
  const NoTokensHint := "Please add an env variable called PAT_1 with your GitHub API token in vercel"
  const UserNotFoundHint := "Make sure the provided username is not an organization"
  const WakatimeHint := "Make sure you have a public WakaTime profile"

  const ErrorMaxRetry := "MAX_RETRY"
  const ErrorNoTokens := "NO_TOKENS"
  const ErrorUserNotFound := "USER_NOT_FOUND"
  const ErrorGraphQL := "GRAPHQL_ERROR"
  const ErrorGithubRest := "GITHUB_REST_API_ERROR"
  const ErrorWakatime := "WAKATIME_ERROR"

  const KnownKinds: set<string> :=
    {ErrorMaxRetry, ErrorNoTokens, ErrorUserNotFound, ErrorGraphQL, ErrorGithubRest, ErrorWakatime}

  /** The secondary-message table of NewCustomError's switch. */
  function SecondaryFor(kind: string): string {
    if kind == ErrorMaxRetry then MaxRetryHint
    else if kind == ErrorNoTokens then NoTokensHint
    else if kind == ErrorUserNotFound then UserNotFoundHint
    else if kind == ErrorGraphQL then TryAgainLater
    else if kind == ErrorGithubRest then TryAgainLater
    else if kind == ErrorWakatime then WakatimeHint
    else kind
  }

  /** A Go `error` as the core produces it. */
  datatype Error =
    | Plain(text: string)                                      // errors.New, fmt.Errorf, transport and decoding errors
    | Custom(message: string, kind: string, secondary: string) // *CustomError
    | MissingParam(missed: seq<string>, secondary: string)     // *MissingParamError
    | ColorError(text: string)                                 // *ColorError
  {
    /** The error's Error() string. */
    function Message(): (m: string)
      ensures Custom? ==> m == message
      ensures ColorError? ==> m == text
      ensures MissingParam? ==> m == MissingParamText(missed)
    {
      match this
      case Plain(t) => t
      case Custom(m, _, _) => m
      case MissingParam(ps, _) => MissingParamText(ps)
      case ColorError(t) => t
    }
  }

  /** NewCustomError: the six known kinds get their fixed hint, any other kind is its own hint. */
  function NewCustomError(message: string, kind: string): (e: Error)
    ensures e.Custom? && e.Message() == message && e.kind == kind
    ensures e.secondary == kind <==> kind !in KnownKinds
    ensures kind == ErrorGraphQL || kind == ErrorGithubRest ==> e.secondary == TryAgainLater
    ensures kind == ErrorMaxRetry ==> e.secondary == MaxRetryHint
    ensures kind == ErrorNoTokens ==> e.secondary == NoTokensHint
    ensures kind == ErrorUserNotFound ==> e.secondary == UserNotFoundHint
    ensures kind == ErrorWakatime ==> e.secondary == WakatimeHint
  {
    Custom(message, kind, SecondaryFor(kind))
  }

  function Quote(param: string): string {
    "\"" + param + "\""
  }

  function QuoteAll(params: seq<string>): (r: seq<string>)
    ensures |r| == |params|
    ensures forall i :: 0 <= i < |params| ==> r[i] == Quote(params[i])
  {
    if |params| == 0 then [] else [Quote(params[0])] + QuoteAll(params[1..])
  }

  const MissingParamsTail := " make sure you pass the parameters in URL"

  /** MissingParamError.Error() as a value. */
  function MissingParamText(params: seq<string>): string {
    if |params| == 0 then "Missing params make sure you pass the parameters in URL"
    else "Missing params " + Join(QuoteAll(params), ", ") + MissingParamsTail
  }

  /** MissingParamError.Error(), with the source's quoting loop. */
  method MissingParamMessage(params: seq<string>) returns (text: string)
    ensures text == MissingParamText(params)
  {
    if |params| == 0 {
      return "Missing params make sure you pass the parameters in URL";
    }
    var quoted: seq<string> := [];
    var i := 0;
    while i < |params|
      invariant 0 <= i <= |params|
      invariant quoted == QuoteAll(params[..i])
    {
      assert params[..i + 1] == params[..i] + [params[i]];
      QuoteAllAppend(params[..i], params[i]);
      quoted := quoted + [Quote(params[i])];
      i := i + 1;
    }
    assert params[..i] == params;
    text := "Missing params " + Join(quoted, ", ") + MissingParamsTail;
  }

  lemma QuoteAllAppend(params: seq<string>, p: string)
    ensures QuoteAll(params + [p]) == QuoteAll(params) + [Quote(p)]
  {
  }

  lemma {:induction false} ContainsMiddle(a: string, b: string, c: string)
    ensures Contains(a + b + c, b)
    decreases |a|
  {
    if |a| == 0 {
      assert (a + b + c)[..|b|] == b;
    } else {
      ContainsMiddle(a[1..], b, c);
      assert (a + b + c)[1..] == a[1..] + b + c;
    }
  }

  lemma {:induction false} JoinContainsPart(parts: seq<string>, sep: string, i: nat)
    requires i < |parts|
    ensures Contains(Join(parts, sep), parts[i])
    decreases |parts|
  {
    if |parts| == 1 {
      ContainsMiddle("", parts[0], "");
      assert "" + parts[0] + "" == parts[0];
    } else if i == 0 {
      ContainsMiddle("", parts[0], sep + Join(parts[1..], sep));
      assert "" + parts[0] + (sep + Join(parts[1..], sep)) == Join(parts, sep);
    } else {
      JoinContainsPart(parts[1..], sep, i - 1);
      ContainsSuffix(parts[0] + sep, Join(parts[1..], sep), parts[i]);
    }
  }

  lemma {:induction false} ContainsSuffix(a: string, s: string, sub: string)
    requires Contains(s, sub)
    ensures Contains(a + s, sub)
    decreases |a|
  {
    if |a| > 0 {
      ContainsSuffix(a[1..], s, sub);
      assert (a + s)[1..] == a[1..] + s;
    } else {
      assert a + s == s;
    }
  }

  /** The missing-parameter message names every parameter, double-quoted. */
  lemma MissingParamTextNamesEach(params: seq<string>, i: nat)
    requires i < |params|
    ensures Contains(MissingParamText(params), Quote(params[i]))
  {
    JoinContainsPart(QuoteAll(params), ", ", i);
    ContainsMiddle("Missing params ", Join(QuoteAll(params), ", "), MissingParamsTail);
    var j := Join(QuoteAll(params), ", ");
    ContainsInfix("Missing params ", j, MissingParamsTail, Quote(params[i]));
  }

  lemma {:induction false} ContainsPrefixPart(s: string, c: string, sub: string)
    requires Contains(s, sub)
    ensures Contains(s + c, sub)
    decreases |s|
  {
    if IsPrefix(sub, s) {
      assert (s + c)[..|sub|] == s[..|sub|];
    } else {
      ContainsPrefixPart(s[1..], c, sub);
      assert (s + c)[1..] == s[1..] + c;
    }
  }

  lemma ContainsInfix(a: string, s: string, c: string, sub: string)
    requires Contains(s, sub)
    ensures Contains(a + s + c, sub)
  {
    ContainsPrefixPart(s, c, sub);
    ContainsSuffix(a, s + c, sub);
    assert a + (s + c) == a + s + c;
  }

  /** RetrieveSecondaryMessage: the hint of a CustomError or MissingParamError, "" otherwise. */
  function RetrieveSecondaryMessage(err: Option<Error>): (r: string)
    ensures err.None? ==> r == ""
    ensures err.Some? && (err.value.Custom? || err.value.MissingParam?) ==> r == err.value.secondary
    ensures err.Some? && (err.value.Plain? || err.value.ColorError?) ==> r == ""
  {
    match err
    case None => ""
    case Some(Custom(_, _, s)) => s
    case Some(MissingParam(_, s)) => s
    case Some(_) => ""
  }
}
