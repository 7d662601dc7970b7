/** The shapes of the upstream API's answers (internal/github/client.go, graphql.go, rest.go).
    The HTTP calls themselves are not modelled: each call is an oracle whose outcome is a `Call`. */
module GitHub {
  import opened Wrappers

  /** One entry of a GraphQL response's `errors` list; `kind` is the JSON `type`. */
  datatype GraphQLError = GraphQLError(kind: string, message: string)

  /** A decoded GraphQL envelope; `data == None` stands for an empty raw `data` payload. */
  datatype GraphQLResponse<D> = GraphQLResponse(data: Option<D>, errors: seq<GraphQLError>)

  /** What one HTTP call returns: a transport or decoding error (the Go `error`),
      a REST error body for a status of 400 or more (`*RestError`), or a decoded answer. */
  datatype Call<T> = TransportFailure(err: string) | RestFailure(message: string) | Answered(response: T)

  datatype RateLimit = RateLimit(remaining: int, resetAt: string)

  /** QueryRateLimit's decoded answer: the rate-limit data and the GraphQL errors beside it. */
  datatype RateLimitReply = RateLimitReply(rateLimit: RateLimit, errors: seq<GraphQLError>)

  /** The commit-search answer; `total_count` is a count. */
  datatype RestResponse = RestResponse(totalCount: nat)
}
