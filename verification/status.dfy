/** internal/handlers/status.go: the uptime badge and the per-token status report. */
module Status {
  import opened Wrappers
  import opened Text
  import opened Errors
  import opened Envs
  import opened GitHub
  import Pat

  /** The badge served to shields.io. */
  datatype ShieldsResponse = ShieldsResponse(schemaVersion: int, labelText: string, message: string, color: string, isError: bool)

  /** shieldsUptimeBadge */
  function ShieldsUptimeBadge(up: bool): (b: ShieldsResponse)
    ensures b.schemaVersion == 1 && b.labelText == "Public Instance" && b.isError
    ensures up ==> b.message == "up" && b.color == "brightgreen"
    ensures !up ==> b.message == "down" && b.color == "red"
  {
    ShieldsResponse(1, "Public Instance", if up then "up" else "down", if up then "brightgreen" else "red", true)
  }

  const StatusValid := "valid"
  const StatusExpired := "expired"
  const StatusExhausted := "exhausted"
  const StatusSuspended := "suspended"
  const StatusError := "error"
  const Statuses: set<string> := {StatusValid, StatusExpired, StatusExhausted, StatusSuspended, StatusError}

  /** The report entry of one key. */
  datatype PatDetail = PatDetail(status: string, remaining: Option<int>, resetIn: Option<string>, error: Option<GraphQLError>)

  /** The "resets in" text: the minutes until `resetAt` when it is given and parses, "unknown" otherwise.
      `minutesUntil` stands for parsing the RFC 3339 time and rounding the minutes left on the clock. */
  function ResetIn(resetAt: string, minutesUntil: string -> Option<int>): string {
    if resetAt == "" then "unknown"
    else match minutesUntil(resetAt)
      case Some(minutes) => FormatInt(minutes) + " minutes"
      case None => "unknown"
  }

  /** How collectPATInfo judges one key's rate-limit query: a report entry, or an error that aborts the report. */
  function PatVerdict(call: Call<RateLimitReply>, minutesUntil: string -> Option<int>): (r: Result<PatDetail, Error>)
    ensures r.Success? ==> r.value.status in Statuses
    ensures call.TransportFailure? ==> r == Failure(Plain(call.err))
    ensures call.RestFailure? ==>
      && (r.Success? && r.value.status == StatusExpired <==> ToLower(call.message) == "bad credentials")
      && (r.Success? && r.value.status == StatusSuspended <==> ToLower(call.message) == "sorry. your account was suspended.")
      && (r.Failure? ==> r.error == Plain(call.message))
    ensures call.Answered? ==> r.Success?
    ensures call.Answered? && |call.response.errors| > 0 && call.response.errors[0].kind != "RATE_LIMITED" ==>
      r.value == PatDetail(StatusError, None, None, Some(call.response.errors[0]))
    ensures call.Answered? && (|call.response.errors| == 0 || call.response.errors[0].kind == "RATE_LIMITED") ==>
      if (|call.response.errors| > 0 || call.response.rateLimit.remaining == 0)
      then r.value.status == StatusExhausted && r.value.remaining == Some(0)
      else r.value == PatDetail(StatusValid, Some(call.response.rateLimit.remaining), None, None)
  {
    match call
    case TransportFailure(e) => Failure(Plain(e))
    case RestFailure(m) =>
      var msg := ToLower(m);
      if msg == "bad credentials" then Success(PatDetail(StatusExpired, None, None, None))
      else if msg == "sorry. your account was suspended." then Success(PatDetail(StatusSuspended, None, None, None))
      else Failure(Plain(m))
    case Answered(reply) =>
      if |reply.errors| > 0 && reply.errors[0].kind != "RATE_LIMITED" then
        Success(PatDetail(StatusError, None, None, Some(reply.errors[0])))
      else
        var isRateLimited := (|reply.errors| > 0 && reply.errors[0].kind == "RATE_LIMITED") || reply.rateLimit.remaining == 0;
        if isRateLimited then
          Success(PatDetail(StatusExhausted, Some(0), Some(ResetIn(reply.rateLimit.resetAt, minutesUntil)), None))
        else Success(PatDetail(StatusValid, Some(reply.rateLimit.remaining), None, None))
  }

  /** The status report's recognised REST messages are those the token rotation skips. */
  lemma RestMessagesMatchRotation(message: string)
    ensures ToLower(message) == "bad credentials" <==> Pat.IsBadCredential(message)
    ensures ToLower(message) == "sorry. your account was suspended." <==> Pat.IsSuspended(message)
  {
    Pat.BadCredentialMessage(message);
    Pat.SuspendedMessage(message);
  }

  /** The details gathered for `keys` in order; the first key whose query aborts ends the report. */
  ghost function Details(cfg: Config, query: string -> Call<RateLimitReply>, minutesUntil: string -> Option<int>,
                         keys: seq<string>): (r: Result<map<string, PatDetail>, Error>)
    ensures r.Success? ==> r.value.Keys == set k | k in keys
    ensures r.Success? ==> forall k :: k in r.value ==> r.value[k].status in Statuses
  {
    if keys == [] then Success(map[])
    else
      var key := keys[|keys| - 1];
      match Details(cfg, query, minutesUntil, keys[..|keys| - 1])
      case Failure(e) => Failure(e)
      case Success(m) =>
        assert keys == keys[..|keys| - 1] + [key];
        match PatVerdict(query(Pat.GetEnv(cfg, key)), minutesUntil)
        case Failure(e) => Failure(e)
        case Success(d) => Success(m[key := d])
  }

  /** The keys with the given status, in key-list order. */
  function Filtered(details: map<string, PatDetail>, keys: seq<string>, status: string): (r: seq<string>)
    ensures forall k :: k in r <==> k in keys && k in details && details[k].status == status
  {
    if keys == [] then []
    else
      var key := keys[|keys| - 1];
      assert keys == keys[..|keys| - 1] + [key];
      var r := Filtered(details, keys[..|keys| - 1], status);
      if key in details && details[key].status == status then r + [key] else r
  }

  /** filterPATs */
  method FilterPATs(details: map<string, PatDetail>, keys: seq<string>, status: string) returns (pats: seq<string>)
    ensures pats == Filtered(details, keys, status)
  {
    pats := [];
    for i := 0 to |keys|
      invariant pats == Filtered(details, keys[..i], status)
    {
      assert keys[..i + 1][..i] == keys[..i];
      var key := keys[i];
      if key !in details {
        continue;
      }
      var detail := details[key];
      if detail.status == status {
        pats := pats + [key];
      }
    }
    assert keys[..|keys|] == keys;
  }

  /** sortDetails: exactly the entries whose key is listed. */
  method SortDetails(details: map<string, PatDetail>, keys: seq<string>) returns (sorted: map<string, PatDetail>)
    ensures sorted == map k | k in details && k in keys :: details[k]
  {
    sorted := map[];
    for i := 0 to |keys|
      invariant sorted == map k | k in details && k in keys[..i] :: details[k]
    {
      assert forall k :: k in keys[..i + 1] <==> k in keys[..i] || k == keys[i];
      var key := keys[i];
      if key in details {
        sorted := sorted[key := details[key]];
      }
    }
    assert keys[..|keys|] == keys;
  }

  datatype PatInfo = PatInfo(validPats: seq<string>, expiredPats: seq<string>, exhaustedPats: seq<string>,
                             suspendedPats: seq<string>, errorPats: seq<string>, details: map<string, PatDetail>)

  /** collectPATInfo's loop: each key's detail in turn, stopping at the first aborting query. */
  method GatherDetails(cfg: Config, query: string -> Call<RateLimitReply>, minutesUntil: string -> Option<int>,
                       keys: seq<string>) returns (r: Result<map<string, PatDetail>, Error>)
    ensures r == Details(cfg, query, minutesUntil, keys)
  {
    var details: map<string, PatDetail> := map[];
    for i := 0 to |keys|
      invariant Details(cfg, query, minutesUntil, keys[..i]) == Success(details)
    {
      assert keys[..i + 1][..i] == keys[..i];
      var key := keys[i];
      var token := Pat.GetEnv(cfg, key);
      var verdict := PatVerdict(query(token), minutesUntil);
      if verdict.Failure? {
        FailureSticks(cfg, query, minutesUntil, keys, i + 1);
        return Failure(verdict.error);
      }
      details := details[key := verdict.value];
    }
    assert keys[..|keys|] == keys;
    return Success(details);
  }

  /** collectPATInfo; `query` stands for QueryRateLimit and `minutesUntil` for the clock arithmetic. */
  method CollectPATInfo(cfg: Config, query: string -> Call<RateLimitReply>, minutesUntil: string -> Option<int>)
    returns (r: Result<PatInfo, Error>)
    ensures var ds := Details(cfg, query, minutesUntil, Pat.PatKeys(cfg));
      && (ds.Failure? ==> r == Failure(ds.error))
      && (ds.Success? ==> r == Success(PatInfo(
            Filtered(ds.value, Pat.PatKeys(cfg), StatusValid), Filtered(ds.value, Pat.PatKeys(cfg), StatusExpired),
            Filtered(ds.value, Pat.PatKeys(cfg), StatusExhausted), Filtered(ds.value, Pat.PatKeys(cfg), StatusSuspended),
            Filtered(ds.value, Pat.PatKeys(cfg), StatusError), ds.value)))
  {
    var keys := Pat.GetPATKeys(cfg);
    var gathered := GatherDetails(cfg, query, minutesUntil, keys);
    if gathered.Failure? {
      return Failure(gathered.error);
    }
    var details := gathered.value;
    var valid := FilterPATs(details, keys, StatusValid);
    var expired := FilterPATs(details, keys, StatusExpired);
    var exhausted := FilterPATs(details, keys, StatusExhausted);
    var suspended := FilterPATs(details, keys, StatusSuspended);
    var errored := FilterPATs(details, keys, StatusError);
    var sorted := SortDetails(details, keys);
    assert sorted == details;
    return Success(PatInfo(valid, expired, exhausted, suspended, errored, sorted));
  }

  /** Once a prefix of the keys aborts the report, every longer prefix aborts it with the same error. */
  lemma {:induction false} FailureSticks(cfg: Config, query: string -> Call<RateLimitReply>,
                                         minutesUntil: string -> Option<int>, keys: seq<string>, n: nat)
    requires n <= |keys| && Details(cfg, query, minutesUntil, keys[..n]).Failure?
    ensures Details(cfg, query, minutesUntil, keys) == Details(cfg, query, minutesUntil, keys[..n])
    decreases |keys| - n
  {
    if n < |keys| {
      assert keys[..n + 1][..n] == keys[..n];
      FailureSticks(cfg, query, minutesUntil, keys, n + 1);
    } else {
      assert keys[..n] == keys;
    }
  }

  /** The five lists partition the keys: each key of a finished report is in exactly the list of its status. */
  lemma ReportPartitionsKeys(cfg: Config, query: string -> Call<RateLimitReply>, minutesUntil: string -> Option<int>,
                             k: string, status: string)
    requires Details(cfg, query, minutesUntil, Pat.PatKeys(cfg)).Success?
    requires k in Pat.PatKeys(cfg) && status in Statuses
    ensures var ds := Details(cfg, query, minutesUntil, Pat.PatKeys(cfg)).value;
      k in ds && ds[k].status in Statuses &&
      (k in Filtered(ds, Pat.PatKeys(cfg), status) <==> status == ds[k].status)
  {
  }
}
