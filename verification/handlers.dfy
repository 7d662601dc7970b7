/** internal/handlers/cards.go: how the stats endpoint reads its query and sets its cache headers. */
module CardHandlers {
  import opened Wrappers
  import opened Text
  import opened Errors
  import Ops
  import Cache
  import Render
  import Fetchers
  import StatsCard

  /** A query string, as the value query.Get returns for each name ("" when absent). */
  type Query = string -> string

  /** boolValue: an absent boolean is false. */
  function BoolValue(value: Option<bool>): (r: bool)
    ensures value.None? ==> !r
    ensures value.Some? ==> r == value.value
  {
    if value.None? then false else value.value
  }

  /** parseIntDefault: the parsed integer, or 0 when the text is empty or does not parse. */
  function ParseIntDefault(value: string): (r: int)
    ensures value == "" ==> r == 0
    ensures Ops.ParseInt(value).1 ==> r == Ops.ParseInt(value).0
    ensures !Ops.ParseInt(value).1 ==> r == 0
  {
    var parsed := Ops.ParseInt(value);
    if !parsed.1 then 0 else parsed.0
  }

  /** The optional data the fetcher is asked for, derived from the `show` list. */
  datatype ShowFlags = ShowFlags(includeMerged: bool, includeDiscussions: bool, includeDiscussionAnswers: bool)

  function ShowFlagsOf(showStats: seq<string>): (f: ShowFlags)
    ensures f.includeMerged <==>
      StatsCard.ContainsExact(showStats, "prs_merged") || StatsCard.ContainsExact(showStats, "prs_merged_percentage")
    ensures f.includeDiscussions <==> StatsCard.ContainsExact(showStats, "discussions_started")
    ensures f.includeDiscussionAnswers <==> StatsCard.ContainsExact(showStats, "discussions_answered")
  {
    ShowFlags(StatsCard.ContainsExact(showStats, "prs_merged") || StatsCard.ContainsExact(showStats, "prs_merged_percentage"),
              StatsCard.ContainsExact(showStats, "discussions_started"),
              StatsCard.ContainsExact(showStats, "discussions_answered"))
  }

  /** Membership is exact: a differently cased entry does not switch a flag on. */
  lemma ShowFlagsAreCaseSensitive()
    ensures ShowFlagsOf(["PRS_MERGED", "Discussions_Started"]) == ShowFlags(false, false, false)
  {
    var show := ["PRS_MERGED", "Discussions_Started"];
    assert show[0] != "prs_merged" && show[0] != "prs_merged_percentage" && show[0] != "discussions_started";
    assert show[1] != "prs_merged" && show[1] != "prs_merged_percentage" && show[1] != "discussions_started";
    assert show[0] != "discussions_answered" && show[1] != "discussions_answered";
  }

  /** An optional integer parameter: present only when it parses. */
  function OptionalInt(value: string): (r: Option<int>)
    ensures r.Some? <==> Ops.ParseInt(value).1
    ensures r.Some? ==> r.value == Ops.ParseInt(value).0
  {
    if Ops.ParseInt(value).1 then Some(Ops.ParseInt(value).0) else None
  }

  /** text_bold: true unless a boolean is given. */
  function TextBold(value: string): (r: bool)
    ensures Ops.ParseBoolean(value).None? ==> r
    ensures Ops.ParseBoolean(value).Some? ==> r == Ops.ParseBoolean(value).value
  {
    match Ops.ParseBoolean(value)
    case None => true
    case Some(b) => b
  }

  /** What the stats handler asks the fetcher for. */
  function FetchOptions(query: Query): (o: Fetchers.StatsOptions)
    ensures o.excludeRepo == Ops.ArrayOf(query("exclude_repo"))
    ensures o.includeAllCommits <==> Ops.ParseBoolean(query("include_all_commits")) == Some(true)
    ensures o.includeMergedPrs == ShowFlagsOf(Ops.ArrayOf(query("show"))).includeMerged
    ensures o.includeDiscussions == ShowFlagsOf(Ops.ArrayOf(query("show"))).includeDiscussions
    ensures o.includeDiscussionAnswers == ShowFlagsOf(Ops.ArrayOf(query("show"))).includeDiscussionAnswers
    ensures o.commitsYear == OptionalInt(query("commits_year"))
  {
    var flags := ShowFlagsOf(Ops.ArrayOf(query("show")));
    Fetchers.StatsOptions(BoolValue(Ops.ParseBoolean(query("include_all_commits"))), Ops.ArrayOf(query("exclude_repo")),
                          flags.includeMerged, flags.includeDiscussions, flags.includeDiscussionAnswers,
                          OptionalInt(query("commits_year")))
  }

  /** What the stats handler asks the card renderer for. */
  function CardOptions(query: Query): (o: StatsCard.StatCardOptions)
    ensures o.hidden == Ops.ArrayOf(query("hide")) && o.show == Ops.ArrayOf(query("show"))
    ensures o.cardWidth == ParseIntDefault(query("card_width")) && o.lineHeight == ParseIntDefault(query("line_height"))
    ensures o.textBold == TextBold(query("text_bold"))
    ensures o.hideRank <==> Ops.ParseBoolean(query("hide_rank")) == Some(true)
    ensures o.numberPrecision == OptionalInt(query("number_precision"))
    ensures o.commitsYear == OptionalInt(query("commits_year"))
    ensures o.locale == ToLower(query("locale"))
  {
    StatsCard.StatCardOptions(
      Ops.ArrayOf(query("hide")), BoolValue(Ops.ParseBoolean(query("show_icons"))),
      BoolValue(Ops.ParseBoolean(query("hide_title"))), BoolValue(Ops.ParseBoolean(query("hide_border"))),
      ParseIntDefault(query("card_width")), BoolValue(Ops.ParseBoolean(query("hide_rank"))),
      BoolValue(Ops.ParseBoolean(query("include_all_commits"))), OptionalInt(query("commits_year")),
      ParseIntDefault(query("line_height")),
      query("title_color"), query("ring_color"), query("icon_color"), query("text_color"), TextBold(query("text_bold")),
      query("bg_color"), query("theme"), query("custom_title"), query("border_color"),
      query("number_format"), OptionalInt(query("number_precision")), ToLower(query("locale")), Ops.ArrayOf(query("show")))
  }

  /** An HTTP response header. */
  datatype Header = Header(name: string, value: string)

  /** disableCaching */
  const NoCacheHeaders: seq<Header> := [
    Header("Cache-Control", "no-cache, no-store, must-revalidate, max-age=0, s-maxage=0"),
    Header("Pragma", "no-cache"),
    Header("Expires", "0")]

  function CacheControl(seconds: int): string {
    "max-age=" + FormatInt(seconds) + ", s-maxage=" + FormatInt(seconds) + ", stale-while-revalidate=" + FormatInt(Cache.DaySeconds)
  }

  predicate IsDevelopment(nodeEnv: string) {
    ToLower(nodeEnv) == "development"
  }

  /** setCacheHeaders; `nodeEnv` is the NODE_ENV setting. */
  function CacheHeaders(cacheSeconds: int, nodeEnv: string): (h: seq<Header>)
    ensures h == NoCacheHeaders <==> cacheSeconds < 1 || IsDevelopment(nodeEnv)
    ensures h != NoCacheHeaders ==> h == [Header("Cache-Control", CacheControl(cacheSeconds))]
  {
    if cacheSeconds < 1 || IsDevelopment(nodeEnv) then NoCacheHeaders
    else [Header("Cache-Control", CacheControl(cacheSeconds))]
  }

  /** setErrorCacheHeaders; `cacheSecondsSetting` is CACHE_SECONDS, `nodeEnv` is NODE_ENV. */
  function ErrorCacheHeaders(cacheSecondsSetting: string, nodeEnv: string): (h: seq<Header>)
    ensures var parsed := Ops.ParseInt(TrimSpace(cacheSecondsSetting));
      h == NoCacheHeaders <==> (parsed.1 && parsed.0 < 1) || IsDevelopment(nodeEnv)
    ensures h != NoCacheHeaders ==> h == [Header("Cache-Control", CacheControl(Cache.ErrorTtl))]
  {
    var parsed := Ops.ParseInt(TrimSpace(cacheSecondsSetting));
    if parsed.1 && parsed.0 < 1 then NoCacheHeaders
    else if IsDevelopment(nodeEnv) then NoCacheHeaders
    else [Header("Cache-Control", CacheControl(Cache.ErrorTtl))]
  }

  /** A positive CACHE_SECONDS does not lengthen the error lifetime: errors are cached for 600 seconds. */
  lemma ErrorCacheIgnoresPositiveSetting(cacheSecondsSetting: string)
    requires Ops.ParseInt(TrimSpace(cacheSecondsSetting)).1 && Ops.ParseInt(TrimSpace(cacheSecondsSetting)).0 >= 1
    ensures ErrorCacheHeaders(cacheSecondsSetting, "production") == [Header("Cache-Control", CacheControl(600))]
  {
    assert ToLower("production") != "development";
  }

  /** The error card the stats handler renders for a fetch error. */
  function FetchErrorCard(err: Error, query: Query): Result<Render.ErrorCard, Error> {
    Render.RenderError(err.Message(), RetrieveSecondaryMessage(Some(err)),
      Render.RenderOptions(query("title_color"), query("text_color"), query("bg_color"), query("border_color"),
                           query("theme"), Some(!err.MissingParam?)))
  }

  /** A missing parameter never links to the issue tracker; any other error does unless its hint blames
      the upstream API. */
  lemma FetchErrorIssueLink(err: Error, query: Query)
    requires FetchErrorCard(err, query).Success?
    ensures err.MissingParam? ==> FetchErrorCard(err, query).value.issueLink == ""
    ensures !err.MissingParam? ==>
      (FetchErrorCard(err, query).value.issueLink == Render.IssueLink <==>
        RetrieveSecondaryMessage(Some(err)) !in Render.UpstreamApiErrors)
  {
  }
}
