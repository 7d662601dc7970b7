/** internal/common/cache.go: the cache lifetimes and their resolution from a request. */
module Cache {
  import opened Wrappers
  import opened Ops

  const MinSeconds := 60
  const HourSeconds := 60 * MinSeconds
  const DaySeconds := 24 * HourSeconds

  /** A card's cache lifetime bounds, in seconds. */
  datatype CacheTtl = CacheTtl(default: int, min: int, max: int)

  const StatsCardTtl := CacheTtl(DaySeconds, 12 * HourSeconds, 2 * DaySeconds)
  const TopLangsTtl := CacheTtl(6 * DaySeconds, 2 * DaySeconds, 10 * DaySeconds)
  const PinCardTtl := CacheTtl(10 * DaySeconds, DaySeconds, 10 * DaySeconds)
  const GistCardTtl := CacheTtl(2 * DaySeconds, DaySeconds, 10 * DaySeconds)
  const WakatimeTtl := CacheTtl(DaySeconds, 12 * HourSeconds, 2 * DaySeconds)
  const ErrorTtl := 10 * MinSeconds

  /** The configured lifetimes have the values the handlers rely on. */
  lemma TtlValues()
    ensures StatsCardTtl == CacheTtl(86400, 43200, 172800)
    ensures ErrorTtl == 600
    ensures StatsCardTtl.min <= StatsCardTtl.default <= StatsCardTtl.max
    ensures TopLangsTtl.min <= TopLangsTtl.default <= TopLangsTtl.max
    ensures PinCardTtl.min <= PinCardTtl.default <= PinCardTtl.max
    ensures GistCardTtl.min <= GistCardTtl.default <= GistCardTtl.max
    ensures WakatimeTtl.min <= WakatimeTtl.default <= WakatimeTtl.max
  {
  }

  /** The override read from CACHE_SECONDS, if it is set and parses as an integer. */
  function CacheOverride(cacheSecondsSetting: string): (r: Option<int>)
    ensures r.Some? <==> cacheSecondsSetting != "" && ParseInt(cacheSecondsSetting).1
    ensures r.Some? ==> r.value == ParseInt(cacheSecondsSetting).0
  {
    if cacheSecondsSetting != "" && ParseInt(cacheSecondsSetting).1 then Some(ParseInt(cacheSecondsSetting).0) else None
  }

  /** ResolveCacheSeconds; `cacheSecondsSetting` is the CACHE_SECONDS setting. The clamp goes
      through float64 and back, which is exact for the values involved. */
  function ResolveCacheSeconds(cacheSecondsSetting: string, requested: int, def: int, min: int, max: int): (r: int)
    ensures CacheOverride(cacheSecondsSetting).Some? ==> r == CacheOverride(cacheSecondsSetting).value
    ensures CacheOverride(cacheSecondsSetting).None? && requested == 0 ==> r == def
    ensures CacheOverride(cacheSecondsSetting).None? && requested != 0 ==>
      r == (if requested < min then min else if requested > max then max else requested)
  {
    var clamped := ClampValue(Num(requested as real), min as real, max as real);
    assert clamped == (if requested < min then min else if requested > max then max else requested) as real;
    var cacheSeconds := if requested == 0 then def else clamped.Floor;
    match CacheOverride(cacheSecondsSetting)
    case Some(parsed) => parsed
    case None => cacheSeconds
  }

  /** Without an override, and with a default inside the bounds, the result is inside the bounds. */
  lemma ResolveWithinBounds(cacheSecondsSetting: string, requested: int, def: int, min: int, max: int)
    requires CacheOverride(cacheSecondsSetting).None?
    requires min <= def <= max
    ensures min <= ResolveCacheSeconds(cacheSecondsSetting, requested, def, min, max) <= max
  {
  }
}
