/** internal/cards/stats.go: which stats the card shows, in what order, and the card's geometry. */
module StatsCard {
  import opened Wrappers
  import opened Text
  import opened Errors
  import Ops
  import Colors
  import opened I18nModel
  import Fetchers

  const CardMinWidth := 287
  const CardDefaultWidth := 287
  const RankCardMinWidth := 420
  const RankCardDefaultWidth := 450
  const RankOnlyCardMinWidth := 290
  const RankOnlyCardDefaultWidth := 290

  /** Locales whose labels are long enough to push the values 50 units to the right. */
  const LongLocales: set<string> := {"az", "bg", "cs", "de", "el", "es", "fil", "fi", "fr", "hu", "id", "ja", "ml",
    "my", "nl", "pl", "pt-br", "pt-pt", "ru", "sr", "sr-latn", "sw", "ta", "uk-ua", "uz", "zh-tw"}

  datatype StatCardOptions = StatCardOptions(
    hidden: seq<string>, showIcons: bool, hideTitle: bool, hideBorder: bool, cardWidth: int, hideRank: bool,
    includeAllCommits: bool, commitsYear: Option<int>, lineHeight: int,
    titleColor: string, ringColor: string, iconColor: string, textColor: string, textBold: bool,
    bgColor: string, theme: string, customTitle: string, borderColor: string,
    numberFormat: string, numberPrecision: Option<int>, locale: string, show: seq<string>)

  /** contains: exact, case-sensitive membership. */
  predicate ContainsExact(list: seq<string>, target: string)
    ensures ContainsExact(list, target) <==> target in list
  {
    exists i :: 0 <= i < |list| && list[i] == target
  }

  /** The possessive suffix for the card title: none after a trailing "s", case-insensitively. */
  function Apostrophe(name: string): (r: string)
    ensures r == "" <==> HasSuffix(ToLower(TrimSpace(name)), "s")
    ensures r != "" ==> r == "'"
  {
    if HasSuffix(ToLower(TrimSpace(name)), "s") then "" else "'"
  }

  /** clampPrecision: no value gives 2; a value is clamped into [0, 2]. */
  function ClampPrecision(value: Option<int>): (r: int)
    ensures 0 <= r <= 2
    ensures value.None? ==> r == 2
    ensures value.Some? && 0 <= value.value <= 2 ==> r == value.value
    ensures value.Some? && value.value < 0 ==> r == 0
    ensures value.Some? && value.value > 2 ==> r == 2
  {
    match value
    case None => 2
    case Some(v) =>
      var clamped := Ops.ClampValue(Ops.Num(v as real), 0.0, 2.0);
      assert clamped == (if v < 0 then 0 else if v > 2 then 2 else v) as real;
      clamped.Floor
  }

  /** totalCommitsYearLabel */
  function TotalCommitsYearLabel(includeAllCommits: bool, commitsYear: Option<int>, i18n: I18n): (r: string)
    ensures includeAllCommits ==> r == ""
    ensures !includeAllCommits && commitsYear.Some? ==> r == " (" + FormatInt(commitsYear.value) + ")"
    ensures !includeAllCommits && commitsYear.None? ==> r == " (" + T(i18n, "wakatimecard.lastyear") + ")"
  {
    if includeAllCommits then ""
    else if commitsYear.Some? then " (" + FormatInt(commitsYear.value) + ")"
    else " (" + T(i18n, "wakatimecard.lastyear") + ")"
  }

  /** borderOpacity: the border is drawn unless it is hidden. */
  function BorderOpacity(hidden: bool): (r: int)
    ensures r == 0 || r == 1
    ensures r == 0 <==> hidden
  {
    if hidden then 0 else 1
  }

  /** A stat before it is placed: its key, labelText, raw value and unit. */
  datatype StatItem = StatItem(id: string, labelText: string, value: string, unitSymbol: string)

  const OrderStatKeys: seq<string> := ["stars", "commits", "prs", "prs_merged", "prs_merged_percentage", "reviews",
    "issues", "discussions_started", "discussions_answered", "contribs"]

  /** The stats present whatever `Show` says, and those `Show` must name. */
  const AlwaysShown: set<string> := {"stars", "commits", "prs", "issues", "contribs"}
  const ShownOnRequest: set<string> := {"prs_merged", "prs_merged_percentage", "reviews", "discussions_started", "discussions_answered"}

  /** The entry RenderStatsCard stores under `key`; `percentText` is the merged-PR percentage already formatted. */
  function Entry(key: string, stats: Fetchers.StatsData, options: StatCardOptions, i18n: I18n, percentText: string): (e: StatItem)
    requires key in AlwaysShown + ShownOnRequest
    ensures e.id == key
    ensures key == "commits" ==>
      e.labelText == T(i18n, "statcard.commits") + TotalCommitsYearLabel(options.includeAllCommits, options.commitsYear, i18n)
    ensures key == "prs_merged_percentage" ==> e.value == percentText && e.unitSymbol == "%"
    ensures key != "prs_merged_percentage" ==> e.unitSymbol == ""
  {
    match key
    case "stars" => StatItem(key, T(i18n, "statcard.totalstars"), FormatInt(stats.totalStars), "")
    case "commits" =>
      StatItem(key, T(i18n, "statcard.commits") + TotalCommitsYearLabel(options.includeAllCommits, options.commitsYear, i18n),
               FormatInt(stats.totalCommits), "")
    case "prs" => StatItem(key, T(i18n, "statcard.prs"), FormatInt(stats.totalPrs), "")
    case "prs_merged" => StatItem(key, T(i18n, "statcard.prs-merged"), FormatInt(stats.totalPrsMerged), "")
    case "prs_merged_percentage" => StatItem(key, T(i18n, "statcard.prs-merged-percentage"), percentText, "%")
    case "reviews" => StatItem(key, T(i18n, "statcard.reviews"), FormatInt(stats.totalReviews), "")
    case "issues" => StatItem(key, T(i18n, "statcard.issues"), FormatInt(stats.totalIssues), "")
    case "discussions_started" =>
      StatItem(key, T(i18n, "statcard.discussions-started"), FormatInt(stats.totalDiscussionsStarted), "")
    case "discussions_answered" =>
      StatItem(key, T(i18n, "statcard.discussions-answered"), FormatInt(stats.totalDiscussionsAnswered), "")
    case _ => StatItem(key, T(i18n, "statcard.contribs"), FormatInt(stats.contributedTo), "")
  }

  /** statMap as RenderStatsCard leaves it: the five fixed stats, and each optional one that `Show` names. */
  function StatMap(stats: Fetchers.StatsData, options: StatCardOptions, i18n: I18n, percentText: string): (m: map<string, StatItem>)
    ensures forall k :: k in AlwaysShown ==> k in m
    ensures forall k :: k in ShownOnRequest ==> (k in m <==> ContainsExact(options.show, k))
    ensures forall k :: k in m ==> k in AlwaysShown + ShownOnRequest && m[k] == Entry(k, stats, options, i18n, percentText)
  {
    map k | k in AlwaysShown + ShownOnRequest && (k in AlwaysShown || ContainsExact(options.show, k))
      :: Entry(k, stats, options, i18n, percentText)
  }

  /** The keys that are shown: those of `keys`, in order, that are not hidden and are in the map. */
  ghost function Visible(keys: seq<string>, m: map<string, StatItem>, hidden: seq<string>): (r: seq<string>)
    ensures |r| <= |keys|
    ensures forall j :: 0 <= j < |r| ==> r[j] in m && !ContainsExact(hidden, r[j])
  {
    if keys == [] then []
    else
      var r := Visible(keys[..|keys| - 1], m, hidden);
      var k := keys[|keys| - 1];
      if ContainsExact(hidden, k) || k !in m then r else r + [k]
  }

  /** One more key: Visible grows by that key exactly when it is present and not hidden. */
  lemma VisibleStep(keys: seq<string>, m: map<string, StatItem>, hidden: seq<string>, t: nat)
    requires t < |keys|
    ensures Visible(keys[..t + 1], m, hidden)
      == if ContainsExact(hidden, keys[t]) || keys[t] !in m then Visible(keys[..t], m, hidden)
         else Visible(keys[..t], m, hidden) + [keys[t]]
  {
    assert keys[..t + 1][..t] == keys[..t];
  }

  /** A key is shown exactly when it is one of `keys`, present in the map and not hidden. */
  lemma {:induction false} VisibleMembers(keys: seq<string>, m: map<string, StatItem>, hidden: seq<string>)
    ensures forall k :: k in Visible(keys, m, hidden) <==> k in keys && k in m && !ContainsExact(hidden, k)
  {
    if keys != [] {
      var n := |keys| - 1;
      VisibleMembers(keys[..n], m, hidden);
      assert keys == keys[..n] + [keys[n]];
    }
  }

  /** Where each shown key sits in `keys`: the positions strictly increase, so the shown keys keep the order of
      `keys`, and no position is used twice. */
  ghost function VisiblePositions(keys: seq<string>, m: map<string, StatItem>, hidden: seq<string>): (ps: seq<nat>)
    ensures |ps| == |Visible(keys, m, hidden)|
    ensures forall j :: 0 <= j < |ps| ==> ps[j] < |keys| && keys[ps[j]] == Visible(keys, m, hidden)[j]
    ensures forall j :: 0 < j < |ps| ==> ps[j - 1] < ps[j]
  {
    if keys == [] then []
    else
      var n := |keys| - 1;
      var ps := VisiblePositions(keys[..n], m, hidden);
      assert forall j :: 0 <= j < |ps| ==> keys[..n][ps[j]] == keys[ps[j]];
      if ContainsExact(hidden, keys[n]) || keys[n] !in m then ps else ps + [n]
  }

  /** A stat as it is placed on the card. */
  datatype PlacedStat = PlacedStat(id: string, labelText: string, value: string, unitSymbol: string, index: nat,
                                   showIcons: bool, shiftValuePos: real, bold: bool, delay: int, valueX: real)

  /** applyNumberFormat; `kFormat` stands for the k-formatter applied to the parsed value. */
  function ApplyNumberFormat(id: string, raw: string, numberFormat: string, numberPrecision: Option<int>,
                             kFormat: (string, Option<int>) -> string): (r: string)
    ensures id == "prs_merged_percentage" ==> r == raw
    ensures id != "prs_merged_percentage" && ToLower(numberFormat) == "long" ==> r == raw
    ensures id != "prs_merged_percentage" && ToLower(numberFormat) != "long" ==> r == kFormat(raw, numberPrecision)
  {
    if id == "prs_merged_percentage" then raw
    else
      var format := if numberFormat == "" then "short" else numberFormat;
      assert ToLower(format) == "long" <==> ToLower(numberFormat) == "long" by {
        if numberFormat == "" {
          assert ToLower(format)[0] == 's';
        }
      }
      if ToLower(format) == "long" then raw else kFormat(raw, numberPrecision)
  }

  /** The placement of one stat: renderStatItem's delay and value position included. */
  function Place(item: StatItem, index: nat, options: StatCardOptions, locale: string,
                 kFormat: (string, Option<int>) -> string): (p: PlacedStat)
    ensures p.id == item.id && p.labelText == item.labelText && p.index == index
    ensures p.delay == (index + 3) * 150
    ensures p.shiftValuePos == (if locale in LongLocales then 129.01 else 79.01)
    ensures p.valueX == (if options.showIcons then 140.0 else 120.0) + p.shiftValuePos
  {
    var shift := 79.01 + (if locale in LongLocales then 50.0 else 0.0);
    PlacedStat(item.id, item.labelText, ApplyNumberFormat(item.id, item.value, options.numberFormat, options.numberPrecision, kFormat),
               item.unitSymbol, index, options.showIcons, shift, options.textBold, (index + 3) * 150,
               (if options.showIcons then 140.0 else 120.0) + shift)
  }

  /** The stat-item loop of RenderStatsCard over the key order `keys` (the card passes OrderStatKeys):
      shown stats in key order, indexed from 0. */
  method PlaceStats(keys: seq<string>, statMap: map<string, StatItem>, options: StatCardOptions, locale: string,
                    kFormat: (string, Option<int>) -> string) returns (items: seq<PlacedStat>)
    ensures |items| == |Visible(keys, statMap, options.hidden)|
    ensures forall j :: 0 <= j < |items| ==>
      items[j] == Place(statMap[Visible(keys, statMap, options.hidden)[j]], j, options, locale, kFormat)
  {
    items := [];
    var index := 0;
    for t := 0 to |keys|
      invariant index == |items| == |Visible(keys[..t], statMap, options.hidden)|
      invariant forall j :: 0 <= j < |items| ==>
        items[j] == Place(statMap[Visible(keys[..t], statMap, options.hidden)[j]], j, options, locale, kFormat)
    {
      var key := keys[t];
      VisibleStep(keys, statMap, options.hidden, t);
      if ContainsExact(options.hidden, key) {
        continue;
      }
      if key !in statMap {
        continue;
      }
      var item := Place(statMap[key], index, options, locale, kFormat);
      items := items + [item];
      index := index + 1;
    }
    assert keys[..|keys|] == keys;
  }

  /** Go's integer division, which truncates toward zero. */
  function GoDiv(a: int, b: int): (q: int)
    requires b > 0
    ensures a >= 0 ==> q == a / b
    ensures a < 0 ==> q == -((-a) / b)
  {
    if a >= 0 then a / b else -((-a) / b)
  }

  /** The line height, 25 when none is given. */
  function LineHeight(requested: int): (r: int)
    ensures requested == 0 ==> r == 25
    ensures requested != 0 ==> r == requested
  {
    if requested == 0 then 25 else requested
  }

  /** The card's height before the title is removed. */
  function BaseHeight(itemCount: nat, lineHeight: int, hideRank: bool): (h: int)
    ensures h >= 0 && h >= 45 + (itemCount + 1) * lineHeight
    ensures var lines := 45 + (itemCount + 1) * lineHeight;
      !hideRank && itemCount > 0 ==> h == (if lines > 150 then lines else 150)
    ensures var lines := 45 + (itemCount + 1) * lineHeight;
      !hideRank && itemCount == 0 ==> h == (if lines > 180 then lines else 180)
    ensures hideRank ==> h == (if 45 + (itemCount + 1) * lineHeight > 0 then 45 + (itemCount + 1) * lineHeight else 0)
    ensures !hideRank && 45 + (itemCount + 1) * lineHeight >= 180 ==> h == 45 + (itemCount + 1) * lineHeight
  {
    var lines := 45 + (itemCount + 1) * lineHeight;
    var base := if lines > 0 then lines else 0;
    if hideRank then base
    else
      var least := if itemCount > 0 then 150 else 180;
      if base > least then base else least
  }

  /** With a non-negative line height, more stats never make the card shorter, except that a rank-only
      card (no stats) is kept at least 180 high while a card with stats is kept at least 150 high. */
  lemma BaseHeightMonotone(n1: nat, n2: nat, lineHeight: int, hideRank: bool)
    requires n1 <= n2 && lineHeight >= 0 && (hideRank || n1 > 0)
    ensures BaseHeight(n1, lineHeight, hideRank) <= BaseHeight(n2, lineHeight, hideRank)
  {
    assert (n1 + 1) * lineHeight <= (n2 + 1) * lineHeight by {
      assert (n2 + 1) * lineHeight == (n1 + 1) * lineHeight + (n2 - n1) * lineHeight;
      assert (n2 - n1) * lineHeight >= 0;
    }
  }

  /** The rendered height: hiding the title takes 30 off, never below 0. */
  function RenderHeight(baseHeight: int, hideTitle: bool): (h: int)
    ensures baseHeight >= 0 ==> h >= 0
    ensures !hideTitle ==> h == baseHeight
    ensures hideTitle ==> h == (if baseHeight - 30 < 0 then 0 else baseHeight - 30)
  {
    if hideTitle then (if baseHeight - 30 < 0 then 0 else baseHeight - 30) else baseHeight
  }

  /** Room for icons is made only when icons are on and there is a stat to carry one. */
  function IconWidth(showIcons: bool, itemCount: nat): (w: int)
    ensures w == 17 <==> showIcons && itemCount > 0
    ensures w == 0 <==> !(showIcons && itemCount > 0)
  {
    if showIcons && itemCount > 0 then 17 else 0
  }

  /** The narrowest card; `titleWidth` is the truncated measured width of the title plus margins. */
  function MinCardWidth(hideRank: bool, itemCount: nat, iconWidth: int, titleWidth: int): (w: int)
    ensures hideRank ==> w >= CardMinWidth + iconWidth && w >= titleWidth + iconWidth
    ensures hideRank ==> w == (if titleWidth < CardMinWidth then CardMinWidth else titleWidth) + iconWidth
    ensures !hideRank && itemCount > 0 ==> w == RankCardMinWidth + iconWidth
    ensures !hideRank && itemCount == 0 ==> w == RankOnlyCardMinWidth + iconWidth
  {
    if hideRank then (if titleWidth < CardMinWidth then CardMinWidth else titleWidth) + iconWidth
    else if itemCount > 0 then RankCardMinWidth + iconWidth
    else RankOnlyCardMinWidth + iconWidth
  }

  function DefaultCardWidth(hideRank: bool, itemCount: nat, iconWidth: int): (w: int)
    ensures hideRank ==> w == CardDefaultWidth + iconWidth
    ensures !hideRank && itemCount > 0 ==> w == RankCardDefaultWidth + iconWidth
    ensures !hideRank && itemCount == 0 ==> w == RankOnlyCardDefaultWidth + iconWidth
  {
    if hideRank then CardDefaultWidth + iconWidth
    else if itemCount > 0 then RankCardDefaultWidth + iconWidth
    else RankOnlyCardDefaultWidth + iconWidth
  }

  /** The card width: the requested one, or the default when none is requested, raised to the minimum. */
  function CardWidth(requested: int, defaultWidth: int, minWidth: int): (w: int)
    ensures w >= minWidth
    ensures requested != 0 && requested >= minWidth ==> w == requested
    ensures requested == 0 && defaultWidth >= minWidth ==> w == defaultWidth
    ensures w == minWidth || w == (if requested == 0 then defaultWidth else requested)
  {
    var width := if requested == 0 then defaultWidth else requested;
    if width < minWidth then minWidth else width
  }

  /** When the rank is shown, a card with no requested width gets its default width exactly. */
  lemma DefaultWidthWithRank(itemCount: nat, showIcons: bool, titleWidth: int)
    ensures var iw := IconWidth(showIcons, itemCount);
      CardWidth(0, DefaultCardWidth(false, itemCount, iw), MinCardWidth(false, itemCount, iw, titleWidth))
        == DefaultCardWidth(false, itemCount, iw)
  {
  }

  /** calculateRankXTranslation */
  function RankXTranslation(width: int, minCardWidth: int, hasStats: bool, iconWidth: int): (x: int)
    ensures hasStats && width <= RankCardDefaultWidth ==>
      x == RankCardMinWidth + iconWidth - 70 + GoDiv(width - minCardWidth, 2)
    ensures hasStats && width > RankCardDefaultWidth ==>
      x == RankCardMinWidth + iconWidth - 70 + GoDiv(RankCardDefaultWidth - minCardWidth, 2) + (width - RankCardDefaultWidth)
    ensures !hasStats ==> x == GoDiv(width, 2) + 10
  {
    if hasStats then
      var minX := RankCardMinWidth + iconWidth - 70;
      if width > RankCardDefaultWidth then
        var xMaxExpansion := minX + GoDiv(RankCardDefaultWidth - minCardWidth, 2);
        xMaxExpansion + (width - RankCardDefaultWidth)
      else minX + GoDiv(width - minCardWidth, 2)
    else GoDiv(width, 2) + 20 - 10
  }

  /** With stats, the rank circle sits at 350 plus the icon room on the narrowest card, and moves
      right, never left, as the card widens. */
  lemma RankXMonotone(w1: int, w2: int, minCardWidth: int, iconWidth: int)
    requires minCardWidth <= w1 <= w2 && minCardWidth <= RankCardDefaultWidth
    ensures RankXTranslation(minCardWidth, minCardWidth, true, iconWidth) == 350 + iconWidth
    ensures RankXTranslation(w1, minCardWidth, true, iconWidth) <= RankXTranslation(w2, minCardWidth, true, iconWidth)
  {
  }

  /** renderGradient's stop offset for the stop at `idx` among `n` colours (the angle included). */
  function GradientOffset(idx: nat, n: nat): int {
    if n > 2 then (idx * 100) / (n - 2) else 0
  }

  /** The rank-only floor is higher: with the default line height, showing one stat makes the card shorter
      than showing none. */
  lemma RankOnlyCardIsTaller()
    ensures BaseHeight(0, 25, false) == 180 && BaseHeight(1, 25, false) == 150
  {
  }

  /** Offsets run from 0 at the first stop to 100 at the last, without going back. */
  lemma GradientOffsets(i: nat, j: nat, n: nat)
    requires 2 <= n && i <= j <= n - 2
    ensures GradientOffset(0, n) == 0
    ensures 0 <= GradientOffset(i, n) <= GradientOffset(j, n) <= 100
    ensures n > 2 ==> GradientOffset(n - 2, n) == 100
  {
    if n > 2 {
      var d := n - 2;
      DivMonotone(i * 100, j * 100, d);
      DivMonotone(j * 100, d * 100, d);
      ExactQuotient(100, d);
    }
  }

  lemma DivMonotone(a: nat, b: nat, d: nat)
    requires a <= b && d > 0
    ensures a / d <= b / d
  {
    var qa, qb := a / d, b / d;
    assert a == qa * d + a % d;
    assert b == qb * d + b % d;
    assert (qb - qa + 1) * d == qb * d - qa * d + d;
    PositiveFactor(qb - qa + 1, d);
  }

  lemma PositiveFactor(x: int, d: int)
    requires d > 0 && x * d > 0
    ensures x > 0
  {
  }

  lemma ExactQuotient(x: nat, d: nat)
    requires d > 0
    ensures (x * d) / d == x
  {
    var q, r := (x * d) / d, (x * d) % d;
    assert x * d == q * d + r;
    assert (x - q) * d == r;
    assert (q - x + 1) * d == d - r;
    PositiveFactor(q - x + 1, d);
    assert (x - q + 1) * d == r + d;
    PositiveFactor(x - q + 1, d);
  }

  function GradientStop(offset: int, color: string): string {
    "<stop offset=\"" + FormatInt(offset) + "%\" stop-color=\"#" + color + "\" />"
  }

  /** The stops for `colors[1..]`. */
  function GradientStops(colors: seq<string>): (stops: seq<string>)
    requires |colors| >= 2
    ensures |stops| == |colors| - 1
    ensures forall i :: 0 <= i < |stops| ==> stops[i] == GradientStop(GradientOffset(i, |colors|), colors[i + 1])
  {
    seq(|colors| - 1, i requires 0 <= i < |colors| - 1 => GradientStop(GradientOffset(i, |colors|), colors[i + 1]))
  }

  function GradientDefs(angle: string, stops: seq<string>): string {
    "<defs><linearGradient id=\"gradient\" gradientTransform=\"rotate(" + angle
      + ")\" gradientUnits=\"userSpaceOnUse\">" + Join(stops, "") + "</linearGradient></defs>"
  }

  /** renderGradient: nothing for fewer than two entries; otherwise the angle and one stop per colour. */
  method RenderGradient(colors: seq<string>) returns (s: string)
    ensures |colors| <= 1 ==> s == ""
    ensures |colors| >= 2 ==> s == GradientDefs(colors[0], GradientStops(colors))
  {
    if |colors| <= 1 {
      return "";
    }
    var angle := colors[0];
    var stops: seq<string> := [];
    for idx := 0 to |colors| - 1
      invariant |stops| == idx
      invariant forall i :: 0 <= i < idx ==> stops[i] == GradientStop(GradientOffset(i, |colors|), colors[i + 1])
    {
      var offset := 0;
      if |colors| > 2 {
        offset := (idx * 100) / (|colors| - 2);
      }
      assert offset == GradientOffset(idx, |colors|);
      stops := stops + [GradientStop(offset, colors[idx + 1])];
    }
    assert stops == GradientStops(colors);
    s := GradientDefs(angle, stops);
  }

  /** One accessibility label; the commits label is rebuilt and joined with " : ". */
  function A11yLabel(key: string, stat: StatItem, includeAllCommits: bool, commitsYear: Option<int>, i18n: I18n): string {
    if key == "commits" then
      T(i18n, "statcard.commits") + TotalCommitsYearLabel(includeAllCommits, commitsYear, i18n) + " : " + stat.value
    else stat.labelText + ": " + stat.value
  }

  /** The label of each of `keys`, in order. */
  ghost function A11yLabels(keys: seq<string>, stats: map<string, StatItem>, includeAllCommits: bool,
                            commitsYear: Option<int>, i18n: I18n): seq<string>
    requires forall k :: k in keys ==> k in stats
  {
    seq(|keys|, i requires 0 <= i < |keys| => A11yLabel(keys[i], stats[keys[i]], includeAllCommits, commitsYear, i18n))
  }

  /** buildAccessibilityLabels over the key order `keys` (the card passes OrderStatKeys): the labels of the shown
      stats, with their unformatted values, joined by ", ". */
  method BuildAccessibilityLabels(keys: seq<string>, stats: map<string, StatItem>, hidden: seq<string>,
                                  includeAllCommits: bool, commitsYear: Option<int>, i18n: I18n) returns (s: string)
    ensures s == Join(A11yLabels(Visible(keys, stats, hidden), stats, includeAllCommits, commitsYear, i18n), ", ")
  {
    var items: seq<string> := [];
    for t := 0 to |keys|
      invariant |items| == |Visible(keys[..t], stats, hidden)|
      invariant forall j :: 0 <= j < |items| ==>
        items[j] == A11yLabel(Visible(keys[..t], stats, hidden)[j], stats[Visible(keys[..t], stats, hidden)[j]],
                              includeAllCommits, commitsYear, i18n)
    {
      var key := keys[t];
      VisibleStep(keys, stats, hidden, t);
      if ContainsExact(hidden, key) {
        continue;
      }
      if key !in stats {
        continue;
      }
      var stat := stats[key];
      if key == "commits" {
        items := items + [T(i18n, "statcard.commits") + TotalCommitsYearLabel(includeAllCommits, commitsYear, i18n) + " : " + stat.value];
        continue;
      }
      items := items + [stat.labelText + ": " + stat.value];
    }
    assert keys[..|keys|] == keys;
    assert items == A11yLabels(Visible(keys, stats, hidden), stats, includeAllCommits, commitsYear, i18n);
    s := Join(items, ", ");
  }

  /** The card title: the custom title, else the stats title, or the rank title when no stat is shown. */
  function TitleText(i18n: I18n, itemCount: nat, customTitle: string): (t: string)
    ensures customTitle != "" ==> t == customTitle
    ensures customTitle == "" && itemCount > 0 ==> t == T(i18n, "statcard.title")
    ensures customTitle == "" && itemCount == 0 ==> t == T(i18n, "statcard.ranktitle")
  {
    if customTitle != "" then customTitle
    else if itemCount == 0 then T(i18n, "statcard.ranktitle")
    else T(i18n, "statcard.title")
  }

  const NoStatsError := NewCustomError("Could not render stats card.", "Either stats or rank are required.")

  /** The rank circle's position. */
  datatype RankCircle = RankCircle(x: int, y: int)

  /** What RenderStatsCard puts into its SVG template; the markup around these values is not modelled. */
  datatype StatsCardView = StatsCardView(
    width: int, height: int, title: string, a11yTitle: string, a11yDesc: string, items: seq<PlacedStat>,
    rankCircle: Option<RankCircle>, gradientDefs: string, bgFill: string, borderColor: string, titleColor: string,
    borderOpacity: int)

  function CardColorsArgs(options: StatCardOptions): Colors.ColorsArgs {
    Colors.ColorsArgs(options.titleColor, options.textColor, options.iconColor, options.bgColor, options.borderColor,
                      options.ringColor, options.theme)
  }

  /** The translator of a card: the lower-cased locale over the stat-card table (which depends on the name
      and its apostrophe) merged with the WakaTime table, whose entries win. */
  function CardI18n(stats: Fetchers.StatsData, options: StatCardOptions,
                    statCardLocales: (string, string) -> map<string, map<string, string>>,
                    wakatimeLocales: map<string, map<string, string>>): I18n {
    NewI18n(ToLower(options.locale), statCardLocales(stats.name, Apostrophe(stats.name)) + wakatimeLocales)
  }

  function CardStatMap(stats: Fetchers.StatsData, options: StatCardOptions, i18n: I18n,
                       formatFixed: (int, real) -> string): map<string, StatItem> {
    StatMap(stats, options, i18n, formatFixed(ClampPrecision(options.numberPrecision), stats.mergedPrsPercentage))
  }

  /** The card's measurements for `n` shown stats; `titleWidth` as in MinCardWidth. */
  datatype Geometry = Geometry(height: int, width: int, rankCircle: Option<RankCircle>)

  function CardGeometry(n: nat, options: StatCardOptions, titleWidth: int): (g: Geometry)
    ensures g.height >= 0
    ensures options.hideRank <==> g.rankCircle.None?
  {
    var iconWidth := IconWidth(options.showIcons, n);
    var baseHeight := BaseHeight(n, LineHeight(options.lineHeight), options.hideRank);
    var minCardWidth := MinCardWidth(options.hideRank, n, iconWidth, titleWidth);
    var width := CardWidth(options.cardWidth, DefaultCardWidth(options.hideRank, n, iconWidth), minCardWidth);
    Geometry(RenderHeight(baseHeight, options.hideTitle), width,
             if options.hideRank then None
             else Some(RankCircle(RankXTranslation(width, minCardWidth, n > 0, iconWidth), GoDiv(baseHeight, 2) - 50)))
  }

  /** The card's background: a gradient fill when the colours carry one, the plain background colour otherwise. */
  method CardBackground(colors: Colors.CardColors) returns (gradientDefs: string, bgFill: string)
    ensures colors.bgGradient.Some? && |colors.bgGradient.value| > 0 ==>
      && bgFill == "url(#gradient)"
      && (|colors.bgGradient.value| >= 2 ==>
            gradientDefs == GradientDefs(colors.bgGradient.value[0], GradientStops(colors.bgGradient.value)))
    ensures !(colors.bgGradient.Some? && |colors.bgGradient.value| > 0) ==> bgFill == colors.bgColor && gradientDefs == ""
  {
    gradientDefs := "";
    bgFill := colors.bgColor;
    if colors.bgGradient.Some? && |colors.bgGradient.value| > 0 {
      gradientDefs := RenderGradient(colors.bgGradient.value);
      bgFill := "url(#gradient)";
    }
  }

  /** RenderStatsCard up to its templates. `formatFixed` stands for "%.*f", `kFormat` for the k-formatter
      and `titleWidth` for 50 plus twice the measured title width, truncated. */
  method RenderStatsCard(stats: Fetchers.StatsData, options: StatCardOptions,
                         statCardLocales: (string, string) -> map<string, map<string, string>>,
                         wakatimeLocales: map<string, map<string, string>>,
                         formatFixed: (int, real) -> string, kFormat: (string, Option<int>) -> string,
                         titleWidth: string -> int) returns (r: Result<StatsCardView, Error>)
    ensures Colors.GetCardColors(CardColorsArgs(options)).Failure? ==>
      r == Failure(Colors.GetCardColors(CardColorsArgs(options)).error)
    ensures Colors.GetCardColors(CardColorsArgs(options)).Success? ==>
      CardComposed(r, stats, options, Colors.GetCardColors(CardColorsArgs(options)).value,
                   CardI18n(stats, options, statCardLocales, wakatimeLocales),
                   CardStatMap(stats, options, CardI18n(stats, options, statCardLocales, wakatimeLocales), formatFixed),
                   kFormat, titleWidth)
  {
    var colorsResult := Colors.GetCardColors(CardColorsArgs(options));
    if colorsResult.Failure? {
      return Failure(colorsResult.error);
    }
    var colors := colorsResult.value;
    var apostrophe := Apostrophe(stats.name);
    var locale := ToLower(options.locale);
    var i18n := NewI18n(locale, statCardLocales(stats.name, apostrophe) + wakatimeLocales);
    assert i18n == CardI18n(stats, options, statCardLocales, wakatimeLocales);
    var statMap := CardStatMap(stats, options, i18n, formatFixed);
    r := ComposeCard(stats, options, colors, i18n, statMap, kFormat, titleWidth);
  }

  /** What a rendered card holds for resolved colours `c`, translator `i18n` and stat table `m`: no card
      when no stat is shown and the rank is hidden; otherwise exactly the shown stats in order, the
      geometry, the titles, the accessibility labels, the border and the background. */
  ghost predicate CardComposed(r: Result<StatsCardView, Error>, stats: Fetchers.StatsData, options: StatCardOptions,
                               c: Colors.CardColors, i18n: I18n, m: map<string, StatItem>,
                               kFormat: (string, Option<int>) -> string, titleWidth: string -> int)
  {
    var shown := Visible(OrderStatKeys, m, options.hidden);
    && (r.Failure? <==> |shown| == 0 && options.hideRank)
    && (r.Failure? ==> r.error == NoStatsError)
    && (r.Success? ==>
      var title := TitleText(i18n, |shown|, options.customTitle);
      var g := CardGeometry(|shown|, options, titleWidth(title));
      var card := r.value;
      && |card.items| == |shown|
      && (forall j :: 0 <= j < |shown| ==> card.items[j] == Place(m[shown[j]], j, options, ToLower(options.locale), kFormat))
      && card.height == g.height && card.width == g.width && card.rankCircle == g.rankCircle
      && card.title == title
      && card.a11yTitle == title + ", Rank: " + stats.rank.level
      && card.a11yDesc == Join(A11yLabels(shown, m, options.includeAllCommits, options.commitsYear, i18n), ", ")
      && card.borderOpacity == BorderOpacity(options.hideBorder)
      && card.borderColor == c.borderColor && card.titleColor == c.titleColor
      && if c.bgGradient.Some? && |c.bgGradient.value| > 0 then
           && card.bgFill == "url(#gradient)"
           && (|c.bgGradient.value| >= 2 ==> card.gradientDefs == GradientDefs(c.bgGradient.value[0], GradientStops(c.bgGradient.value)))
         else card.bgFill == c.bgColor && card.gradientDefs == "")
  }

  /** RenderStatsCard once the colours, the translator and the stat table are known. */
  method ComposeCard(stats: Fetchers.StatsData, options: StatCardOptions, colors: Colors.CardColors, i18n: I18n,
                     statMap: map<string, StatItem>, kFormat: (string, Option<int>) -> string,
                     titleWidth: string -> int) returns (r: Result<StatsCardView, Error>)
    ensures CardComposed(r, stats, options, colors, i18n, statMap, kFormat, titleWidth)
  {
    var locale := ToLower(options.locale);
    ghost var shown := Visible(OrderStatKeys, statMap, options.hidden);
    var statItems := PlaceStats(OrderStatKeys, statMap, options, locale, kFormat);
    if |statItems| == 0 && options.hideRank {
      return Failure(NoStatsError);
    }
    var titleText := TitleText(i18n, |statItems|, options.customTitle);
    var geometry := CardGeometry(|statItems|, options, titleWidth(titleText));
    var labels := BuildAccessibilityLabels(OrderStatKeys, statMap, options.hidden, options.includeAllCommits,
                                           options.commitsYear, i18n);
    var gradientDefs, bgFill := CardBackground(colors);
    var view := StatsCardView(geometry.width, geometry.height, titleText, titleText + ", Rank: " + stats.rank.level, labels,
                              statItems, geometry.rankCircle, gradientDefs, bgFill, colors.borderColor, colors.titleColor,
                              BorderOpacity(options.hideBorder));
    return Success(view);
  }
}
