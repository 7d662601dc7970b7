/** internal/common/render.go: the error card's issue-link decision and the flex layout of card items. */
module Render {
  import opened Wrappers
  import opened Text
  import opened Errors
  import opened Colors

  /** Secondary messages that blame the upstream API rather than this service. */
  const UpstreamApiErrors: set<string> := {TryAgainLater, MaxRetryHint}

  const IssueLink := " file an issue at https://tiny.one/readme-stats"

  datatype RenderOptions = RenderOptions(titleColor: string, textColor: string, bgColor: string,
                                         borderColor: string, theme: string, showRepoLink: Option<bool>)

  /** What the error card shows; the SVG text around these values is not modelled. */
  datatype ErrorCard = ErrorCard(colors: CardColors, issueLink: string, message: string, secondary: string)

  /** The issue link is shown unless the option turns it off or the error is upstream's. */
  predicate IssueLinkShown(showRepoLink: Option<bool>, secondary: string)
    ensures showRepoLink == Some(false) ==> !IssueLinkShown(showRepoLink, secondary)
    ensures IssueLinkShown(showRepoLink, secondary) ==> secondary != TryAgainLater && secondary != MaxRetryHint
  {
    showRepoLink.GetOr(true) && secondary !in UpstreamApiErrors
  }

  function ErrorColorsArgs(options: RenderOptions): ColorsArgs {
    ColorsArgs(options.titleColor, options.textColor, "", options.bgColor, options.borderColor, "", options.theme)
  }

  /** RenderError, up to the template text. */
  function RenderError(message: string, secondary: string, options: RenderOptions): (r: Result<ErrorCard, Error>)
    ensures GetCardColors(ErrorColorsArgs(options)).Failure? <==> r.Failure?
    ensures r.Failure? ==> r.error == GetCardColors(ErrorColorsArgs(options)).error
    ensures r.Success? ==>
      && r.value.colors == GetCardColors(ErrorColorsArgs(options)).value
      && r.value.message == message && r.value.secondary == secondary
      && (r.value.issueLink == IssueLink <==> IssueLinkShown(options.showRepoLink, secondary))
      && (r.value.issueLink == "" <==> !IssueLinkShown(options.showRepoLink, secondary))
  {
    match GetCardColors(ErrorColorsArgs(options))
    case Failure(e) => Failure(e)
    case Success(colors) =>
      var issueLink := if IssueLinkShown(options.showRepoLink, secondary) then IssueLink else "";
      Success(ErrorCard(colors, issueLink, message, secondary))
  }

  /** Upstream-blaming secondaries never carry the link; with the default option every other one does. */
  lemma IssueLinkCases(secondary: string)
    ensures !IssueLinkShown(None, TryAgainLater) && !IssueLinkShown(Some(true), MaxRetryHint)
    ensures !IssueLinkShown(Some(false), secondary)
    ensures secondary != TryAgainLater && secondary != MaxRetryHint ==> IssueLinkShown(None, secondary)
  {
  }

  /** An item placed by the flex layout: its original position, its markup and its offset. */
  datatype Placed = Placed(index: nat, item: string, offset: int)

  /** The placements for the first `n` items, and the offset the next one would get. */
  datatype Layout = Layout(placed: seq<Placed>, next: int)

  /** `sizes[i]`, or 0 past its end. */
  function SizeAt(sizes: seq<int>, i: nat): int {
    if i < |sizes| then sizes[i] else 0
  }

  /** The layout of items[..n]: blank items are skipped; every other one takes the running offset,
      which then grows by its size and the gap. */
  ghost function Arrange(items: seq<string>, gap: int, sizes: seq<int>, n: nat): Layout
    requires n <= |items|
  {
    if n == 0 then Layout([], 0)
    else
      var l := Arrange(items, gap, sizes, n - 1);
      if IsBlank(items[n - 1]) then l
      else Layout(l.placed + [Placed(n - 1, items[n - 1], l.next)], l.next + SizeAt(sizes, n - 1) + gap)
  }

  function Transform(direction: string, offset: int): string {
    if direction == "column" then "translate(0, " + FormatInt(offset) + ")"
    else "translate(" + FormatInt(offset) + ", 0)"
  }

  function Wrap(direction: string, p: Placed): string {
    "<g transform=\"" + Transform(direction, p.offset) + "\">" + p.item + "</g>"
  }

  /** FlexLayout: the k-th result wraps the k-th placed item at its offset. */
  method FlexLayout(items: seq<string>, gap: int, direction: string, sizes: seq<int>) returns (result: seq<string>)
    ensures var placed := Arrange(items, gap, sizes, |items|).placed;
      |result| == |placed| && forall k :: 0 <= k < |result| ==> result[k] == Wrap(direction, placed[k])
  {
    var lastSize := 0;
    result := [];
    for i := 0 to |items|
      invariant lastSize == Arrange(items, gap, sizes, i).next
      invariant |result| == |Arrange(items, gap, sizes, i).placed|
      invariant forall k :: 0 <= k < |result| ==> result[k] == Wrap(direction, Arrange(items, gap, sizes, i).placed[k])
    {
      ghost var before := Arrange(items, gap, sizes, i);
      TrimSpaceEmpty(items[i]);
      if TrimSpace(items[i]) == "" {
        assert Arrange(items, gap, sizes, i + 1) == before;
        continue;
      }
      var size := 0;
      if |sizes| > i {
        size := sizes[i];
      }
      var transform := "translate(" + FormatInt(lastSize) + ", 0)";
      if direction == "column" {
        transform := "translate(0, " + FormatInt(lastSize) + ")";
      }
      ghost var p := Placed(i, items[i], lastSize);
      assert Arrange(items, gap, sizes, i + 1) == Layout(before.placed + [p], lastSize + size + gap);
      assert forall k :: 0 <= k < |before.placed| ==> (before.placed + [p])[k] == before.placed[k];
      assert transform == Transform(direction, lastSize);
      var wrapped := "<g transform=\"" + transform + "\">" + items[i] + "</g>";
      assert wrapped == Wrap(direction, p);
      lastSize := lastSize + size + gap;
      result := result + [wrapped];
    }
  }

  /** The non-blank items, in order. */
  function NonBlank(items: seq<string>): (r: seq<string>)
    ensures |r| <= |items|
    ensures forall k :: 0 <= k < |r| ==> !IsBlank(r[k]) && r[k] in items
  {
    if items == [] then []
    else if IsBlank(items[|items| - 1]) then NonBlank(items[..|items| - 1])
    else NonBlank(items[..|items| - 1]) + [items[|items| - 1]]
  }

  function ItemsOf(placed: seq<Placed>): seq<string> {
    if placed == [] then [] else ItemsOf(placed[..|placed| - 1]) + [placed[|placed| - 1].item]
  }

  /** Exactly the non-blank items are placed, each once, in their original order. */
  lemma {:induction false} ArrangeKeepsNonBlank(items: seq<string>, gap: int, sizes: seq<int>, n: nat)
    requires n <= |items|
    ensures ItemsOf(Arrange(items, gap, sizes, n).placed) == NonBlank(items[..n])
  {
    if n > 0 {
      ArrangeKeepsNonBlank(items, gap, sizes, n - 1);
      assert items[..n][..n - 1] == items[..n - 1];
      var placed := Arrange(items, gap, sizes, n - 1).placed;
      if !IsBlank(items[n - 1]) {
        assert (placed + [Placed(n - 1, items[n - 1], Arrange(items, gap, sizes, n - 1).next)])[..|placed|] == placed;
      }
    }
  }

  /** Each placement names the item at its original position, and positions strictly increase. */
  ghost predicate InOrder(items: seq<string>, placed: seq<Placed>) {
    && (forall k :: 0 <= k < |placed| ==> placed[k].index < |items| && items[placed[k].index] == placed[k].item)
    && (forall k :: 0 < k < |placed| ==> placed[k - 1].index < placed[k].index)
  }

  lemma {:induction false} ArrangePositions(items: seq<string>, gap: int, sizes: seq<int>, n: nat)
    requires n <= |items|
    ensures InOrder(items, Arrange(items, gap, sizes, n).placed)
    ensures forall k :: 0 <= k < |Arrange(items, gap, sizes, n).placed| ==> Arrange(items, gap, sizes, n).placed[k].index < n
  {
    if n > 0 {
      ArrangePositions(items, gap, sizes, n - 1);
      var l := Arrange(items, gap, sizes, n - 1);
      if !IsBlank(items[n - 1]) {
        var p := l.placed + [Placed(n - 1, items[n - 1], l.next)];
        assert forall k :: 0 <= k < |l.placed| ==> p[k] == l.placed[k];
      }
    }
  }

  /** The first placed item sits at 0; each later one sits at the previous one's offset plus the previous
      item's size, looked up by its original position, plus the gap; the next offset continues the chain. */
  lemma {:induction false} ArrangeOffsets(items: seq<string>, gap: int, sizes: seq<int>, n: nat)
    requires n <= |items|
    ensures var l := Arrange(items, gap, sizes, n);
      && (|l.placed| > 0 ==> l.placed[0].offset == 0)
      && (forall k :: 0 < k < |l.placed| ==>
            l.placed[k].offset == l.placed[k - 1].offset + SizeAt(sizes, l.placed[k - 1].index) + gap)
      && l.next == (if l.placed == [] then 0
                    else l.placed[|l.placed| - 1].offset + SizeAt(sizes, l.placed[|l.placed| - 1].index) + gap)
  {
    if n > 0 {
      ArrangeOffsets(items, gap, sizes, n - 1);
      var l := Arrange(items, gap, sizes, n - 1);
      if !IsBlank(items[n - 1]) {
        var p := l.placed + [Placed(n - 1, items[n - 1], l.next)];
        assert forall k :: 0 <= k < |l.placed| ==> p[k] == l.placed[k];
      }
    }
  }

  /** Without sizes, the k-th placed item sits at k times the gap. */
  lemma {:induction false} ArrangeWithoutSizes(items: seq<string>, gap: int, n: nat)
    requires n <= |items|
    ensures var l := Arrange(items, gap, [], n);
      l.next == |l.placed| * gap && forall k :: 0 <= k < |l.placed| ==> l.placed[k].offset == k * gap
  {
    if n > 0 {
      ArrangeWithoutSizes(items, gap, n - 1);
      var l := Arrange(items, gap, [], n - 1);
      if !IsBlank(items[n - 1]) {
        var p := l.placed + [Placed(n - 1, items[n - 1], l.next)];
        assert Arrange(items, gap, [], n) == Layout(p, l.next + gap);
        assert forall k :: 0 <= k < |l.placed| ==> p[k] == l.placed[k];
        assert l.next + gap == (|l.placed| + 1) * gap;
      }
    }
  }
}
