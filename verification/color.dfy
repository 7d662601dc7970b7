/** internal/common/color.go (with the default theme of internal/common/themes.go):
    hex-colour and gradient validation and the resolution of a card's colours. */
module Colors {
  import opened Wrappers
  import opened Text
  import opened Errors

  predicate IsHexDigit(c: char) {
    '0' <= c <= '9' || 'a' <= c <= 'f' || 'A' <= c <= 'F'
  }

  /** IsValidHexColor: 3, 4, 6 or 8 hex digits and nothing else (no leading "#"). */
  predicate IsValidHexColor(value: string)
    ensures IsValidHexColor(value) ==> '#' !in value && ',' !in value
  {
    (|value| == 3 || |value| == 4 || |value| == 6 || |value| == 8)
    && forall i :: 0 <= i < |value| ==> IsHexDigit(value[i])
  }

  /** isValidGradient: more than two items; the first (the angle) is not checked. */
  predicate IsValidGradient(colors: seq<string>)
    ensures IsValidGradient(colors) ==> |colors| >= 3 && forall i :: 1 <= i < |colors| ==> ',' !in colors[i]
  {
    |colors| > 2 && forall i :: 1 <= i < |colors| ==> IsValidHexColor(colors[i])
  }

  /** A colour value that fallbackColor reads as a gradient. */
  predicate IsGradientValue(color: string) {
    color != "" && IsValidGradient(Split(color, ','))
  }

  /** What fallbackColor returns: a colour, or a gradient's parts (the colour is then ""). */
  datatype Resolved = Resolved(color: string, gradient: Option<seq<string>>)

  /** fallbackColor */
  function FallbackColor(color: string, fallback: string): (r: Resolved)
    ensures r.gradient.Some? <==> IsGradientValue(color)
    ensures r.gradient.Some? ==> r.color == "" && r.gradient.value == Split(color, ',')
    ensures r.gradient.None? && IsValidHexColor(color) ==> r.color == "#" + color
    ensures r.gradient.None? && !IsValidHexColor(color) ==> r.color == fallback
  {
    var colors := if color != "" then Split(color, ',') else [];
    if |colors| > 1 && IsValidGradient(colors) then Resolved("", Some(colors))
    else if IsValidHexColor(color) then Resolved("#" + color, None)
    else Resolved(fallback, None)
  }

  /** A valid hex colour is never a gradient (it has no comma), and a gradient is never a hex colour. */
  lemma HexIsNotGradient(color: string)
    ensures IsValidHexColor(color) ==> !IsGradientValue(color)
    ensures IsGradientValue(color) ==> !IsValidHexColor(color)
  {
    if IsValidHexColor(color) && color != "" {
      SplitWithoutSeparator(color, ',');
    }
  }

  /** A string without the separator splits into itself alone. */
  lemma {:induction false} SplitWithoutSeparator(s: string, sep: char)
    requires sep !in s
    ensures Split(s, sep) == [s]
  {
    if |s| > 0 {
      assert sep !in s[1..];
      SplitWithoutSeparator(s[1..], sep);
      assert s == [s[0]] + s[1..];
    }
  }

  datatype Theme = Theme(titleColor: string, iconColor: string, textColor: string, bgColor: string,
                         borderColor: string, ringColor: string)

  const DefaultTheme: Theme := Theme("2f80ed", "4c71f2", "434d58", "fffefe", "e4e2e2", "")

  /** The theme table: only "default" is defined. */
  const Themes: map<string, Theme> := map["default" := DefaultTheme]

  datatype ColorsArgs = ColorsArgs(titleColor: string, textColor: string, iconColor: string, bgColor: string,
                                   borderColor: string, ringColor: string, theme: string)

  datatype CardColors = CardColors(titleColor: string, iconColor: string, textColor: string, bgColor: string,
                                   bgGradient: Option<seq<string>>, borderColor: string, ringColor: string)

  const ErrColorMessage := "Unexpected behavior, all colors except background should be string."

  /** The theme GetCardColors starts from: the named one if it exists, "default" otherwise. */
  function SelectedTheme(name: string): (t: Theme)
    ensures name !in Themes ==> t == DefaultTheme
  {
    if name != "" && name in Themes then Themes[name] else DefaultTheme
  }

  function StartsWithHash(s: string): bool {
    |s| > 0 && s[0] == '#'
  }

  /** GetCardColors */
  function GetCardColors(args: ColorsArgs): (r: Result<CardColors, Error>)
    ensures r.Failure? <==> IsGradientValue(args.titleColor) || IsGradientValue(args.ringColor)
                            || IsGradientValue(args.iconColor) || IsGradientValue(args.textColor)
                            || IsGradientValue(args.borderColor)
    ensures r.Failure? ==> r.error == ColorError(ErrColorMessage)
    ensures r.Success? ==>
      var c := r.value;
      StartsWithHash(c.titleColor) && StartsWithHash(c.iconColor) && StartsWithHash(c.textColor)
      && StartsWithHash(c.borderColor) && StartsWithHash(c.ringColor)
      && (c.bgGradient.None? <==> StartsWithHash(c.bgColor))
      && (c.bgColor == "" <==> c.bgGradient.Some?)
      && (c.bgGradient.Some? <==> IsGradientValue(args.bgColor))
    ensures r.Success? ==> r.value.titleColor == (if IsValidHexColor(args.titleColor) then "#" + args.titleColor
                                                  else "#" + DefaultTheme.titleColor)
    ensures r.Success? ==> r.value.ringColor == (if IsValidHexColor(args.ringColor) then "#" + args.ringColor
                                                 else r.value.titleColor)
    ensures r.Success? ==> r.value.iconColor == (if IsValidHexColor(args.iconColor) then "#" + args.iconColor
                                                 else "#" + DefaultTheme.iconColor)
    ensures r.Success? ==> r.value.textColor == (if IsValidHexColor(args.textColor) then "#" + args.textColor
                                                 else "#" + DefaultTheme.textColor)
    ensures r.Success? ==> r.value.borderColor == (if IsValidHexColor(args.borderColor) then "#" + args.borderColor
                                                   else "#" + SelectedTheme(args.theme).borderColor)
    ensures r.Success? && !IsGradientValue(args.bgColor) ==>
      r.value.bgColor == (if IsValidHexColor(args.bgColor) then "#" + args.bgColor else "#" + DefaultTheme.bgColor)
    ensures r.Success? && IsGradientValue(args.bgColor) ==> r.value.bgGradient == Some(Split(args.bgColor, ','))
  {
    var theme := SelectedTheme(args.theme);
    var borderColor := if theme.borderColor == "" then DefaultTheme.borderColor else theme.borderColor;
    var title := FallbackColor(args.titleColor, "#" + DefaultTheme.titleColor);
    if title.gradient.Some? then Failure(ColorError(ErrColorMessage)) else
    var ring := FallbackColor(args.ringColor, title.color);
    if ring.gradient.Some? then Failure(ColorError(ErrColorMessage)) else
    var icon := FallbackColor(args.iconColor, "#" + DefaultTheme.iconColor);
    if icon.gradient.Some? then Failure(ColorError(ErrColorMessage)) else
    var text := FallbackColor(args.textColor, "#" + DefaultTheme.textColor);
    if text.gradient.Some? then Failure(ColorError(ErrColorMessage)) else
    var bg := FallbackColor(args.bgColor, "#" + DefaultTheme.bgColor);
    var bgColor := if bg.gradient.None? && bg.color == "" then "#" + DefaultTheme.bgColor else bg.color;
    var border := FallbackColor(args.borderColor, "#" + borderColor);
    if border.gradient.Some? then Failure(ColorError(ErrColorMessage)) else
    Success(CardColors(title.color, icon.color, text.color, bgColor, bg.gradient, border.color, ring.color))
  }

  /** With no colour given, a card gets the default theme's colours, the ring taking the title's. */
  lemma NoColorsGiveDefaultTheme(theme: string)
    ensures GetCardColors(ColorsArgs("", "", "", "", "", "", theme))
         == Success(CardColors("#2f80ed", "#4c71f2", "#434d58", "#fffefe", None, "#e4e2e2", "#2f80ed"))
  {
    var args := ColorsArgs("", "", "", "", "", "", theme);
    assert !IsGradientValue("") && !IsValidHexColor("");
    var r := GetCardColors(args);
    assert r.Success?;
    var c := r.value;
    assert c.titleColor == "#2f80ed";
    assert c.iconColor == "#4c71f2";
    assert c.textColor == "#434d58";
    assert c.bgColor == "#fffefe" && c.bgGradient == None;
    assert SelectedTheme(theme) == DefaultTheme;
    assert c.borderColor == "#e4e2e2";
    assert c.ringColor == "#2f80ed";
  }
}
