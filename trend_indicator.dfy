/** The trend pill: an arbitrary trend string is first made safe, then looked
    up in a fixed table of icon, colours and label. */
module TrendIndicator {

  import opened Wrappers

  /** The three trend names the table has an entry for. */
  const KnownTrends: set<string> := {"improving", "stable", "worsening"}

  datatype Icon = TrendingDown | Minus | TrendingUp

  datatype Style = Style(icon: Icon, color: string, bgColor: string, labelText: string)

  datatype Size = Sm | Md

  /** What the indicator shows: the style of the safe trend, the icon size,
      and the label when it is asked for. */
  datatype Indicator = Indicator(style: Style, iconSize: int, shownLabel: Option<string>)

  /** `safeTrend`: a known trend name stands for itself, anything else
      (the empty string, other casings, the back end's "up"/"down") is "stable". */
  function SafeTrend(trend: string): (safe: string)
    ensures safe in KnownTrends
    ensures trend in KnownTrends ==> safe == trend
    ensures trend !in KnownTrends ==> safe == "stable"
  {
    if trend == "improving" || trend == "stable" || trend == "worsening" then trend else "stable"
  }

  /** Making a trend safe twice is making it safe once. */
  lemma SafeTrendIdempotent(trend: string)
    ensures SafeTrend(SafeTrend(trend)) == SafeTrend(trend)
  {
  }

  /** `config`: the table entry of each known trend. An improving trend points
      down (risk is falling) and a worsening one points up. */
  function Config(safe: string): (s: Style)
    requires safe in KnownTrends
    ensures s.labelText == (if safe == "improving" then "Improving" else if safe == "worsening" then "Worsening" else "Stable")
    ensures s.icon == (if safe == "improving" then TrendingDown else if safe == "worsening" then TrendingUp else Minus)
  {
    if safe == "improving" then Style(TrendingDown, "text-green-600", "bg-green-50", "Improving")
    else if safe == "stable" then Style(Minus, "text-slate-600", "bg-slate-50", "Stable")
    else Style(TrendingUp, "text-red-600", "bg-red-50", "Worsening")
  }

  /** `iconSize`: 16 pixels for the small indicator, 20 otherwise. */
  function IconSize(size: Size): (px: int)
    ensures px == 16 <==> size == Sm
    ensures px == 16 || px == 20
  {
    if size == Sm then 16 else 20
  }

  /** The whole component: every input string gets one of the three styles. */
  function Render(trend: string, showLabel: bool, size: Size): (ind: Indicator)
    ensures ind.style == Config(SafeTrend(trend))
    ensures trend !in KnownTrends ==> ind.style.labelText == "Stable" && ind.style.icon == Minus
    ensures ind.shownLabel.Some? <==> showLabel
    ensures showLabel ==> ind.shownLabel.value == ind.style.labelText
  {
    var style := Config(SafeTrend(trend));
    Indicator(style, IconSize(size), if showLabel then Some(style.labelText) else None)
  }

  /** Distinct known trends get distinct labels and icons, so the pill never
      shows one trend's label with another's icon. */
  lemma ConfigInjective(a: string, b: string)
    requires a in KnownTrends && b in KnownTrends && a != b
    ensures Config(a).labelText != Config(b).labelText && Config(a).icon != Config(b).icon
  {
  }
}
