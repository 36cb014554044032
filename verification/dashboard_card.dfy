/**
 The dashboard card: what a click does, whether the card is styled as
 clickable, the icon colour default and whether the subtitle is shown.
 */
module DashboardCard {
  import opened Common

  /** The props that decide behaviour; an `onClick` callback is always truthy,
      so only its presence matters. */
  datatype CardProps = CardProps(
    subtitle: Option<string>,
    iconColor: Option<string>,
    to: Option<string>,
    hasOnClick: bool)

  datatype ClickEffect = CallOnClick | NavigateTo(path: string) | NoEffect

  const DefaultIconColor: string := "text-primary"

  /** `handleClick`: the callback wins; otherwise navigate when `to` is truthy. */
  function HandleClick(p: CardProps): (e: ClickEffect)
    ensures p.hasOnClick ==> e == CallOnClick
    ensures !p.hasOnClick && Truthy(p.to) ==> e == NavigateTo(p.to.value)
    ensures !p.hasOnClick && !Truthy(p.to) ==> e == NoEffect
    ensures e.NavigateTo? ==> e.path != ""
  {
    if p.hasOnClick then CallOnClick
    else if Truthy(p.to) then NavigateTo(p.to.value)
    else NoEffect
  }

  /** `!!to || !!onClick` */
  predicate IsClickable(p: CardProps) {
    Truthy(p.to) || p.hasOnClick
  }

  /** The card looks clickable exactly when a click does something. */
  lemma ClickableIffEffect(p: CardProps)
    ensures IsClickable(p) <==> HandleClick(p) != NoEffect
  {
  }

  /** A default parameter applies only when the prop is absent, so an explicit
      empty colour is kept. */
  function IconColor(p: CardProps): (c: string)
    ensures p.iconColor.None? ==> c == DefaultIconColor
    ensures p.iconColor.Some? ==> c == p.iconColor.value
  {
    p.iconColor.GetOr(DefaultIconColor)
  }

  /** `{subtitle && <p>{subtitle}</p>}`: the subtitle line the card renders,
      if any. */
  function SubtitleLine(p: CardProps): (line: Option<string>)
    ensures line.Some? ==> line == p.subtitle && line.value != ""
    ensures p.subtitle.Some? && p.subtitle.value != "" ==> line.Some?
  {
    if Truthy(p.subtitle) then p.subtitle else None
  }

  /** An absent or empty subtitle renders no line at all, whatever else the
      card carries. */
  lemma BlankSubtitleHidden(p: CardProps)
    ensures SubtitleLine(p.(subtitle := None)).None?
    ensures SubtitleLine(p.(subtitle := Some(""))).None?
  {
  }
}
