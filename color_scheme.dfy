/** `getCurrentThemeType`: the editor's active color theme, reduced to the three schemes the extension cares about. */
module ColorScheme {
  import opened Wrappers

  /** The kinds the editor reports for a color theme; `UnknownKind` is any value outside them. */
  datatype ColorThemeKind = LightKind | DarkKind | HighContrastKind | HighContrastLightKind | UnknownKind

  /** The result `'light' | 'dark' | 'highContrast'`. */
  datatype ThemeType = LightTheme | DarkTheme | HighContrastTheme

  /**
   * The scheme of the active color theme (`None` when the editor reports
   * none): light and high-contrast-light themes are light, a high-contrast
   * theme is high contrast, and everything else falls back to dark.
   */
  function CurrentThemeType(active: Option<ColorThemeKind>): (r: ThemeType)
    ensures r == LightTheme <==> active == Some(LightKind) || active == Some(HighContrastLightKind)
    ensures r == HighContrastTheme <==> active == Some(HighContrastKind)
    ensures r == DarkTheme <==> active.None? || active == Some(DarkKind) || active == Some(UnknownKind)
  {
    match active
    case None => DarkTheme
    case Some(kind) =>
      match kind
      case LightKind => LightTheme
      case HighContrastLightKind => LightTheme
      case DarkKind => DarkTheme
      case HighContrastKind => HighContrastTheme
      case UnknownKind => DarkTheme
  }
}
