/**
 * Which text the panel button shows for the focused window: its title when
 * it is maximized both ways, otherwise the name of its application.
 */
module Title {
  import opened Host

  /** HORIZONTAL | VERTICAL: the window fills its work area both ways. */
  const FLAGS_MAXED: MaximizeFlags := HORIZONTAL | VERTICAL

  /** The rule of `_setTitle` (current revision): title, else app name, else empty. */
  function DisplayText(maximized: MaximizeFlags, title: string, app: Option<App>): (text: string)
  {
    if maximized == FLAGS_MAXED then title
    else if app.Some? then app.value.name
    else ""
  }

  /** `app.get_name()` on a null app throws. */
  datatype TitleError = NullApp

  datatype Result<+T> = Ok(value: T) | Err(error: TitleError)

  /**
   * The rule of `_changeTitle` (older revision): title when maximized, else
   * `app.get_name()` with no check for a missing app.
   */
  function LegacyText(maximized: MaximizeFlags, title: string, app: Option<App>): (r: Result<string>)
  {
    if maximized == FLAGS_MAXED then Ok(title)
    else if app.None? then Err(NullApp)
    else Ok(app.value.name)
  }

  /** A window maximized both ways shows its own title, whatever application was resolved. */
  lemma MaximizedShowsTitle(title: string, app: Option<App>)
    ensures DisplayText(FLAGS_MAXED, title, app) == title
  {
  }

  /** Half-maximized counts as not maximized. */
  lemma HalfMaximizedIsNotMaximized(title: string, app: Option<App>)
    ensures DisplayText(HORIZONTAL, title, app) == DisplayText(0, "", app)
    ensures DisplayText(VERTICAL, title, app) == DisplayText(0, "", app)
  {
  }

  /** A window not maximized both ways shows the application name, or nothing when no application was resolved. */
  lemma NotMaximizedShowsAppName(maximized: MaximizeFlags, title: string, app: Option<App>)
    requires maximized != FLAGS_MAXED
    ensures app.Some? ==> DisplayText(maximized, title, app) == app.value.name
    ensures app.None? ==> DisplayText(maximized, title, app) == ""
    ensures forall other: string :: DisplayText(maximized, other, app) == DisplayText(maximized, title, app)
  {
  }

  /**
   * The two revisions agree wherever the older one does not throw, and it
   * throws exactly for a window that is not fully maximized and has no
   * resolved application.
   */
  lemma LegacyAgreesUnlessNullApp(maximized: MaximizeFlags, title: string, app: Option<App>)
    ensures LegacyText(maximized, title, app).Err? <==> maximized != FLAGS_MAXED && app.None?
    ensures LegacyText(maximized, title, app).Ok? ==>
              LegacyText(maximized, title, app).value == DisplayText(maximized, title, app)
  {
  }
}
