/** The editor extension and the application agree: the URL the extension
    opens decodes, in the application, to the command the user chose. The
    application reads the query items of the URL it is opened with; scheme
    and host are not inspected there. */
module PluginToApp {
  import opened Wrappers
  import opened Urls
  import Editor = SourceEditorCommand
  import App = AppDelegate

  /** The command the application stores when it is opened with `url`. */
  function Received(url: AppUrl): Option<App.Command>
  {
    App.DecodeCommand(App.Params(url.queryItems))
  }

  /** The export item carries the code verbatim to a carbon command. */
  lemma CarbonItemRoundTrip(code: string)
    ensures Received(Editor.NefAppUrl(Editor.CarbonItem(code))) == Some(App.Carbon(code))
  {
    var ps := App.Params([Editor.CarbonItem(code)]);
    assert ps == [App.Param("carbon", code)];
  }

  /** The value-less preferences item decodes to the preferences command. */
  lemma PreferencesItemRoundTrip()
    ensures Received(Editor.NefAppUrl(Editor.PreferencesItem)) == Some(App.Preferences)
  {
    var ps := App.Params([Editor.PreferencesItem]);
    assert ps == [App.Param("preferences", "")];
  }

  /** Opening preferences from the editor makes the application show its
      preferences. */
  lemma PerformPreferencesRoundTrip(range: Option<Editor.TextRange>, lines: seq<string>, connected: bool)
    requires Editor.Perform(Some(Editor.Preferences), range, lines, connected).OpenApp?
    ensures Received(Editor.Perform(Some(Editor.Preferences), range, lines, connected).url) ==
      Some(App.Preferences)
  {
    PreferencesItemRoundTrip();
  }

  /** Whenever an export opens the application, the application decodes a
      carbon command whose code is the margin-stripped selection. */
  lemma PerformExportRoundTrip(range: Option<Editor.TextRange>, lines: seq<string>, connected: bool)
    requires range.Some? && connected ==> Editor.SliceInBounds(range.value, lines)
    requires Editor.Perform(Some(Editor.ExportSnippet), range, lines, connected).OpenApp?
    ensures range.Some? && connected && Editor.UserSelection(range.value, lines).Some?
    ensures Received(Editor.Perform(Some(Editor.ExportSnippet), range, lines, connected).url) ==
      Some(App.Carbon(Editor.RemoveLeadingMargin(Editor.UserSelection(range.value, lines).value)))
  {
    var selection := Editor.UserSelection(range.value, lines).value;
    CarbonItemRoundTrip(Editor.RemoveLeadingMargin(selection));
  }

  /** An exported selection reaches the application as an empty carbon code,
      which makes it terminate without rendering, exactly when the selected
      text is empty once newlines are trimmed. */
  lemma ExportOfEmptySelection(range: Editor.TextRange, lines: seq<string>)
    requires Editor.SliceInBounds(range, lines)
    requires Editor.Perform(Some(Editor.ExportSnippet), Some(range), lines, true).OpenApp?
    ensures var url := Editor.Perform(Some(Editor.ExportSnippet), Some(range), lines, true).url;
      Received(url) == Some(App.Carbon("")) <==> Editor.UserSelection(range, lines) == Some("")
  {
    var selection := Editor.UserSelection(range, lines).value;
    PerformExportRoundTrip(Some(range), lines, true);
    Editor.RemoveLeadingMarginEmptyIff(selection);
  }
}
