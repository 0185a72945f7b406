# nef editor extension and application: selection, command URL and notifications

nef lets a developer select code in Xcode and turn it into a rendered code
image ("carbon"). Two programs cooperate:

- the **source-editor extension** (`nef-plugin`) reads the selection from the
  editor buffer, strips the left margin of the code and opens the nef
  application with a URL `nef-plugin://xcode?carbon=<code>` (or
  `?preferences` for the preferences command);
- the **nef application** decodes the first query item it recognises into a
  `Command`, stores it, and when launching finishes shows the About window,
  the preferences window, or renders the code (terminating at once when the
  code is empty). It also copies images to the pasteboard, announces the
  copy with a notification, and handles the notification's actions.

This project models those decisions in Dafny and proves their properties:

- `wrappers.dfy`: `Option` and `Result`.
- `urls.dfy` (module `Urls`): query items and URLs at the level of query
  items.
- `source_editor_command.dfy` (module `SourceEditorCommand`): newline
  trimming, line splitting and joining, the selection test and selection
  extraction, margin removal, the URL the extension builds and the outcome
  of each editor command.
- `app_delegate.dfy` (module `AppDelegate`): `operation(for:)`,
  `isOperation`, the parameter mapping and the first-recognised-parameter
  rule, and class `App`, whose `command` field the URL handler sets and whose
  launch handlers choose the window or terminate.
- `notifications.dfy` (module `Notifications`): the local-notification test,
  notification-action dispatch, the Finder reveal, and class
  `ClipboardConfig`, whose methods update the pasteboard and the
  notification center and log every call in order in `trace`.
- `round_trip.dfy` (module `PluginToApp`): what the extension sends is what
  the application decodes.

## Model

| member | source | states |
|---|---|---|
| `SourceEditorCommand.TrimLeadingNewlines` | nef-plugin/SourceEditorCommand.swift:71 | the result is a suffix of the input, everything removed is a newline character, and it does not start with one |
| `SourceEditorCommand.TrimTrailingNewlines` | nef-plugin/SourceEditorCommand.swift:71 | the result is a prefix of the input, everything removed is a newline character, and it does not end with one |
| `SourceEditorCommand.TrimNewlinesIsNewlineFreeInfix` | nef-plugin/SourceEditorCommand.swift:71 | trimming with `.newlines` keeps an infix of the input, removes only newline characters on either side, and leaves no newline at either end |
| `SourceEditorCommand.TrimNewlinesIdempotent` | nef-plugin/SourceEditorCommand.swift:71 | trimming twice gives the same as trimming once |
| `SourceEditorCommand.SplitLines` | nef-plugin/SourceEditorCommand.swift:77 | splitting on "\n" gives at least one piece and no piece contains "\n" |
| `SourceEditorCommand.JoinSplitLines` | nef-plugin/SourceEditorCommand.swift:77-81 | joining the pieces of a split with "\n" gives back the string |
| `SourceEditorCommand.SplitLinesPrefix` | nef-plugin/SourceEditorCommand.swift:77 | a piece without "\n" splits to itself, and `p + "\n" + t` splits to `p` followed by the pieces of `t` |
| `SourceEditorCommand.SplitJoinLines` | nef-plugin/SourceEditorCommand.swift:77-81 | splitting a join of newline-free pieces gives back the same pieces, so the number of lines is kept |
| `SourceEditorCommand.HasSelectionAsWrittenMissesEqualColumns` | nef-plugin/SourceEditorCommand.swift:65-66 | the selection test as written rejects the range from line 2 column 4 to line 5 column 4, whose ends differ |
| `SourceEditorCommand.HasSelectionComparedToAsWritten` | nef-plugin/SourceEditorCommand.swift:65-66 | the test as written never accepts a caret; it misses exactly the multi-line ranges whose ends share a non-zero column; the corrected test rejects exactly the carets |
| `SourceEditorCommand.SliceEnd` | nef-plugin/SourceEditorCommand.swift:70 | the end of the slice is at most the line count and at most one past the last selected line, and equals one of the two |
| `SourceEditorCommand.SelectedText` | nef-plugin/SourceEditorCommand.swift:69-71 | the text of a selection is the concatenation of buffer lines `start.line ..< min(end.line + 1, count)` with only newline characters removed from its two ends, so it neither begins nor ends with a newline character |
| `SourceEditorCommand.UserSelection` | nef-plugin/SourceEditorCommand.swift:64-74 | as the program runs: there is no selection exactly when the buffer is empty or the selection test of lines 65-66 fails (see Findings); otherwise the selection is exactly the selected text (the trimmed slice of lines) and neither begins nor ends with a newline character |
| `SourceEditorCommand.UserSelectionCorrected` | nef-plugin/SourceEditorCommand.swift:64-74 | with the corrected test: there is no selection exactly when the buffer is empty or the range's ends coincide; otherwise the selection is the selected text (the slice of lines with newlines trimmed from both ends), which neither begins nor ends with a newline character |
| `SourceEditorCommand.UserSelectionCorrectedAgrees` | nef-plugin/SourceEditorCommand.swift:64-74 | the corrected extraction yields what the program yields whenever the program finds a selection, and differs exactly on non-empty buffers with multi-line ranges whose ends share a non-zero column |
| `SourceEditorCommand.FirstNonSpace` | nef-plugin/SourceEditorCommand.swift:79 | the offset found is that of the first character other than U+0020 and all before it are spaces; none is found exactly when the line is all spaces |
| `SourceEditorCommand.DropFirst` | nef-plugin/SourceEditorCommand.swift:81 | dropping `k` characters keeps the last `max(0, n - k)` characters of the line |
| `SourceEditorCommand.RemoveLeadingMarginLines` | nef-plugin/SourceEditorCommand.swift:76-82 | the output has as many lines as the input and each output line is the input line without its first `min(k, length)` characters, `k` being the leading spaces of the first line (0 when it is empty or all spaces), whatever those characters are |
| `SourceEditorCommand.RemoveLeadingMarginMatchesSource` | nef-plugin/SourceEditorCommand.swift:76-82 | margin removal equals the program's own shape: the code itself when the first line is empty or all spaces, and otherwise the lines split, each shortened by the first line's leading spaces, and joined again, including the split-and-join with nothing dropped when the first line starts with a non-space |
| `SourceEditorCommand.RemoveLeadingMarginWithoutMargin` | nef-plugin/SourceEditorCommand.swift:78-79 | without a margin (first line empty, all spaces, or starting with a non-space) the code comes back unchanged |
| `SourceEditorCommand.RemoveLeadingMarginIdempotent` | nef-plugin/SourceEditorCommand.swift:76-82 | removing the margin twice gives the same as removing it once |
| `SourceEditorCommand.RemoveLeadingMarginEmptyIff` | nef-plugin/SourceEditorCommand.swift:76-82 | margin removal gives the empty string exactly for the empty string |
| `SourceEditorCommand.NefAppUrl` | nef-plugin/SourceEditorCommand.swift:51-57 | the URL has scheme `nef-plugin`, host `xcode` and exactly the one query item given |
| `SourceEditorCommand.ErrorCode` | nef-plugin/SourceEditorCommand.swift:89-94 | `unknown`, `invalidCommand`, `selection` and `internetConnection` have the codes 1, 2, 3 and 4, one code each |
| `SourceEditorCommand.Perform` | nef-plugin/SourceEditorCommand.swift:9-49 | an unknown command fails with `invalidCommand` (code 2) before anything else, a missing range with `unknown` (code 1); preferences opens the URL with the single item `preferences`; export fails with `internetConnection` (code 4) when offline and with `selection` (code 3) exactly when the buffer is empty or the program's selection test fails (see Findings), and otherwise opens the URL whose single item is `carbon` with the margin-stripped selection; every URL opened has the nef scheme and host |
| `SourceEditorCommand.PerformRejectsEqualColumnSelection` | nef-plugin/SourceEditorCommand.swift:39-47 | online, exporting the range from line 2 column 4 to line 5 column 4 of a six-line buffer fails with the selection error, although the range's ends differ and the corrected extraction yields text |
| `AppDelegate.Operation` | nef/AppDelegate.swift:127-138 | `preferences` and `about` give their commands whatever the value, `carbon` gives `carbon(code:)` with the value verbatim, every other name gives nothing |
| `AppDelegate.IsOperation` | nef/AppDelegate.swift:123-125 | a parameter is an operation exactly when its name is `preferences`, `carbon` or `about` |
| `AppDelegate.Params` | nef/AppDelegate.swift:119 | one parameter per query item, same name, the value or "" when the item has none |
| `AppDelegate.FirstWhereOperation` | nef/AppDelegate.swift:120 | the parameter found is an operation and every parameter before it is not; none is found exactly when no parameter is an operation |
| `AppDelegate.DecodeCommandIsFirstOperation` | nef/AppDelegate.swift:120 | the decoded command is the operation of the first recognised parameter, and nil when none is recognised |
| `AppDelegate.DecodeCommandIgnoresLater` | nef/AppDelegate.swift:120 | parameters after a recognised one do not change the decoded command |
| `AppDelegate.DecodeCommandSkipsUnrecognised` | nef/AppDelegate.swift:120 | unrecognised parameters before the others do not change the decoded command |
| `AppDelegate.LaunchFor` | nef/AppDelegate.swift:14-24 | no stored command launches About; otherwise preferences, carbon with its code, and about go to their own handlers |
| `AppDelegate.App.constructor` | nef/AppDelegate.swift:9-11 | a new delegate has no stored command and no window |
| `AppDelegate.App.Handle` | nef/AppDelegate.swift:111-121 | when the URL or its query items cannot be obtained the stored command is unchanged; otherwise it becomes the decoded command of the items |
| `AppDelegate.App.ShowAboutWindow` | nef/AppDelegate.swift:49-61 | the About window is shown and the About menu item hidden |
| `AppDelegate.App.ShowPreferencesWindow` | nef/AppDelegate.swift:63-73 | the preferences window is shown |
| `AppDelegate.App.CarbonDidFinishLaunching` | nef/AppDelegate.swift:75-81 | an empty code requests termination and never asks for a carbon window; otherwise a window is asked for, and the empty window is shown when it is created, termination requested when not |
| `AppDelegate.App.ApplicationDidFinishLaunching` | nef/AppDelegate.swift:14-25 | the handler chosen by the stored command runs, About when there is none, and nothing else changes |
| `AppDelegate.App.ShowAbout` | nef/AppDelegate.swift:40-42 | the About menu action shows the About window |
| `Notifications.IsLocalNotification` | nef/Extensions/AppDelegate+Notifications.swift:38-43 | false without user info or without an Int under the default-launch key; otherwise true exactly when that Int is 0 |
| `Notifications.ProcessNotification` | nef/Extensions/AppDelegate+Notifications.swift:93-94 | missing or non-Data image data fails with `noImageData`, whatever the action, dismiss included |
| `Notifications.ProcessNotificationByAction` | nef/Extensions/AppDelegate+Notifications.swift:96-107 | with image data: save fails with `persistImage` exactly when persisting fails and, when persisting succeeds, answers `saveImage` with the URL written; dismiss answers `dismiss`; any other action is `unsupportedAction` |
| `Notifications.ProcessNotificationPersistsOnlyToSave` | nef/Extensions/AppDelegate+Notifications.swift:97-106 | for every action other than save the outcome does not depend on persisting |
| `Notifications.ShowClipboardFile` | nef/Extensions/AppDelegate+Notifications.swift:110-116 | no Finder request for `dismiss`; exactly one request revealing `[url]` for `saveImage(url)` |
| `Notifications.NotificationCategory` | nef/Extensions/AppDelegate+Notifications.swift:67-71 | the category is identified by `id`, has the given actions in order, each with its identifier and title and the foreground option, no intent identifiers, an empty hidden-preview placeholder and the custom dismiss option |
| `Notifications.NotificationRequest` | nef/Extensions/AppDelegate+Notifications.swift:58-74 | request identifier and content category are both `id`; the user info is empty exactly when there is no image data and otherwise holds only the image data |
| `Notifications.ClipboardCarbonStopsAtFirstError` | nef/Extensions/AppDelegate+Notifications.swift:9-24 | undecodable data fails with `invalidData` and makes no call; a refused write fails with `writeToClipboard` after exactly clearing the pasteboard and writing the image; success yields the decoded image after exactly five calls in order: clear, write the image, remove the delivered notifications, register the category `id` with the cancel and save actions, add the request `id` titled "nef" with body "Image copied to clipboard!" and the data under the image-data key |
| `Notifications.ClipboardCarbonOrdering` | nef/Extensions/AppDelegate+Notifications.swift:9-33 | every pasteboard write directly follows a clear, and the notification request is added only last, after old notifications were removed, in a run that succeeds |
| `Notifications.ClipboardConfig.WriteToClipboard` | nef/Extensions/AppDelegate+Notifications.swift:27-34 | the pasteboard is cleared and then written; the call fails with `writeToClipboard` exactly when the write is refused |
| `Notifications.ClipboardConfig.RemoveOldNotifications` | nef/Extensions/AppDelegate+Notifications.swift:50-54 | all delivered notifications are removed |
| `Notifications.ClipboardConfig.ShowNotification` | nef/Extensions/AppDelegate+Notifications.swift:56-79 | the category `id` replaces the registered categories, then the request `id` is added; nothing else changes |
| `Notifications.ClipboardConfig.ClipboardCarbonIO` | nef/Extensions/AppDelegate+Notifications.swift:9-25 | the calls made are those of `ClipboardCarbonTrace` in order and the result that of `ClipboardCarbonResult`; a failure leaves the notification center untouched |
| `PluginToApp.CarbonItemRoundTrip` | nef/AppDelegate.swift:119-138 | the item `("carbon", code)` the extension emits decodes to `carbon(code:)` with the same code |
| `PluginToApp.PreferencesItemRoundTrip` | nef/AppDelegate.swift:119-130 | the value-less item `preferences` decodes to `preferences` |
| `PluginToApp.PerformPreferencesRoundTrip` | nef-plugin/SourceEditorCommand.swift:31-36 | the URL the preferences command opens makes the application store `preferences` |
| `PluginToApp.PerformExportRoundTrip` | nef-plugin/SourceEditorCommand.swift:39-47 | when export opens the application there was a selection, and the application stores `carbon` with the margin-stripped selection as code |
| `PluginToApp.ExportOfEmptySelection` | nef/AppDelegate.swift:75-76 | an export reaches the application as an empty code, on which it terminates, exactly when the trimmed selection is empty |

## Left out

- Opening the URL with `NSWorkspace`, completing the editor command on the main queue, and the 0 s and 5 s delays before completion: host effects and timing. `Perform` gives the URL opened or the error reported.
- The Apple-event handler registration and reading the URL string from the event descriptor; `App.Handle` receives the query items, or nothing when the string, the URL or the query items cannot be obtained.
- Percent-encoding of the query string: URLs are modelled at the level of query items, and the application does not inspect scheme or host.
- Window geometry, titles, SwiftUI views, the frame autosave names and the completion callback of the carbon window (which reveals the PNG in Finder when rendering succeeded, then terminates); a window is reduced to which one is shown.
- `Reachability.isConnected`, `writableFolder`, `makeImage`, `writeObjects`, persisting the image and `UUID()`: foreign calls, whose answers are parameters (`connected`, `windowCreated`, `decoded`, `accepted`, `persist`, `id`).
- Notification authorization, the delegate callbacks `willPresent` and `didReceive`, and the `.notification` command assigned in `didReceive`: the `Command` type of the application has no such case, so that path is not modelled.
- The half-second trigger of the notification request (a floating-point interval).
- The key of the image data and the identifiers and titles of the notification actions are defined outside the modelled files; they are the parameter `NefNotificationConstants`.
- Swift strings are sequences of grapheme clusters; the model uses Unicode scalar values, so a space followed by a combining mark counts as a space here and `dropFirst` drops scalars, not clusters.
- `IsLocalNotification`: an `NSNumber` holding another kind of number may also read as an `Int` in Swift; the model treats only integer values as `Int`.
- `SourceEditorCommand.UserSelection`: a start line past the clamped end traps in Swift; the model requires callers not to pass such a range (`SliceInBounds`, and `SliceInBoundsCorrected` for `UserSelectionCorrected`).

## Findings

| source | as written | input that shows it | evidently intended | confidence | as-written member | corrected member |
|---|---|---|---|---|---|---|
| nef-plugin/SourceEditorCommand.swift:65-66 | a range is a selection when its columns differ, or both columns are 0 and its lines differ | a selection from line 2 column 4 to line 5 column 4 is rejected with "You must make a code selection first" | every range whose start and end differ is a selection | medium, not executed | `SourceEditorCommand.PerformRejectsEqualColumnSelection` | `SourceEditorCommand.UserSelectionCorrectedAgrees` |
