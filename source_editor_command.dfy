/** The IDE source-editor command of the nef extension: it takes the user's
    selection out of the editor buffer, strips the common left margin, and
    hands the code to the nef application through a `nef-plugin://xcode?...`
    URL. Opening the URL and completing the command asynchronously are
    effects of the host; here the command's outcome is the URL it would open
    or the error it reports. */
module SourceEditorCommand {
  import opened Wrappers
  import opened Urls

  // ---------------------------------------------------------------------
  // Characters and strings
  // ---------------------------------------------------------------------

  /** Membership in Foundation's `CharacterSet.newlines`:
      U+000A to U+000D, U+0085, U+2028 and U+2029. */
  predicate IsNewline(c: char) {
    c == '\n' || c == '\U{000B}' || c == '\U{000C}' || c == '\r' ||
    c == '\U{0085}' || c == '\U{2028}' || c == '\U{2029}'
  }

  predicate AllNewlines(s: string) {
    forall i :: 0 <= i < |s| ==> IsNewline(s[i])
  }

  /** Drops newline characters from the front of `s`. */
  function TrimLeadingNewlines(s: string): (r: string)
    ensures |r| <= |s| && r == s[|s| - |r|..]
    ensures AllNewlines(s[..|s| - |r|])
    ensures r != [] ==> !IsNewline(r[0])
  {
    if s != [] && IsNewline(s[0]) then TrimLeadingNewlines(s[1..]) else s
  }

  /** Drops newline characters from the back of `s`. */
  function TrimTrailingNewlines(s: string): (r: string)
    ensures |r| <= |s| && r == s[..|r|]
    ensures AllNewlines(s[|r|..])
    ensures r != [] ==> !IsNewline(r[|r| - 1])
  {
    if s != [] && IsNewline(s[|s| - 1]) then TrimTrailingNewlines(s[..|s| - 1]) else s
  }

  /** `trimmingCharacters(in: .newlines)`: the longest infix of `s` that
      neither begins nor ends with a newline character, obtained by removing
      only newline characters from both ends. */
  function TrimNewlines(s: string): (r: string)
  {
    TrimTrailingNewlines(TrimLeadingNewlines(s))
  }

  /** `r` is `s` with only newline characters cut off its two ends. */
  predicate NewlineTrimmedInfix(r: string, s: string) {
    exists i, j :: 0 <= i <= j <= |s| && r == s[i..j] && AllNewlines(s[..i]) && AllNewlines(s[j..])
  }

  /** Cutting newlines off the front of `s` and then off the back of what
      remains leaves a newline-trimmed infix of `s`. */
  lemma NewlineTrimmedInfixOfSuffix(s: string, l: string, r: string, i: nat)
    requires i <= |s| && l == s[i..] && AllNewlines(s[..i])
    requires |r| <= |l| && r == l[..|r|] && AllNewlines(l[|r|..])
    ensures NewlineTrimmedInfix(r, s)
  {
    var j := i + |r|;
    assert r == s[i..j];
    assert s[j..] == l[|r|..];
  }

  /** The trimmed string is an infix `s[i..j]` of its input, everything cut
      off on either side is a newline, and the result neither starts nor
      ends with one. */
  lemma TrimNewlinesIsNewlineFreeInfix(s: string)
    ensures NewlineTrimmedInfix(TrimNewlines(s), s)
    ensures var r := TrimNewlines(s);
      r != [] ==> !IsNewline(r[0]) && !IsNewline(r[|r| - 1])
  {
    var l := TrimLeadingNewlines(s);
    var r := TrimTrailingNewlines(l);
    assert r == TrimNewlines(s);
    assert l == s[|s| - |l|..] && AllNewlines(s[..|s| - |l|]);
    assert r == l[..|r|] && AllNewlines(l[|r|..]);
    NewlineTrimmedInfixOfSuffix(s, l, r, |s| - |l|);
    if r != [] {
      assert !IsNewline(l[0]) && r[0] == l[0];
      assert !IsNewline(r[|r| - 1]);
    }
  }

  /** Trimming a string that already has no newline at either end changes
      nothing, so trimming is idempotent. */
  lemma TrimNewlinesIdempotent(s: string)
    ensures TrimNewlines(TrimNewlines(s)) == TrimNewlines(s)
  {
    var r := TrimNewlines(s);
    if r != [] {
      assert !IsNewline(r[0]);
      assert TrimLeadingNewlines(r) == r;
      assert !IsNewline(r[|r| - 1]);
      assert TrimTrailingNewlines(r) == r;
    }
  }

  /** `joined()` on an array of strings: concatenation with no separator. */
  function Concat(parts: seq<string>): string
  {
    if parts == [] then "" else parts[0] + Concat(parts[1..])
  }

  /** `joined(separator: "\n")`. */
  function JoinLines(parts: seq<string>): string
  {
    if |parts| == 0 then ""
    else if |parts| == 1 then parts[0]
    else parts[0] + "\n" + JoinLines(parts[1..])
  }

  /** `components(separatedBy: "\n")`: the pieces between newline characters
      (U+000A only), always at least one piece, none containing a newline. */
  function SplitLines(s: string): (parts: seq<string>)
    ensures |parts| >= 1
    ensures forall k :: 0 <= k < |parts| ==> '\n' !in parts[k]
  {
    if s == [] then [""]
    else if s[0] == '\n' then [""] + SplitLines(s[1..])
    else
      var rest := SplitLines(s[1..]);
      [[s[0]] + rest[0]] + rest[1..]
  }

  /** Joining a piece in front of at least one more piece puts a newline
      between them. */
  lemma JoinLinesCons(head: string, tail: seq<string>)
    requires |tail| >= 1
    ensures JoinLines([head] + tail) == head + "\n" + JoinLines(tail)
  {
    assert ([head] + tail)[1..] == tail;
  }

  /** Joining the pieces of a split gives back the string. */
  lemma {:induction false} JoinSplitLines(s: string)
    ensures JoinLines(SplitLines(s)) == s
  {
    if s == [] {
    } else {
      JoinSplitLines(s[1..]);
      var rest := SplitLines(s[1..]);
      assert s == [s[0]] + s[1..];
      if s[0] == '\n' {
        JoinLinesCons("", rest);
      } else if |rest| == 1 {
        assert SplitLines(s) == [[s[0]] + rest[0]];
      } else {
        var first := [s[0]] + rest[0];
        assert SplitLines(s) == [first] + rest[1..];
        JoinLinesCons(first, rest[1..]);
        assert rest == [rest[0]] + rest[1..];
        JoinLinesCons(rest[0], rest[1..]);
      }
    }
  }

  /** Splitting a piece without newline gives that piece alone, and splitting
      `p + "\n" + t` gives `p` followed by the pieces of `t`. */
  lemma {:induction false} SplitLinesPrefix(p: string, t: string, glued: bool)
    requires '\n' !in p
    ensures glued ==> SplitLines(p + "\n" + t) == [p] + SplitLines(t)
    ensures !glued ==> SplitLines(p) == [p]
    decreases |p|
  {
    if p == [] {
      if glued {
        assert p + "\n" + t == ['\n'] + t;
        assert (['\n'] + t)[1..] == t;
      }
    } else {
      SplitLinesPrefix(p[1..], t, glued);
      assert p[0] != '\n' by { assert p[0] in p; }
      if glued {
        var s := p + "\n" + t;
        assert s[0] == p[0] && s[1..] == p[1..] + "\n" + t;
        var rest := SplitLines(s[1..]);
        assert rest[0] == p[1..] && rest[1..] == SplitLines(t);
        assert p == [p[0]] + p[1..];
      } else {
        assert p == [p[0]] + p[1..];
      }
    }
  }

  /** Splitting a join of newline-free pieces gives back the pieces, so a
      join never changes the number of lines. */
  lemma {:induction false} SplitJoinLines(parts: seq<string>)
    requires |parts| >= 1
    requires forall k :: 0 <= k < |parts| ==> '\n' !in parts[k]
    ensures SplitLines(JoinLines(parts)) == parts
  {
    if |parts| == 1 {
      SplitLinesPrefix(parts[0], "", false);
    } else {
      SplitJoinLines(parts[1..]);
      SplitLinesPrefix(parts[0], JoinLines(parts[1..]), true);
      assert parts == [parts[0]] + parts[1..];
    }
  }

  // ---------------------------------------------------------------------
  // Selection extraction
  // ---------------------------------------------------------------------

  /** `XCSourceTextPosition`: zero-based line and column. */
  datatype Position = Position(line: nat, column: nat)

  /** `XCSourceTextRange`. */
  datatype TextRange = TextRange(start: Position, end: Position)

  /** The selection test as the extension writes it: the columns differ, or
      both columns are 0 on different lines (whole lines selected). */
  predicate HasSelectionAsWritten(range: TextRange) {
    range.start.column != range.end.column ||
    (range.start.column == 0 && range.end.column == 0 && range.start.line != range.end.line)
  }

  /** Whether the range is a real selection rather than a bare caret: its two
      ends differ. This is the test the rest of the model uses. */
  predicate HasSelection(range: TextRange) {
    range.start != range.end
  }

  /** The test as written rejects a multi-line selection whose ends share a
      column other than 0, such as line 2 column 4 to line 5 column 4. */
  lemma HasSelectionAsWrittenMissesEqualColumns()
    ensures var range := TextRange(Position(2, 4), Position(5, 4));
      HasSelection(range) && !HasSelectionAsWritten(range)
  {
  }

  /** The test as written never takes a caret for a selection, and the
      selections it misses are exactly the multi-line ranges whose ends
      share a column other than 0; a caret is never a selection under the
      corrected test, every other range is. */
  lemma HasSelectionComparedToAsWritten(range: TextRange)
    ensures HasSelectionAsWritten(range) ==> HasSelection(range)
    ensures HasSelection(range) && !HasSelectionAsWritten(range) <==>
      range.start.column == range.end.column && range.start.column != 0 &&
      range.start.line != range.end.line
    ensures !HasSelection(range) <==> range.start.line == range.end.line && range.start.column == range.end.column
  {
  }

  /** One past the last buffer line taken: `min(end.line + 1, lines.count)`. */
  function SliceEnd(range: TextRange, lineCount: nat): (e: nat)
    ensures e <= lineCount && e <= range.end.line + 1
    ensures e == lineCount || e == range.end.line + 1
  {
    if range.end.line + 1 <= lineCount then range.end.line + 1 else lineCount
  }

  /** Forming `lines[start..<end]` traps when the start line lies past the
      clamped end; the extension relies on the editor never sending such a
      range when its selection test passes on a non-empty buffer. */
  predicate SliceInBounds(range: TextRange, lines: seq<string>) {
    |lines| > 0 && HasSelectionAsWritten(range) ==> range.start.line <= SliceEnd(range, |lines|)
  }

  /** The same bound for the corrected selection test. */
  predicate SliceInBoundsCorrected(range: TextRange, lines: seq<string>) {
    |lines| > 0 && HasSelection(range) ==> range.start.line <= SliceEnd(range, |lines|)
  }

  /** The text a selection yields: buffer lines `start.line ..<
      min(end.line + 1, count)` concatenated, newlines trimmed from both ends. */
  function SelectedText(range: TextRange, lines: seq<string>): (text: string)
    requires |lines| > 0 && range.start.line <= SliceEnd(range, |lines|)
    ensures NewlineTrimmedInfix(text, Concat(lines[range.start.line..SliceEnd(range, |lines|)]))
    ensures text != [] ==> !IsNewline(text[0]) && !IsNewline(text[|text| - 1])
  {
    var s := Concat(lines[range.start.line..SliceEnd(range, |lines|)]);
    TrimNewlinesIsNewlineFreeInfix(s);
    TrimNewlines(s)
  }

  /** `userSelection(textRange:lines:)` as the extension runs it: no selection
      for an empty buffer or when the selection test at lines 65-66 fails;
      otherwise the selected text. */
  function UserSelection(range: TextRange, lines: seq<string>): (sel: Option<string>)
    requires SliceInBounds(range, lines)
    ensures sel.None? <==> |lines| == 0 || !HasSelectionAsWritten(range)
    ensures sel.Some? ==> NewlineTrimmedInfix(sel.value, Concat(lines[range.start.line..SliceEnd(range, |lines|)]))
    ensures sel.Some? && sel.value != [] ==>
      !IsNewline(sel.value[0]) && !IsNewline(sel.value[|sel.value| - 1])
    ensures sel.Some? ==> sel.value == SelectedText(range, lines)
  {
    if |lines| > 0 && HasSelectionAsWritten(range) then Some(SelectedText(range, lines)) else None
  }

  /** `userSelection` with the corrected selection test: every range whose
      ends differ is a selection. */
  function UserSelectionCorrected(range: TextRange, lines: seq<string>): (sel: Option<string>)
    requires SliceInBoundsCorrected(range, lines)
    ensures sel.None? <==> |lines| == 0 || range.start == range.end
    ensures sel.Some? ==> NewlineTrimmedInfix(sel.value, Concat(lines[range.start.line..SliceEnd(range, |lines|)]))
    ensures sel.Some? && sel.value != [] ==>
      !IsNewline(sel.value[0]) && !IsNewline(sel.value[|sel.value| - 1])
    ensures sel.Some? ==> sel.value == SelectedText(range, lines)
  {
    if |lines| > 0 && HasSelection(range) then Some(SelectedText(range, lines)) else None
  }

  /** The corrected extraction agrees with the program wherever the program
      finds a selection, and differs only on the multi-line ranges whose ends
      share a column other than 0, where it yields the selected text instead
      of nothing. */
  lemma UserSelectionCorrectedAgrees(range: TextRange, lines: seq<string>)
    requires SliceInBoundsCorrected(range, lines)
    ensures SliceInBounds(range, lines)
    ensures UserSelection(range, lines).Some? ==>
      UserSelectionCorrected(range, lines) == UserSelection(range, lines)
    ensures UserSelectionCorrected(range, lines) != UserSelection(range, lines) <==>
      |lines| > 0 && range.start.column == range.end.column && range.start.column != 0 &&
      range.start.line != range.end.line
  {
    HasSelectionComparedToAsWritten(range);
  }

  // ---------------------------------------------------------------------
  // Margin removal
  // ---------------------------------------------------------------------

  /** The offset of the first character of `line` that is not a space
      (U+0020), or `None` when every character is a space. */
  function FirstNonSpace(line: string): (k: Option<nat>)
    ensures k.Some? ==> (k.value < |line| && line[k.value] != ' ' &&
      forall i :: 0 <= i < k.value ==> line[i] == ' ')
    ensures k.None? ==> forall i :: 0 <= i < |line| ==> line[i] == ' '
  {
    if line == [] then None
    else if line[0] != ' ' then Some(0)
    else match FirstNonSpace(line[1..])
      case None => None
      case Some(k) => Some(k + 1)
  }

  /** `dropFirst(k)`: `s` without its first `min(k, |s|)` characters. */
  function DropFirst(s: string, k: nat): (r: string)
    ensures |r| == if k <= |s| then |s| - k else 0
    ensures r == s[|s| - |r|..]
  {
    if k <= |s| then s[k..] else ""
  }

  function DropEach(lines: seq<string>, k: nat): (r: seq<string>)
    ensures |r| == |lines|
  {
    seq(|lines|, i requires 0 <= i < |lines| => DropFirst(lines[i], k))
  }

  /** The margin that is removed: the number of leading spaces of the first
      line, or 0 when that line is empty or all spaces (then nothing is
      removed). */
  function Margin(code: string): nat
  {
    match FirstNonSpace(SplitLines(code)[0])
    case None => 0
    case Some(k) => k
  }

  /** `removeLeadingMargin(_:)`: drops from every line as many characters as
      the first line has leading spaces. With no margin the code is returned
      as it is; where the program still splits and joins (a first line
      starting with a non-space) that gives the same string, as
      `RemoveLeadingMarginMatchesSource` proves. */
  function RemoveLeadingMargin(code: string): string
  {
    if Margin(code) == 0 then code else JoinLines(DropEach(SplitLines(code), Margin(code)))
  }

  /** `removeLeadingMargin(_:)` in the program's own shape: with a first
      non-space at offset `k` (0 included), every line is split off, loses
      `k` characters and the lines are joined again. */
  function RemoveLeadingMarginAsWritten(code: string): string
  {
    match FirstNonSpace(SplitLines(code)[0])
    case None => code
    case Some(k) => JoinLines(DropEach(SplitLines(code), k))
  }

  /** Returning the code when the margin is 0 is what the program computes:
      with a first line starting with a non-space it splits and joins with
      nothing dropped, which gives the code back. */
  lemma RemoveLeadingMarginMatchesSource(code: string)
    ensures RemoveLeadingMargin(code) == RemoveLeadingMarginAsWritten(code)
  {
    JoinSplitLines(code);
    assert DropEach(SplitLines(code), 0) == SplitLines(code);
  }

  /** Whatever the margin, the lines of the result are the lines of the input,
      each without its first `min(Margin(code), |line|)` characters: the line
      count is preserved and the characters dropped need not be spaces. */
  lemma RemoveLeadingMarginLines(code: string)
    ensures SplitLines(RemoveLeadingMargin(code)) == DropEach(SplitLines(code), Margin(code))
  {
    var lines := SplitLines(code);
    if Margin(code) == 0 {
      JoinSplitLines(code);
      assert DropEach(lines, 0) == lines;
    } else {
      SplitJoinLines(DropEach(lines, Margin(code)));
    }
  }

  /** When the first line has no margin (it starts with a non-space, or it is
      empty or all spaces) the code is returned unchanged. */
  lemma RemoveLeadingMarginWithoutMargin(code: string)
    requires Margin(code) == 0
    ensures RemoveLeadingMargin(code) == code
  {
  }

  /** After one removal the first line starts with a non-space (or is all
      spaces), so a second removal changes nothing. */
  lemma RemoveLeadingMarginIdempotent(code: string)
    ensures RemoveLeadingMargin(RemoveLeadingMargin(code)) == RemoveLeadingMargin(code)
  {
    var lines := SplitLines(code);
    var once := RemoveLeadingMargin(code);
    if Margin(code) != 0 {
      var k := Margin(code);
      RemoveLeadingMarginLines(code);
      var first := SplitLines(once)[0];
      assert first == DropFirst(lines[0], k) == lines[0][k..];
      assert first[0] != ' ';
      assert FirstNonSpace(first) == Some(0);
      RemoveLeadingMarginWithoutMargin(once);
    }
  }

  /** Margin removal yields the empty string only for the empty string: the
      first line keeps at least the non-space character that ends its margin. */
  lemma RemoveLeadingMarginEmptyIff(code: string)
    ensures RemoveLeadingMargin(code) == "" <==> code == ""
  {
    var lines := SplitLines(code);
    if Margin(code) != 0 {
      var dropped := DropEach(lines, Margin(code));
      assert dropped[0] != "";
      if |dropped| > 1 {
        assert JoinLines(dropped) == dropped[0] + "\n" + JoinLines(dropped[1..]);
      }
    }
  }

  // ---------------------------------------------------------------------
  // The command
  // ---------------------------------------------------------------------

  /** `Constants.scheme`. */
  const Scheme: string := "nef-plugin"
  /** The host every URL the extension emits carries. */
  const Host: string := "xcode"

  /** `nefAppURL(from:)`: a URL with scheme `nef-plugin`, host `xcode` and the
      single query item given. */
  function NefAppUrl(item: QueryItem): (url: AppUrl)
    ensures url.scheme == "nef-plugin" && url.host == "xcode"
    ensures |url.queryItems| == 1 && url.queryItems[0] == item
  {
    AppUrl(Scheme, Host, [item])
  }

  /** The query item of the preferences command: name only, no value. */
  const PreferencesItem: QueryItem := QueryItem("preferences", None)

  /** The query item of the export command: the code as value. */
  function CarbonItem(code: string): QueryItem
  {
    QueryItem("carbon", Some(code))
  }

  /** The commands of the extension (`SourceEditorExtension.Command`). */
  datatype EditorCommand = Preferences | ExportSnippet

  /** `EditorError`: NSErrors of domain "nef editor". */
  datatype EditorError = Unknown | InvalidCommand | NoSelection | NoInternetConnection

  /** The `code` of the NSError each editor error is. */
  function ErrorCode(e: EditorError): (code: int)
    ensures code == 1 <==> e == Unknown
    ensures code == 2 <==> e == InvalidCommand
    ensures code == 3 <==> e == NoSelection
    ensures code == 4 <==> e == NoInternetConnection
  {
    match e
    case Unknown => 1
    case InvalidCommand => 2
    case NoSelection => 3
    case NoInternetConnection => 4
  }

  /** The outcome of a command: the URL the application is opened with
      (after which the command completes without error), or the error the
      command completes with. */
  datatype Outcome = OpenApp(url: AppUrl) | Failed(error: EditorError)

  /** `perform(with:completionHandler:)` with `process`, `preferences` and
      `carbon`. `command` is the decoded command identifier (`None` when it
      names no command), `range` the first selection of the buffer (`None`
      when there is none), `connected` the answer of the reachability check. */
  function Perform(command: Option<EditorCommand>, range: Option<TextRange>,
                   lines: seq<string>, connected: bool): (o: Outcome)
    requires command == Some(ExportSnippet) && range.Some? && connected ==>
      SliceInBounds(range.value, lines)
    ensures o.OpenApp? ==> o.url.scheme == Scheme && o.url.host == Host && |o.url.queryItems| == 1
    ensures command == Some(Preferences) && range.Some? ==> o == OpenApp(NefAppUrl(PreferencesItem))
    ensures o.OpenApp? && command == Some(ExportSnippet) ==>
      range.Some? && connected && UserSelection(range.value, lines).Some? &&
      o.url.queryItems == [CarbonItem(RemoveLeadingMargin(UserSelection(range.value, lines).value))]
    ensures o == Failed(InvalidCommand) <==> command.None?
    ensures o == Failed(Unknown) <==> command.Some? && range.None?
    ensures o == Failed(NoInternetConnection) <==>
      command == Some(ExportSnippet) && range.Some? && !connected
    ensures o == Failed(NoSelection) <==>
      command == Some(ExportSnippet) && range.Some? && connected &&
      (|lines| == 0 || !HasSelectionAsWritten(range.value))
    ensures o.Failed? ==>
      (ErrorCode(o.error) == if command.None? then 2 else if range.None? then 1 else if !connected then 4 else 3)
  {
    match command
    case None => Failed(InvalidCommand)
    case Some(c) =>
      match range
      case None => Failed(Unknown)
      case Some(r) =>
        match c
        case Preferences => OpenApp(NefAppUrl(PreferencesItem))
        case ExportSnippet =>
          if !connected then Failed(NoInternetConnection)
          else match UserSelection(r, lines)
            case None => Failed(NoSelection)
            case Some(selection) => OpenApp(NefAppUrl(CarbonItem(RemoveLeadingMargin(selection))))
  }

  /** The program rejects a three-line selection whose ends share column 4:
      exporting it from a six-line buffer fails with the selection error
      (code 3), though the range selects text. */
  lemma PerformRejectsEqualColumnSelection(lines: seq<string>, connected: bool)
    requires |lines| == 6 && connected
    ensures var range := TextRange(Position(2, 4), Position(5, 4));
      SliceInBounds(range, lines) && HasSelection(range) &&
      Perform(Some(ExportSnippet), Some(range), lines, connected) == Failed(NoSelection) &&
      UserSelectionCorrected(range, lines).Some?
  {
  }
}
