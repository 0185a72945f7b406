/** The nef application's entry logic: the URL the editor extension opens is
    decoded into a `Command`, which the delegate stores and dispatches on when
    launching finishes. Windows are reduced to which one is shown; the Apple
    event plumbing, SwiftUI views and the termination deadlines are not part
    of this model. */
module AppDelegate {
  import opened Wrappers
  import opened Urls

  /** `AppDelegate.Command`. */
  datatype Command = About | Preferences | Carbon(code: string)

  /** A query item as the delegate reads it: a missing value is "". */
  datatype Param = Param(name: string, value: string)

  /** The parameter names the delegate acts on. */
  const OperationNames: set<string> := {"preferences", "carbon", "about"}

  /** `operation(for:)`. */
  function Operation(p: Param): (c: Option<Command>)
    ensures c.None? <==> p.name !in OperationNames
    ensures c == Some(Preferences) <==> p.name == "preferences"
    ensures c == Some(About) <==> p.name == "about"
    ensures c.Some? && c.value.Carbon? <==> p.name == "carbon"
    ensures c.Some? && c.value.Carbon? ==> c.value.code == p.value
  {
    if p.name == "preferences" then Some(Preferences)
    else if p.name == "carbon" then Some(Carbon(p.value))
    else if p.name == "about" then Some(About)
    else None
  }

  /** `isOperation(param:)`: the parameter names one of the operations. */
  predicate IsOperation(p: Param)
    ensures IsOperation(p) <==> p.name in OperationNames
  {
    Operation(p) != None
  }

  /** Line 119 of `handle(event:withReplyEvent:)`: every query item becomes a
      parameter with the same name, its value defaulting to "". */
  function Params(items: seq<QueryItem>): (ps: seq<Param>)
    ensures |ps| == |items|
    ensures forall i :: 0 <= i < |items| ==> ps[i].name == items[i].name
    ensures forall i :: 0 <= i < |items| ==>
      (items[i].value.None? ==> ps[i].value == "") &&
      (items[i].value.Some? ==> ps[i].value == items[i].value.value)
  {
    seq(|items|, i requires 0 <= i < |items| => Param(items[i].name, items[i].value.GetOr("")))
  }

  /** `first(where: isOperation)`: the first parameter naming an operation,
      and no such parameter before it. */
  function FirstWhereOperation(ps: seq<Param>): (r: Option<Param>)
    ensures r.None? <==> forall i :: 0 <= i < |ps| ==> !IsOperation(ps[i])
    ensures r.Some? ==> exists i :: (0 <= i < |ps| && ps[i] == r.value && IsOperation(ps[i]) &&
      forall j :: 0 <= j < i ==> !IsOperation(ps[j]))
  {
    if ps == [] then None
    else if IsOperation(ps[0]) then Some(ps[0])
    else FirstWhereOperation(ps[1..])
  }

  /** `params.first(where: isOperation).flatMap(operation)`: the command of
      the first parameter the delegate recognises. */
  function DecodeCommand(ps: seq<Param>): Option<Command>
  {
    match FirstWhereOperation(ps)
    case None => None
    case Some(p) => Operation(p)
  }

  /** The decoded command is the operation of some parameter, all parameters
      before it are unrecognised, and there is none exactly when no
      parameter is recognised. */
  lemma DecodeCommandIsFirstOperation(ps: seq<Param>)
    ensures DecodeCommand(ps).None? <==> forall i :: 0 <= i < |ps| ==> !IsOperation(ps[i])
    ensures DecodeCommand(ps).Some? ==> exists i :: (0 <= i < |ps| &&
      DecodeCommand(ps) == Operation(ps[i]) && forall j :: 0 <= j < i ==> !IsOperation(ps[j]))
  {
  }

  /** Parameters after a recognised one do not change the decoded command. */
  lemma {:induction false} DecodeCommandIgnoresLater(ps: seq<Param>, later: seq<Param>)
    requires DecodeCommand(ps).Some?
    ensures DecodeCommand(ps + later) == DecodeCommand(ps)
  {
    if !IsOperation(ps[0]) {
      assert (ps + later)[1..] == ps[1..] + later;
      DecodeCommandIgnoresLater(ps[1..], later);
    }
  }

  /** Unrecognised parameters before the others do not change the decoded
      command. */
  lemma {:induction false} DecodeCommandSkipsUnrecognised(skipped: seq<Param>, ps: seq<Param>)
    requires forall i :: 0 <= i < |skipped| ==> !IsOperation(skipped[i])
    ensures DecodeCommand(skipped + ps) == DecodeCommand(ps)
  {
    if skipped == [] {
      assert skipped + ps == ps;
    } else {
      assert (skipped + ps)[0] == skipped[0];
      assert (skipped + ps)[1..] == skipped[1..] + ps;
      DecodeCommandSkipsUnrecognised(skipped[1..], ps);
    }
  }

  /** Which window the application shows. */
  datatype Window = NoWindow | AboutWindow | PreferencesWindow | EmptyWindow

  /** What finishing the launch does for a stored command: the handler the
      `switch` in `applicationDidFinishLaunching(_:)` picks. */
  datatype Launch = LaunchAbout | LaunchPreferences | LaunchCarbon(code: string)

  function LaunchFor(command: Option<Command>): (l: Launch)
    ensures command.None? ==> l == LaunchAbout
    ensures command.Some? ==> match command.value
      case About => l == LaunchAbout
      case Preferences => l == LaunchPreferences
      case Carbon(code) => l == LaunchCarbon(code)
  {
    match command
    case None => LaunchAbout
    case Some(About) => LaunchAbout
    case Some(Preferences) => LaunchPreferences
    case Some(Carbon(code)) => LaunchCarbon(code)
  }

  /** The application delegate. `command` is set by the URL handler; the
      other fields record what the launch handlers do: the window shown,
      whether the About menu item was hidden, the codes a carbon window was
      asked for, and whether termination was requested. */
  class App {
    var command: Option<Command>
    var window: Window
    var aboutMenuItemHidden: bool
    var carbonRequests: seq<string>
    var terminationRequested: bool

    constructor ()
      ensures command == None && window == NoWindow && !aboutMenuItemHidden
      ensures carbonRequests == [] && !terminationRequested
    {
      command := None;
      window := NoWindow;
      aboutMenuItemHidden := false;
      carbonRequests := [];
      terminationRequested := false;
    }

    /** `handle(event:withReplyEvent:)`. `queryItems` is `None` when the
        event carries no URL string, the string is not a URL, or the URL has
        no query items; then the stored command is left as it was. */
    method Handle(queryItems: Option<seq<QueryItem>>)
      modifies this`command
      ensures queryItems.None? ==> command == old(command)
      ensures queryItems.Some? ==> command == DecodeCommand(Params(queryItems.value))
    {
      if queryItems.None? {
        return;
      }
      var params := Params(queryItems.value);
      command := DecodeCommand(params);
    }

    /** `aboutDidFinishLaunching()`. */
    method ShowAboutWindow()
      modifies this`window, this`aboutMenuItemHidden
      ensures window == AboutWindow && aboutMenuItemHidden
    {
      window := AboutWindow;
      aboutMenuItemHidden := true;
    }

    /** `preferencesDidFinishLaunching()`. */
    method ShowPreferencesWindow()
      modifies this`window
      ensures window == PreferencesWindow
    {
      window := PreferencesWindow;
    }

    /** `carbonDidFinishLaunching(code:)`. An empty code terminates at once;
        otherwise a carbon window is asked for, and `windowCreated` is whether
        `carbonWindow(code:)` produced one (it needs a writable folder). */
    method CarbonDidFinishLaunching(code: string, windowCreated: bool)
      modifies this`window, this`carbonRequests, this`terminationRequested
      ensures code == "" ==>
        terminationRequested && window == old(window) && carbonRequests == old(carbonRequests)
      ensures code != "" ==> carbonRequests == old(carbonRequests) + [code]
      ensures code != "" && !windowCreated ==> terminationRequested && window == old(window)
      ensures code != "" && windowCreated ==>
        window == EmptyWindow && terminationRequested == old(terminationRequested)
    {
      if code == "" {
        terminationRequested := true;
        return;
      }
      carbonRequests := carbonRequests + [code];
      if !windowCreated {
        terminationRequested := true;
        return;
      }
      window := EmptyWindow;
    }

    /** `applicationDidFinishLaunching(_:)`: without a stored command the
        About window is shown; otherwise the command's handler runs. */
    method ApplicationDidFinishLaunching(carbonWindowCreated: bool)
      modifies this`window, this`aboutMenuItemHidden, this`carbonRequests, this`terminationRequested
      ensures LaunchFor(command) == LaunchAbout ==>
        window == AboutWindow && aboutMenuItemHidden &&
        carbonRequests == old(carbonRequests) && terminationRequested == old(terminationRequested)
      ensures LaunchFor(command) == LaunchPreferences ==>
        window == PreferencesWindow && aboutMenuItemHidden == old(aboutMenuItemHidden) &&
        carbonRequests == old(carbonRequests) && terminationRequested == old(terminationRequested)
      ensures LaunchFor(command).LaunchCarbon? ==>
        var code := LaunchFor(command).code;
        aboutMenuItemHidden == old(aboutMenuItemHidden) &&
        carbonRequests == old(carbonRequests) + (if code == "" then [] else [code]) &&
        if code != "" && carbonWindowCreated
        then window == EmptyWindow && terminationRequested == old(terminationRequested)
        else window == old(window) && terminationRequested
    {
      match LaunchFor(command)
      case LaunchAbout =>
        ShowAboutWindow();
      case LaunchPreferences =>
        ShowPreferencesWindow();
      case LaunchCarbon(code) =>
        CarbonDidFinishLaunching(code, carbonWindowCreated);
    }

    /** `showAbout(_:)`, the menu action. */
    method ShowAbout()
      modifies this`window, this`aboutMenuItemHidden
      ensures window == AboutWindow && aboutMenuItemHidden
    {
      ShowAboutWindow();
    }
  }
}
