/**
 * Clipboard and paste decisions (src/superwhisper/clipboard.py): terminal
 * detection by window class, the choice of paste shortcut, and the order
 * of steps in `auto_paste`.
 *
 * Every subprocess is an oracle: `wl-copy` is whether launching it raises,
 * `hyprctl` is what its run produced, `wtype` is how a run with the given
 * arguments ends.
 */
module Clipboard {
  import opened Wrappers
  import opened Strings

  /** `DEFAULT_TERMINAL_CLASSES` */
  const DefaultTerminalClasses: set<string> := {
    "kitty", "alacritty", "foot", "wezterm", "ghostty", "konsole",
    "gnome-terminal", "gnome-terminal-server", "xfce4-terminal", "terminator",
    "tilix", "st", "st-256color", "urxvt", "xterm", "contour", "warp", "rio",
    "blackbox", "ptyxis"
  }

  /** The classes `is_terminal` matches against: a missing or empty custom set falls back to the defaults. */
  function TerminalClasses(custom: Option<set<string>>): (classes: set<string>)
    ensures custom.Some? && custom.value != {} ==> classes == custom.value
    ensures custom.None? || custom.value == {} ==> classes == DefaultTerminalClasses
  {
    if custom.Some? && custom.value != {} then custom.value else DefaultTerminalClasses
  }

  /** `is_terminal`: no class (or an empty one) is never a terminal; otherwise an exact match. */
  function IsTerminal(windowClass: Option<string>, custom: Option<set<string>>): (r: bool)
    ensures windowClass.None? || windowClass.value == "" ==> !r
    ensures windowClass.Some? && windowClass.value != "" ==> (r <==> windowClass.value in TerminalClasses(custom))
  {
    match windowClass
    case None => false
    case Some(c) => c != "" && c in TerminalClasses(custom)
  }

  /** A non-empty custom set replaces the defaults entirely: a default terminal not in it is not a terminal. */
  lemma CustomSetReplacesDefaults(c: string, custom: set<string>)
    requires custom != {} && c !in custom
    ensures !IsTerminal(Some(c), Some(custom))
  {
  }

  /** An empty custom set behaves as no custom set. */
  lemma EmptyCustomSetIsDefault(windowClass: Option<string>)
    ensures IsTerminal(windowClass, Some({})) == IsTerminal(windowClass, None)
  {
  }

  /** Matching is exact: a class differing from every entry in letter case is not matched. */
  lemma KittyDetected()
    ensures IsTerminal(Some("kitty"), None)
    ensures !IsTerminal(Some("Kitty"), Some({"kitty"}))
  {
  }

  /** How the `hyprctl activewindow -j` probe ended. */
  datatype WindowProbe =
    | ProbeTimedOut
    | ProbeFailed
      /** `classField`: `None` when the output is not JSON, `Some(None)` when the object has no string `class`. */
    | ProbeRan(returnCode: int, stdout: string, classField: Option<Option<string>>)

  /** `get_active_window_class`: the lowercased class, or `None` when no class can be had. */
  function ActiveWindowClass(probe: WindowProbe): (r: Option<string>)
    ensures r.Some? ==> r.value != "" && Lower(r.value) == r.value
    ensures r.Some? <==> (probe.ProbeRan? && probe.returnCode == 0 && Strip(probe.stdout) != ""
                          && probe.classField.Some? && probe.classField.value.Some? && probe.classField.value.value != "")
    ensures r.Some? ==> r.value == Lower(probe.classField.value.value)
  {
    match probe
    case ProbeTimedOut => None
    case ProbeFailed => None
    case ProbeRan(code, out, field) =>
      if code == 0 && Strip(out) != "" then
        match field
        case None => None
        case Some(cls) =>
          if cls.Some? && cls.value != "" then
            LowerIdempotent(cls.value);
            Some(Lower(cls.value))
          else None
      else None
  }

  lemma LowerIdempotent(s: string)
    ensures Lower(Lower(s)) == Lower(s)
  {
  }

  /** What a window reporting `cls` is detected as: the same as its lowercased class. */
  lemma ProbeCaseInsensitive(stdout: string, cls: string, custom: Option<set<string>>)
    requires Strip(stdout) != "" && cls != ""
    ensures IsTerminal(ActiveWindowClass(ProbeRan(0, stdout, Some(Some(cls)))), custom) == (Lower(cls) in TerminalClasses(custom))
  {
  }

  /** The `wtype` arguments for a paste: Ctrl+Shift+V for terminals, Ctrl+V otherwise. */
  function PasteArgs(useShift: bool): (args: seq<string>)
    ensures useShift ==> args == ["wtype", "-M", "ctrl", "-M", "shift", "v", "-m", "shift", "-m", "ctrl"]
    ensures !useShift ==> args == ["wtype", "-M", "ctrl", "v", "-m", "ctrl"]
  {
    if useShift then ["wtype", "-M", "ctrl", "-M", "shift", "v", "-m", "shift", "-m", "ctrl"]
    else ["wtype", "-M", "ctrl", "v", "-m", "ctrl"]
  }

  /** How a `wtype` run ended: finished, timed out, a non-zero exit, or could not be launched (with its error). */
  datatype RunOutcome = Completed | TimedOut | ExitedNonZero | LaunchFailed(message: string)

  /** `send_paste_shortcut`: timeouts and failures give `false`; a failed launch is raised. */
  function SendPasteShortcut(useShift: bool, run: seq<string> -> RunOutcome): (r: Result<bool>)
    ensures r == Ok(true) <==> run(PasteArgs(useShift)) == Completed
    ensures r == Ok(false) <==> run(PasteArgs(useShift)) in {TimedOut, ExitedNonZero}
    ensures r.Err? <==> run(PasteArgs(useShift)).LaunchFailed?
  {
    match run(PasteArgs(useShift))
    case Completed => Ok(true)
    case TimedOut => Ok(false)
    case ExitedNonZero => Ok(false)
    case LaunchFailed(m) => Err(m)
  }

  /** The outcome of `auto_paste`: the shortcut arguments sent, if any, and the result. */
  datatype PasteReport = PasteReport(shortcut: Option<seq<string>>, result: Result<bool>)

  /**
   * `auto_paste`: copy first (`copy` is whether launching wl-copy raises);
   * then detect the window and send the matching shortcut.
   */
  function AutoPaste(custom: Option<set<string>>, copy: Outcome, probe: WindowProbe,
                     run: seq<string> -> RunOutcome): (r: PasteReport)
    ensures copy.Fail? ==> r == PasteReport(None, Ok(false))
    ensures copy.Pass? ==>
              var term := IsTerminal(ActiveWindowClass(probe), custom);
              r.shortcut == Some(PasteArgs(term)) && r.result == SendPasteShortcut(term, run)
  {
    if copy.Fail? then PasteReport(None, Ok(false))
    else
      var term := IsTerminal(ActiveWindowClass(probe), custom);
      PasteReport(Some(PasteArgs(term)), SendPasteShortcut(term, run))
  }

  /** `auto_paste` sends Ctrl+Shift+V exactly when the copy worked and the window is a terminal. */
  lemma AutoPasteShift(custom: Option<set<string>>, copy: Outcome, probe: WindowProbe, run: seq<string> -> RunOutcome)
    ensures AutoPaste(custom, copy, probe, run).shortcut == Some(PasteArgs(true)) <==>
              copy.Pass? && IsTerminal(ActiveWindowClass(probe), custom)
  {
    assert PasteArgs(true) != PasteArgs(false) by {
      assert |PasteArgs(true)| != |PasteArgs(false)|;
    }
  }

  /** `check_dependencies`: the commands not found, wl-copy before wtype. */
  method CheckDependencies(onPath: string -> bool) returns (missing: seq<string>)
    ensures missing == (if onPath("wl-copy") then [] else ["wl-copy"]) + (if onPath("wtype") then [] else ["wtype"])
    ensures forall c :: c in missing <==> c in ["wl-copy", "wtype"] && !onPath(c)
  {
    var commands := ["wl-copy", "wtype"];
    missing := [];
    for i := 0 to |commands|
      invariant missing == MissingOf(commands[..i], onPath)
    {
      assert commands[..i + 1][..i] == commands[..i];
      if !onPath(commands[i]) {
        missing := missing + [commands[i]];
      }
    }
    assert commands[..|commands|] == commands;
    assert commands[..1] == ["wl-copy"] && commands[..1][..0] == [];
  }

  /** The commands of `commands` not on the path, in order. */
  function MissingOf(commands: seq<string>, onPath: string -> bool): seq<string>
    decreases |commands|
  {
    if |commands| == 0 then []
    else
      var n := |commands| - 1;
      MissingOf(commands[..n], onPath) + (if onPath(commands[n]) then [] else [commands[n]])
  }
}
