/** Terminal helpers: the command lines that open a Windows Terminal tab running
    PowerShell or cmd, and typing lines into a terminal window found by title.
    Process creation, the keyboard and the clock are outputs: the argument vector
    handed to `Popen`, and the keystrokes and pauses issued, in order. */
module Terminal {
  import opened Wrappers
  import opened Strings
  import WindowsUtils

  /** Python's truthiness of an optional string argument. */
  predicate Given(s: Option<string>) {
    s.Some? && s.value != ""
  }

  /** `open_powershell_prompt(command, title)`: the argument vector passed to
      `Popen`. A titled tab names itself; a command is run with `-Command`. */
  method OpenPowershellPrompt(command: Option<string>, title: Option<string>) returns (argv: seq<string>)
    ensures |argv| >= 4
    ensures Given(title) ==> |argv| >= 7 && argv[..7] == ["wt.exe", "new-tab", "--title", title.value, "pwsh.exe", "-NoProfile", "-NoExit"]
    ensures !Given(title) ==> argv[..4] == ["wt.exe", "pwsh.exe", "-NoProfile", "-NoExit"]
    ensures var base := if Given(title) then 7 else 4;
            && |argv| == base + (if Given(command) then 2 else 0)
            && (Given(command) ==> argv[base..] == ["-Command", command.value])
  {
    var baseCommand: seq<string>;
    if Given(title) {
      baseCommand := ["wt.exe", "new-tab", "--title", title.value, "pwsh.exe", "-NoProfile", "-NoExit"];
    } else {
      baseCommand := ["wt.exe", "pwsh.exe", "-NoProfile", "-NoExit"];
    }
    if Given(command) {
      baseCommand := baseCommand + ["-Command", command.value];
    }
    argv := baseCommand;
  }

  /** `open_command_prompt(command, title)`: cmd kept open with `/k`, running
      `title <t> && <c>`, `title <t>`, the command alone, or nothing. */
  function OpenCommandPrompt(command: Option<string>, title: Option<string>): (argv: seq<string>)
    ensures |argv| >= 2 && argv[..2] == ["wt.exe", "cmd.exe"]
    ensures |argv| == 2 <==> !Given(title) && !Given(command)
    ensures |argv| == 4 ==> argv[2] == "/k"
    ensures Given(title) ==> |argv| == 4 && StartsWith(argv[3], "title " + title.value)
    ensures Given(command) ==> |argv| == 4 && EndsWithText(argv[3], command.value)
    ensures Given(title) && Given(command) ==> argv[3] == "title " + title.value + " && " + command.value
    ensures Given(title) && !Given(command) ==> argv == ["wt.exe", "cmd.exe", "/k", "title " + title.value]
    ensures !Given(title) && Given(command) ==> argv == ["wt.exe", "cmd.exe", "/k", command.value]
  {
    if Given(title) && Given(command) then ["wt.exe", "cmd.exe", "/k", "title " + title.value + " && " + command.value]
    else if Given(title) then ["wt.exe", "cmd.exe", "/k", "title " + title.value]
    else if Given(command) then ["wt.exe", "cmd.exe", "/k", command.value]
    else ["wt.exe", "cmd.exe"]
  }

  predicate EndsWithText(s: string, suffix: string) {
    |suffix| <= |s| && s[|s| - |suffix|..] == suffix
  }

  /** What typing into a terminal issues. */
  datatype Effect =
    | Win(action: WindowsUtils.Action)   // the window lookup's activation calls
    | Print(text: string)
    | Sleep(milliseconds: nat)
    | Write(text: string)                // pyautogui.write
    | Press(key: string)                 // pyautogui.press

  function Wins(actions: seq<WindowsUtils.Action>): (r: seq<Effect>)
    ensures |r| == |actions|
    ensures forall i :: 0 <= i < |actions| ==> r[i] == Win(actions[i])
  {
    seq(|actions|, i requires 0 <= i < |actions| => Win(actions[i]))
  }

  function NotFound(title: string): Effect {
    Print("Failed to find PowerShell window with title " + title)
  }

  /** Typing one line: the text, then Enter. */
  function Line(text: string): seq<Effect> {
    [Write(text), Press("enter")]
  }

  /** `send_single_line_to_powershell(text, title)` over the window snapshot `ws`:
      False and nothing typed when no window title holds `title`; otherwise the
      window is activated, and after a second the text and Enter are typed (the
      function then returns None). */
  method SendSingleLine(ws: seq<WindowsUtils.Window>, text: string, title: string)
      returns (result: Option<bool>, effects: seq<Effect>)
    ensures var windows := WindowsUtils.ListAll(ws, WindowsUtils.NoFilters);
            var k := WindowsUtils.FindWindow(windows, title, true);
            && (k.None? || windows[k.value].handle == 0 ==> result == Some(false) && |effects| >= 1 && Last(effects) == NotFound(title))
            && (k.Some? && windows[k.value].handle != 0 ==>
                  && result == None
                  && effects == Wins(WindowsUtils.Activation(windows[k.value], true)) + [Sleep(1000)] + Line(text))
    ensures Write(text) in effects <==> result == None
    ensures result == Some(false) ==> forall i :: 0 <= i < |effects| ==> !effects[i].Write? && !effects[i].Press?
  {
    var hwnd, activation := WindowsUtils.GetHwndForWindowByTitle(ws, title, true, true);
    effects := Wins(activation);
    if hwnd == 0 {
      effects := effects + [NotFound(title)];
      return Some(false), effects;
    }
    effects := effects + [Sleep(1000)];
    effects := effects + [Write(text), Press("enter")];
    result := None;
  }

  /** Typing several lines: each line's text, Enter, and a tenth of a second. */
  function Lines(lines: seq<string>): (r: seq<Effect>)
    ensures |r| == 3 * |lines|
    decreases |lines|
  {
    if lines == [] then []
    else [Write(lines[0]), Press("enter"), Sleep(100)] + Lines(lines[1..])
  }

  /** Line `i` is typed at positions `3i`, `3i + 1` and `3i + 2`: its text, Enter and
      the pause, so every line gets exactly one Enter after it, in order. */
  lemma {:induction false} LinesAt(lines: seq<string>, i: nat)
    requires i < |lines|
    ensures var r := Lines(lines);
            r[3 * i] == Write(lines[i]) && r[3 * i + 1] == Press("enter") && r[3 * i + 2] == Sleep(100)
    decreases i
  {
    if i > 0 {
      LinesAt(lines[1..], i - 1);
      var r := Lines(lines);
      var t := Lines(lines[1..]);
      assert r == [Write(lines[0]), Press("enter"), Sleep(100)] + t;
      assert r[3 * i] == t[3 * (i - 1)];
      assert r[3 * i + 1] == t[3 * (i - 1) + 1];
      assert r[3 * i + 2] == t[3 * (i - 1) + 2];
    }
  }

  /** `send_multiple_lines_to_powershell(lines, title)`: False and nothing typed when
      no window is found; otherwise each line in order, each followed by one Enter. */
  method SendMultipleLines(ws: seq<WindowsUtils.Window>, lines: seq<string>, title: string)
      returns (result: Option<bool>, effects: seq<Effect>)
    ensures var windows := WindowsUtils.ListAll(ws, WindowsUtils.NoFilters);
            var k := WindowsUtils.FindWindow(windows, title, true);
            && (k.None? || windows[k.value].handle == 0 ==> result == Some(false) && |effects| >= 1 && Last(effects) == NotFound(title))
            && (k.Some? && windows[k.value].handle != 0 ==>
                  && result == None
                  && effects == Wins(WindowsUtils.Activation(windows[k.value], true)) + [Sleep(1000)] + Lines(lines))
    ensures result == Some(false) ==> forall i :: 0 <= i < |effects| ==> !effects[i].Write? && !effects[i].Press?
  {
    var hwnd, activation := WindowsUtils.GetHwndForWindowByTitle(ws, title, true, true);
    effects := Wins(activation);
    if hwnd == 0 {
      effects := effects + [NotFound(title)];
      return Some(false), effects;
    }
    effects := effects + [Sleep(1000)];
    ghost var prefix := effects;
    for i := 0 to |lines|
      invariant effects == prefix + Lines(lines[..i])
    {
      LinesAppend(lines[..i], lines[i]);
      assert lines[..i + 1] == lines[..i] + [lines[i]];
      effects := effects + [Write(lines[i]), Press("enter"), Sleep(100)];
    }
    assert lines[..|lines|] == lines;
    result := None;
  }

  lemma {:induction false} LinesAppend(lines: seq<string>, line: string)
    ensures Lines(lines + [line]) == Lines(lines) + [Write(line), Press("enter"), Sleep(100)]
    decreases |lines|
  {
    if lines != [] {
      assert (lines + [line])[1..] == lines[1..] + [line];
      LinesAppend(lines[1..], line);
    }
  }
}
