/** Window lookup and placement over a snapshot of the desktop: the window list the
    enumeration reports, filtered; the first window whose title matches; the
    target monitor and centred position when moving a window one monitor left;
    the placement record that maximises a window. The win32 calls are inputs
    (what they report) and outputs (the calls issued, in order). */
module WindowsUtils {
  import opened Wrappers
  import opened Strings

  const WS_DISABLED: bv32 := 0x0800_0000
  const WS_MINIMIZE: bv32 := 0x2000_0000
  const SW_MAXIMIZE: int := 3
  const SW_RESTORE: int := 9

  /** One top-level window as enumeration reports it: handle, title, visibility and
      the `GWL_STYLE` bits. */
  datatype Window = Window(handle: int, title: string, visible: bool, style: bv32)

  /** The record `list_all_windows` returns for a window. */
  datatype WindowInfo = WindowInfo(handle: int, title: string, visible: bool, enabled: bool, minimized: bool)

  /** The keyword arguments of `list_all_windows`. */
  datatype Filters = Filters(visibleOnly: bool, enabledOnly: bool, nonMinimizedOnly: bool,
                             titleContains: Option<string>)

  const NoFilters := Filters(false, false, false, None)

  /** A win32 call the code issues. */
  datatype Action =
    | ShowWindow(handle: int, command: int)
    | SetForegroundWindow(handle: int)
    | SetWindowPlacement(handle: int, placement: Placement)
    | MoveWindow(handle: int, x: int, y: int, width: int, height: int, repaint: bool)
    | ConsolePrint(text: string)
    | Pause(milliseconds: nat)                      // time.sleep

  /** `GetWindowPlacement`'s tuple: flags, show command, minimised and maximised
      positions, normal rectangle. */
  datatype Placement = Placement(flags: int, showCmd: int, minPosition: (int, int), maxPosition: (int, int),
                                 normalPosition: Rect)

  /** A rectangle `(left, top, right, bottom)`. */
  datatype Rect = Rect(left: int, top: int, right: int, bottom: int)

  // ---------------------------------------------------------------- listing

  /** `style & WS_DISABLED == 0`: `&` binds tighter than `==` in Python. */
  predicate Enabled(style: bv32) {
    style & WS_DISABLED == 0
  }

  predicate Minimized(style: bv32) {
    style & WS_MINIMIZE != 0
  }

  function Info(w: Window): WindowInfo {
    WindowInfo(w.handle, w.title, w.visible, Enabled(w.style), Minimized(w.style))
  }

  /** The callback's tests, in order: a title, then each filter that is switched on. */
  predicate Accepts(f: Filters, w: Window) {
    && w.title != ""
    && (f.visibleOnly ==> w.visible)
    && (f.enabledOnly ==> Enabled(w.style))
    && (f.nonMinimizedOnly ==> !Minimized(w.style))
    && (f.titleContains.Some? && f.titleContains.value != "" ==>
          Contains(Lower(w.title), Lower(f.titleContains.value)))
  }

  /** The windows `list_all_windows(**f)` reports, in enumeration order. */
  function ListAll(ws: seq<Window>, f: Filters): seq<WindowInfo>
    decreases |ws|
  {
    if ws == [] then []
    else (if Accepts(f, ws[0]) then [Info(ws[0])] else []) + ListAll(ws[1..], f)
  }

  /** The listing keeps enumeration order: listing two runs of windows one after
      the other is listing their concatenation. */
  lemma {:induction false} ListAllAppend(ws1: seq<Window>, ws2: seq<Window>, f: Filters)
    ensures ListAll(ws1 + ws2, f) == ListAll(ws1, f) + ListAll(ws2, f)
    decreases |ws1|
  {
    if ws1 != [] {
      assert (ws1 + ws2)[1..] == ws1[1..] + ws2;
      ListAllAppend(ws1[1..], ws2, f);
    } else {
      assert ws1 + ws2 == ws2;
    }
  }

  /** The listing holds exactly the records of the accepted windows. */
  lemma {:induction false} ListAllMembers(ws: seq<Window>, f: Filters, r: WindowInfo)
    ensures r in ListAll(ws, f) <==> exists i :: 0 <= i < |ws| && Accepts(f, ws[i]) && r == Info(ws[i])
    decreases |ws|
  {
    if ws != [] {
      ListAllMembers(ws[1..], f, r);
      if r in ListAll(ws[1..], f) {
        var i :| 0 <= i < |ws[1..]| && Accepts(f, ws[1..][i]) && r == Info(ws[1..][i]);
        assert ws[i + 1] == ws[1..][i];
      }
      if exists i :: 0 <= i < |ws| && Accepts(f, ws[i]) && r == Info(ws[i]) {
        var i :| 0 <= i < |ws| && Accepts(f, ws[i]) && r == Info(ws[i]);
        if i > 0 {
          assert ws[1..][i - 1] == ws[i];
        }
      }
    }
  }

  /** Every listed window has a title and passes each filter that is on: visible,
      enabled, not minimised, and a title holding `title_contains` in any case. */
  lemma {:induction false} ListAllFilters(ws: seq<Window>, f: Filters)
    ensures forall r :: r in ListAll(ws, f) ==>
              && r.title != ""
              && (f.visibleOnly ==> r.visible)
              && (f.enabledOnly ==> r.enabled)
              && (f.nonMinimizedOnly ==> !r.minimized)
              && (f.titleContains.Some? && f.titleContains.value != "" ==>
                    Contains(Lower(r.title), Lower(f.titleContains.value)))
    decreases |ws|
  {
    if ws != [] {
      ListAllFilters(ws[1..], f);
    }
  }

  /** `list_all_windows(**f)`: enumeration appends each accepted window. */
  method ListAllWindows(ws: seq<Window>, f: Filters) returns (results: seq<WindowInfo>)
    ensures results == ListAll(ws, f)
  {
    results := [];
    for i := 0 to |ws|
      invariant results == ListAll(ws[..i], f)
    {
      var w := ws[i];
      ListAllAppend(ws[..i], [w], f);
      assert ws[..i + 1] == ws[..i] + [w];
      if Accepts(f, w) {
        results := results + [Info(w)];
      }
    }
    assert ws[..|ws|] == ws;
  }

  /** The pairs `list_visible_windows` reports: visible windows with a title. */
  function ListVisible(ws: seq<Window>): seq<(int, string)>
    decreases |ws|
  {
    if ws == [] then []
    else (if ws[0].visible && ws[0].title != "" then [(ws[0].handle, ws[0].title)] else []) +
         ListVisible(ws[1..])
  }

  /** `list_visible_windows` reports what `list_all_windows(visible_only=True)` does,
      as `(handle, title)` pairs. */
  lemma {:induction false} ListVisibleIsFiltered(ws: seq<Window>)
    ensures var all := ListAll(ws, Filters(true, false, false, None));
            |ListVisible(ws)| == |all| &&
            forall i :: 0 <= i < |all| ==> ListVisible(ws)[i] == (all[i].handle, all[i].title)
    decreases |ws|
  {
    if ws != [] {
      ListVisibleIsFiltered(ws[1..]);
    }
  }

  /** `list_visible_windows()`. */
  method ListVisibleWindows(ws: seq<Window>) returns (windows: seq<(int, string)>)
    ensures windows == ListVisible(ws)
  {
    windows := [];
    for i := 0 to |ws|
      invariant windows == ListVisible(ws[..i])
    {
      var w := ws[i];
      ListVisibleAppend(ws[..i], [w]);
      assert ws[..i + 1] == ws[..i] + [w];
      if w.visible && w.title != "" {
        windows := windows + [(w.handle, w.title)];
      }
    }
    assert ws[..|ws|] == ws;
  }

  lemma {:induction false} ListVisibleAppend(ws1: seq<Window>, ws2: seq<Window>)
    ensures ListVisible(ws1 + ws2) == ListVisible(ws1) + ListVisible(ws2)
    decreases |ws1|
  {
    if ws1 != [] {
      assert (ws1 + ws2)[1..] == ws1[1..] + ws2;
      ListVisibleAppend(ws1[1..], ws2);
    } else {
      assert ws1 + ws2 == ws2;
    }
  }

  // ---------------------------------------------------------------- lookup

  /** The title test: case-insensitive substring when partial, equality otherwise. */
  predicate TitleMatches(query: string, title: string, partial: bool) {
    (partial && Contains(Lower(title), Lower(query))) || (!partial && Lower(query) == Lower(title))
  }

  /** The position of the first listed window whose title matches. */
  function FindWindow(windows: seq<WindowInfo>, query: string, partial: bool): (k: Option<nat>)
    ensures k.Some? ==> k.value < |windows| && TitleMatches(query, windows[k.value].title, partial) &&
                        forall j :: 0 <= j < k.value ==> !TitleMatches(query, windows[j].title, partial)
    ensures k.None? ==> forall j :: 0 <= j < |windows| ==> !TitleMatches(query, windows[j].title, partial)
    decreases |windows|
  {
    if windows == [] then None
    else if TitleMatches(query, windows[0].title, partial) then Some(0)
    else match FindWindow(windows[1..], query, partial)
         case None => None
         case Some(k) => Some(k + 1)
  }

  /** `activate_window_by_handle(hwnd)`: restore first when the window is minimised,
      then bring it to the foreground. */
  function ActivateWindowByHandle(hwnd: int, iconic: bool): (actions: seq<Action>)
    ensures |actions| >= 1 && Last(actions) == SetForegroundWindow(hwnd)
    ensures (ShowWindow(hwnd, SW_RESTORE) in actions) <==> iconic
  {
    (if iconic then [ShowWindow(hwnd, SW_RESTORE)] else []) + [SetForegroundWindow(hwnd)]
  }

  /** What a lookup issues for a listed window when activation is asked for: the
      minimised flag of the listing is what `IsIconic` reports. */
  function Activation(w: WindowInfo, activate: bool): seq<Action> {
    if activate then ActivateWindowByHandle(w.handle, w.minimized) else []
  }

  /** `get_hwnd_for_window_by_title(query, partial_match, activate_if_found)`: the
      handle of the first window whose title matches, activated when asked; 0 and
      no call when none matches. */
  method GetHwndForWindowByTitle(ws: seq<Window>, query: string, partial: bool, activate: bool)
      returns (hwnd: int, actions: seq<Action>)
    ensures var windows := ListAll(ws, NoFilters);
            match FindWindow(windows, query, partial)
            case None => hwnd == 0 && actions == []
            case Some(k) => hwnd == windows[k].handle && actions == Activation(windows[k], activate)
  {
    var windows := ListAllWindows(ws, NoFilters);
    for i := 0 to |windows|
      invariant forall j :: 0 <= j < i ==> !TitleMatches(query, windows[j].title, partial)
    {
      if TitleMatches(query, windows[i].title, partial) {
        FindWindowFirst(windows, query, partial, i);
        actions := Activation(windows[i], activate);
        return windows[i].handle, actions;
      }
    }
    return 0, [];
  }

  /** The first matching position is the one `FindWindow` reports. */
  lemma {:induction false} FindWindowFirst(windows: seq<WindowInfo>, query: string, partial: bool, k: nat)
    requires k < |windows| && TitleMatches(query, windows[k].title, partial)
    requires forall j :: 0 <= j < k ==> !TitleMatches(query, windows[j].title, partial)
    ensures FindWindow(windows, query, partial) == Some(k)
    decreases k
  {
    if k > 0 {
      FindWindowFirst(windows[1..], query, partial, k - 1);
    }
  }

  // ---------------------------------------------------------------- maximise

  /** `maximize_window_by_handle(hwnd)`: restore, then write back the placement with
      the show command replaced by `SW_MAXIMIZE`, then give the window 100 ms.
      `placement` is what `GetWindowPlacement` returns (None when it raises);
      `setSucceeds` whether `SetWindowPlacement` returns rather than raises. The
      call that raises is still issued; nothing after it is. */
  function MaximizeWindowByHandle(hwnd: int, placement: Option<Placement>, setSucceeds: bool)
    : (r: (bool, seq<Action>))
    ensures r.0 <==> placement.Some? && setSucceeds
    ensures |r.1| >= 1 && r.1[0] == ShowWindow(hwnd, SW_RESTORE)
    ensures placement.None? ==> r.1 == [ShowWindow(hwnd, SW_RESTORE)]
    ensures placement.Some? ==> |r.1| >= 2 && r.1[1] == SetWindowPlacement(hwnd, placement.value.(showCmd := SW_MAXIMIZE))
    ensures r.0 ==> r.1 == [ShowWindow(hwnd, SW_RESTORE),
                            SetWindowPlacement(hwnd, placement.value.(showCmd := SW_MAXIMIZE)), Pause(100)]
    ensures placement.Some? && !setSucceeds ==>
              r.1 == [ShowWindow(hwnd, SW_RESTORE), SetWindowPlacement(hwnd, placement.value.(showCmd := SW_MAXIMIZE))]
    ensures (Pause(100) in r.1) <==> r.0
  {
    var restore := [ShowWindow(hwnd, SW_RESTORE)];
    match placement
    case None => (false, restore)
    case Some(p) =>
      var attempt := restore + [SetWindowPlacement(hwnd, p.(showCmd := SW_MAXIMIZE))];
      if setSucceeds then (true, attempt + [Pause(100)])
      else (false, attempt)
  }

  // ---------------------------------------------------------------- move left

  /** One display monitor: its handle and rectangle. */
  datatype Monitor = Monitor(handle: int, rect: Rect)

  predicate SortedByLeft(ms: seq<Monitor>) {
    forall i, j :: 0 <= i < j < |ms| ==> ms[i].rect.left <= ms[j].rect.left
  }

  /** Insert `m` into `s` after every trailing monitor whose left edge is greater. */
  function Insert(s: seq<Monitor>, m: Monitor): seq<Monitor>
    decreases |s|
  {
    if s == [] then [m]
    else if Last(s).rect.left <= m.rect.left then s + [m]
    else Insert(s[..|s| - 1], m) + [Last(s)]
  }

  /** `monitors.sort(key=left edge)`: a stable sort, here an insertion sort. */
  function SortByLeft(ms: seq<Monitor>): seq<Monitor>
    decreases |ms|
  {
    if ms == [] then [] else Insert(SortByLeft(ms[..|ms| - 1]), Last(ms))
  }

  /** Inserting into a sorted sequence keeps it sorted and adds exactly `m`. */
  lemma {:induction false} InsertSorted(s: seq<Monitor>, m: Monitor)
    requires SortedByLeft(s)
    ensures SortedByLeft(Insert(s, m))
    ensures multiset(Insert(s, m)) == multiset(s) + multiset{m}
    decreases |s|
  {
    if s == [] {
    } else if Last(s).rect.left <= m.rect.left {
      assert forall i :: 0 <= i < |s| ==> s[i].rect.left <= Last(s).rect.left;
    } else {
      var front := s[..|s| - 1];
      var last := Last(s);
      assert s == front + [last];
      assert SortedByLeft(front);
      InsertSorted(front, m);
      var r := Insert(front, m);
      assert Insert(s, m) == r + [last];
      BelowLast(s, front, m, r);
      AppendLargest(r, last);
      assert multiset(r + [last]) == multiset(r) + multiset{last};
    }
  }

  /** Everything in the insertion into the front part lies left of the last monitor. */
  lemma BelowLast(s: seq<Monitor>, front: seq<Monitor>, m: Monitor, r: seq<Monitor>)
    requires SortedByLeft(s) && |s| > 0 && front == s[..|s| - 1] && m.rect.left < Last(s).rect.left
    requires multiset(r) == multiset(front) + multiset{m}
    ensures forall i :: 0 <= i < |r| ==> r[i].rect.left <= Last(s).rect.left
  {
    forall i | 0 <= i < |r| ensures r[i].rect.left <= Last(s).rect.left {
      assert r[i] in multiset(r);
      if r[i] != m {
        assert r[i] in multiset(front);
        var k :| 0 <= k < |front| && front[k] == r[i];
        assert s[k] == r[i];
      }
    }
  }

  /** Appending a monitor no further left than every element keeps the order. */
  lemma AppendLargest(r: seq<Monitor>, last: Monitor)
    requires SortedByLeft(r)
    requires forall i :: 0 <= i < |r| ==> r[i].rect.left <= last.rect.left
    ensures SortedByLeft(r + [last])
  {
    var t := r + [last];
    forall i, j | 0 <= i < j < |t| ensures t[i].rect.left <= t[j].rect.left {
      if j < |r| {
        assert t[i] == r[i] && t[j] == r[j];
      } else {
        assert t[i] == r[i] && t[j] == last;
      }
    }
  }

  /** The sort orders by left edge and is a permutation of what was enumerated. */
  lemma {:induction false} SortByLeftSorted(ms: seq<Monitor>)
    ensures SortedByLeft(SortByLeft(ms))
    ensures multiset(SortByLeft(ms)) == multiset(ms)
    decreases |ms|
  {
    if ms != [] {
      var front := ms[..|ms| - 1];
      assert ms == front + [Last(ms)];
      SortByLeftSorted(front);
      InsertSorted(SortByLeft(front), Last(ms));
    }
  }

  /** The monitor to the left, wrapping from the leftmost to the rightmost. */
  function TargetIndex(current: nat, count: nat): (t: nat)
    requires current < count
    ensures t < count
    ensures current > 0 ==> t == current - 1
    ensures current == 0 ==> t == count - 1
  {
    if current > 0 then current - 1 else count - 1
  }

  /** `monitor_x + (monitor_width - width) // 2`. */
  function CentredX(monitorX: int, monitorWidth: int, width: int): int {
    monitorX + (monitorWidth - width) / 2
  }

  /** The new position centres the window: the gaps left and right of it on the
      target monitor differ by at most one pixel, the right one being the larger. */
  lemma CentredXIsCentred(monitorX: int, monitorWidth: int, width: int)
    ensures var x := CentredX(monitorX, monitorWidth, width);
            var leftGap := x - monitorX;
            var rightGap := (monitorX + monitorWidth) - (x + width);
            0 <= rightGap - leftGap <= 1
  {
  }

  /** The first position of a monitor with this handle, as `next(...)` finds it. */
  function IndexOfMonitor(ms: seq<Monitor>, handle: int): (k: Option<nat>)
    ensures k.Some? ==> k.value < |ms| && ms[k.value].handle == handle &&
                        forall j :: 0 <= j < k.value ==> ms[j].handle != handle
    ensures k.None? ==> forall j :: 0 <= j < |ms| ==> ms[j].handle != handle
    decreases |ms|
  {
    if ms == [] then None
    else if ms[0].handle == handle then Some(0)
    else match IndexOfMonitor(ms[1..], handle)
         case None => None
         case Some(k) => Some(k + 1)
  }

  /** What the handler prints for an exception with an empty message. */
  const MoveError := "Error moving window: "

  /** `move_window_left_monitor(hwnd)`, given the window's rectangle, the monitor
      `MonitorFromWindow` reports and the monitors in enumeration order. The window
      keeps its y, width and height and is centred horizontally on the monitor
      left of its own in left-edge order, wrapping to the rightmost; when its
      monitor is not among those enumerated, `next` raises StopIteration, whose
      message is empty, and the result is False with only the error printed. */
  method MoveWindowLeftMonitor(hwnd: int, rect: Rect, current: int, enumerated: seq<Monitor>)
      returns (ok: bool, actions: seq<Action>)
    ensures var sorted := SortByLeft(enumerated);
            var k := IndexOfMonitor(sorted, current);
            && (k.None? ==> !ok && actions == [ConsolePrint(MoveError)])
            && (k.Some? ==>
                  var target := sorted[TargetIndex(k.value, |sorted|)].rect;
                  var width := rect.right - rect.left;
                  ok && actions == [MoveWindow(hwnd, CentredX(target.left, target.right - target.left, width),
                                               rect.top, width, rect.bottom - rect.top, true)])
  {
    var width := rect.right - rect.left;
    var height := rect.bottom - rect.top;
    var monitors := SortByLeft(enumerated);
    var currentIndex := IndexOfMonitor(monitors, current);
    if currentIndex.None? {
      return false, [ConsolePrint(MoveError)];
    }
    var targetIndex := TargetIndex(currentIndex.value, |monitors|);
    var targetMonitor := monitors[targetIndex].rect;
    var newX := CentredX(targetMonitor.left, targetMonitor.right - targetMonitor.left, width);
    return true, [MoveWindow(hwnd, newX, rect.top, width, height, true)];
  }

  /** Moving left from the leftmost of several monitors lands on the rightmost. */
  lemma WrapsToRightmost(hwnd: int, rect: Rect, enumerated: seq<Monitor>)
    requires |enumerated| >= 2
    ensures var sorted := SortByLeft(enumerated);
            IndexOfMonitor(sorted, sorted[0].handle) == Some(0) &&
            TargetIndex(0, |sorted|) == |sorted| - 1 &&
            forall i :: 0 <= i < |sorted| ==> sorted[i].rect.left <= sorted[|sorted| - 1].rect.left
  {
    var sorted := SortByLeft(enumerated);
    SortByLeftSorted(enumerated);
    assert |multiset(sorted)| == |multiset(enumerated)|;
    assert |sorted| >= 2;
  }
}
