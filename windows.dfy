/** The older window helpers: activation by title over the full window list.
    Their `list_visible_windows` and `list_all_windows` are the same code as the
    ones in `WindowsUtils` and are modelled there once. */
module Windows {
  import opened Wrappers
  import opened Strings
  import opened WindowsUtils

  /** `activate_window_by_handle(hwnd)`: announce the handle on the console, then
      restore a minimised window and bring it to the foreground. */
  function ActivateAnnounced(hwnd: int, iconic: bool): (actions: seq<Action>)
    ensures |actions| >= 2 && actions[0] == ConsolePrint("Activating window with handle " + IntToString(hwnd))
    ensures Last(actions) == SetForegroundWindow(hwnd)
    ensures (ShowWindow(hwnd, SW_RESTORE) in actions) <==> iconic
  {
    [ConsolePrint("Activating window with handle " + IntToString(hwnd))] + ActivateWindowByHandle(hwnd, iconic)
  }

  /** `activate_window_by_title(query, partial_match)`: True exactly when some listed
      window's title matches; only the first such window is activated, and nothing
      is activated when none matches. */
  method ActivateWindowByTitle(ws: seq<Window>, query: string, partial: bool)
      returns (found: bool, actions: seq<Action>)
    ensures var windows := ListAll(ws, NoFilters);
            var k := FindWindow(windows, query, partial);
            && (found <==> k.Some?)
            && (k.None? ==> actions == [])
            && (k.Some? ==> actions == ActivateAnnounced(windows[k.value].handle, windows[k.value].minimized))
  {
    var windows := ListAllWindows(ws, NoFilters);
    for i := 0 to |windows|
      invariant forall j :: 0 <= j < i ==> !TitleMatches(query, windows[j].title, partial)
    {
      if TitleMatches(query, windows[i].title, partial) {
        FindWindowFirst(windows, query, partial, i);
        return true, ActivateAnnounced(windows[i].handle, windows[i].minimized);
      }
    }
    return false, [];
  }

  /** Exact mode accepts a title that differs from the query only in letter case;
      partial mode accepts any title that holds the query in any case. */
  lemma {:induction false} MatchModes(query: string, title: string)
    ensures Lower(query) == Lower(title) ==> TitleMatches(query, title, false) && TitleMatches(query, title, true)
    ensures TitleMatches(query, title, true) <==>
              exists i :: OccursAt(Lower(title), Lower(query), i)
  {
    ContainsIff(Lower(title), Lower(query));
    if Lower(query) == Lower(title) {
      assert OccursAt(Lower(title), Lower(query), 0);
    }
  }
}
